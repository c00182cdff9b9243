/**
 The events of an Anthropic Messages stream, and the message a stream of them
 describes.  The message is defined on the wire events alone, without decoder or
 encoder.
 */
module AnthropicWire {
  import opened Wrappers

  datatype Block =
    | TextBlock(text: string)
    | ThinkingBlock(thinking: string, signature: string)
    | ToolUseBlock(id: string, name: string, input: string)
    | OtherBlock(btype: string)

  datatype Delta =
    | TextPiece(text: string)
    | InputPiece(partialJson: string)
    | ThinkingPiece(thinking: string)
    | SignaturePiece(signature: string)
    | OtherPiece(dtype: string)

  datatype Wire =
    | MessageStarts(id: string, model: string)
    | BlockStarts(index: int, block: Block)
    | BlockPiece(index: int, delta: Delta)
    | BlockStops(index: int)
    | MessageChanges(stopReason: string, usage: Option<string>)
    | MessageStops
    | Ping
    | QuotaFrame(quota: string)
    | RawFrame(raw: string)
    | ErrorFrame(error: string)

  /** The message rebuilt from a stream, so far. */
  datatype Message = Message(
    started: bool,
    id: string,
    model: string,
    blocks: map<int, Block>,   // what each block holds
    order: seq<int>,           // indexes in the order their blocks were opened
    closed: seq<int>,          // indexes in the order their blocks were closed
    stop: Option<string>,
    stopped: bool)

  const NO_MESSAGE := Message(false, "", "", map[], [], [], None, false)

  /** A tool's input as the start of its block gives it: the placeholders stand for nothing. */
  function StartInput(input: string): string {
    if input == "null" || input == "{}" then "" else input
  }

  function Opened(b: Block): Block {
    if b.ToolUseBlock? then b.(input := StartInput(b.input)) else b
  }

  function Extended(b: Block, d: Delta): Block {
    match (b, d)
    case (TextBlock(t), TextPiece(x)) => TextBlock(t + x)
    case (ThinkingBlock(t, s), ThinkingPiece(x)) => ThinkingBlock(t + x, s)
    case (ThinkingBlock(t, s), SignaturePiece(x)) => ThinkingBlock(t, s + x)
    case (ToolUseBlock(id, name, i), InputPiece(x)) => ToolUseBlock(id, name, i + x)
    case (_, _) => b
  }

  /** Block `index` is opened and holds b. */
  function Open(m: Message, index: int, b: Block): Message {
    m.(blocks := m.blocks[index := b], order := m.order + [index])
  }

  /** Block `index` holds b from now on. */
  function Set(m: Message, index: int, b: Block): Message {
    m.(blocks := m.blocks[index := b])
  }

  function Close(m: Message, index: int): Message {
    m.(closed := m.closed + [index])
  }

  function Read(m: Message, w: Wire): Message {
    match w
    case MessageStarts(id, model) => m.(started := true, id := id, model := model)
    case BlockStarts(index, block) => Open(m, index, Opened(block))
    case BlockPiece(index, delta) => if index in m.blocks then Set(m, index, Extended(m.blocks[index], delta)) else m
    case BlockStops(index) => Close(m, index)
    case MessageChanges(reason, _) => if reason != "" then m.(stop := Some(reason)) else m
    case MessageStops => m.(stopped := true)
    case _ => m
  }

  function ReadAll(m: Message, ws: seq<Wire>): Message
    decreases |ws|
  {
    if ws == [] then m else ReadAll(Read(m, ws[0]), ws[1..])
  }

  predicate IsOpen(m: Message, index: int) {
    index in m.blocks && index !in m.closed
  }

  predicate Fits(b: Block, d: Delta) {
    match d
    case TextPiece(_) => b.TextBlock?
    case InputPiece(_) => b.ToolUseBlock?
    case ThinkingPiece(_) => b.ThinkingBlock?
    case SignaturePiece(_) => b.ThinkingBlock?
    case OtherPiece(_) => true
  }

  /** w may come next in a stream of text, thinking and tool blocks with distinct indexes. */
  predicate MayFollow(m: Message, w: Wire) {
    match w
    case MessageStarts(_, _) => !m.started
    case BlockStarts(index, block) => index !in m.blocks && !block.OtherBlock?
    case BlockPiece(index, delta) => IsOpen(m, index) && Fits(m.blocks[index], delta)
    case BlockStops(index) => IsOpen(m, index)
    case MessageChanges(reason, _) => reason != "" ==> m.stop.None?
    case MessageStops => m.stop.Some? && !m.stopped
    case ErrorFrame(_) => false
    case _ => true
  }

  predicate WellFormed(m: Message, ws: seq<Wire>)
    decreases |ws|
  {
    ws == [] || (MayFollow(m, ws[0]) && WellFormed(Read(m, ws[0]), ws[1..]))
  }

  lemma {:induction false} ReadAllConcat(m: Message, a: seq<Wire>, b: seq<Wire>)
    ensures ReadAll(m, a + b) == ReadAll(ReadAll(m, a), b)
    decreases |a|
  {
    if a == [] {
      assert a + b == b;
    } else {
      assert (a + b)[1..] == a[1..] + b;
      ReadAllConcat(Read(m, a[0]), a[1..], b);
    }
  }

  /** Every block was opened once, and closed at most once and after it was opened. */
  ghost predicate Bookkeeping(m: Message) {
    && (forall i :: i in m.order <==> i in m.blocks)
    && (forall i | i in m.closed :: i in m.blocks)
    && (forall j, k | 0 <= j < k < |m.order| :: m.order[j] != m.order[k])
    && (forall j, k | 0 <= j < k < |m.closed| :: m.closed[j] != m.closed[k])
  }

  lemma OpenKeepsBooks(m: Message, index: int, b: Block)
    requires Bookkeeping(m) && index !in m.blocks
    ensures Bookkeeping(Open(m, index, b))
  {
    var t := Open(m, index, b);
    forall j, k | 0 <= j < k < |t.order| ensures t.order[j] != t.order[k] {
      assert t.order[j] in m.order;
    }
  }

  lemma CloseKeepsBooks(m: Message, index: int)
    requires Bookkeeping(m) && IsOpen(m, index)
    ensures Bookkeeping(Close(m, index))
  {
    var t := Close(m, index);
    forall j, k | 0 <= j < k < |t.closed| ensures t.closed[j] != t.closed[k] {
      assert t.closed[j] in m.closed;
    }
  }

  lemma SetTwice(m: Message, index: int, a: Block, b: Block)
    ensures Set(Set(m, index, a), index, b) == Set(m, index, b)
    ensures Set(Open(m, index, a), index, b) == Open(m, index, b)
  {
    assert m.blocks[index := a][index := b] == m.blocks[index := b];
  }

  lemma SetSame(m: Message, index: int)
    requires index in m.blocks
    ensures Set(m, index, m.blocks[index]) == m
  {
    assert m.blocks[index := m.blocks[index]] == m.blocks;
  }

  lemma ReadOne(m: Message, a: Wire)
    ensures ReadAll(m, [a]) == Read(m, a)
  {
    assert [a][1..] == [];
  }

  lemma ReadTwo(m: Message, a: Wire, b: Wire)
    ensures ReadAll(m, [a, b]) == Read(Read(m, a), b)
  {
    ReadOne(Read(m, a), b);
    assert [a, b][1..] == [b];
  }
}
