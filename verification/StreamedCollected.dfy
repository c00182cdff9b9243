/**
 The Anthropic endpoint answers the same whether it streams the events of a
 response or collects them first, up to empty blocks and up to listing tool calls
 after the content.
 */
module StreamedCollected {
  import opened Wrappers
  import opened Unified
  import opened AnthropicWire
  import opened AnthropicEndpoint
  import opened AnthropicMeaning

  // ------------------------------------------------------------------
  // The streamed message as a list of blocks
  // ------------------------------------------------------------------

  /** The blocks of a message in the order they were opened. */
  function Listing(m: Message): seq<Block> {
    seq(|m.order|, j requires 0 <= j < |m.order| => if m.order[j] in m.blocks then m.blocks[m.order[j]] else TextBlock(""))
  }

  /** What a block of text or thinking shows: nothing when it is empty. */
  function ShownContent(b: Block): seq<Block> {
    match b
    case TextBlock(text) => if text == "" then [] else [b]
    case ThinkingBlock(thinking, signature) => if thinking == "" && signature == "" then [] else [b]
    case _ => []
  }

  /** What a tool block shows: its input, or {} when none was streamed. */
  function ShownCall(b: Block): seq<Block> {
    match b
    case ToolUseBlock(id, name, input) => [ToolUseBlock(id, name, if input == "" then "{}" else input)]
    case _ => []
  }

  function Contents(bs: seq<Block>): seq<Block> {
    if bs == [] then [] else Contents(bs[..|bs| - 1]) + ShownContent(bs[|bs| - 1])
  }

  function Calls(bs: seq<Block>): seq<Block> {
    if bs == [] then [] else Calls(bs[..|bs| - 1]) + ShownCall(bs[|bs| - 1])
  }

  lemma Last(bs: seq<Block>, b: Block)
    ensures Contents(bs + [b]) == Contents(bs) + ShownContent(b)
    ensures Calls(bs + [b]) == Calls(bs) + ShownCall(b)
  {
    assert (bs + [b])[..|bs + [b]| - 1] == bs;
  }

  // ------------------------------------------------------------------
  // Streams the statement is about
  // ------------------------------------------------------------------

  predicate NoneOpen(m: Message) {
    forall i | i in m.blocks :: i in m.closed
  }

  function KindAt(g: Gathering, index: int): Option<Kind> {
    if index in g.kinds then Some(g.kinds[index]) else None
  }

  /**
   ev may come next in a stream of blocks one after the other, each with its own
   index and kind, in which a tool call is announced, given arguments and done.
   */
  predicate InSequence(g: Gathering, m: Message, ev: Event) {
    match ev
    case BlockStart(index, kind, _, _) => index !in m.blocks && NoneOpen(m) && KindAt(g, index).None?
    case TextDelta(index, _) =>
      if index in m.blocks then IsOpen(m, index) && m.blocks[index].TextBlock? && KindAt(g, index) == Some(TextKind)
      else NoneOpen(m) && KindAt(g, index).None?
    case ReasoningDelta(index, _, _) =>
      if index in m.blocks then IsOpen(m, index) && m.blocks[index].ThinkingBlock?
      else NoneOpen(m) && KindAt(g, index).None?
    case RefusalDelta(index, _) => KindAt(g, index) == Some(RefusalKind) || (KindAt(g, index).None? && index !in m.blocks)
    case ToolStart(index, id, name) =>
      index !in g.toolIndexes
      && if index in m.blocks then IsOpen(m, index) && m.blocks[index] == ToolUseBlock(id, name, "")
         else NoneOpen(m) && KindAt(g, index).None?
    case ToolArgs(index, _, _) => IsOpen(m, index) && m.blocks[index].ToolUseBlock? && index in g.toolIndexes
    case ToolDone(index, _, _, _) => IsOpen(m, index) && m.blocks[index].ToolUseBlock? && index in g.toolIndexes
    case BlockDone(index, _) => IsOpen(m, index) ==> !m.blocks[index].ToolUseBlock?
    case Completed(reason, _) => reason != NoReason && m.stop.None?
    case ErrorEvent(error) => error.None?
    case _ => true
  }

  predicate AllInSequence(g: Gathering, m: Message, evs: seq<Event>)
    decreases |evs|
  {
    evs == [] || (InSequence(g, m, evs[0]) && AllInSequence(Gather(g, evs[0]), Understand(m, evs[0]), evs[1..]))
  }

  /**
   A done call says nothing against what was streamed of it: id and name as announced
   or left out, and arguments left out, as streamed, or given when none were streamed.
   */
  predicate Confirms(b: Block, id: string, name: string, args: string)
    requires b.ToolUseBlock?
  {
    (id == "" || id == b.id) && (name == "" || name == b.name) && (args == "" || b.input == "" || args == b.input)
  }

  predicate ConfirmsAt(m: Message, ev: Event) {
    ev.ToolDone? && ev.index in m.blocks && m.blocks[ev.index].ToolUseBlock? ==>
      Confirms(m.blocks[ev.index], ev.id, ev.name, ev.args)
  }

  predicate AllConfirmed(m: Message, evs: seq<Event>)
    decreases |evs|
  {
    evs == [] || (ConfirmsAt(m, evs[0]) && AllConfirmed(Understand(m, evs[0]), evs[1..]))
  }

  // ------------------------------------------------------------------
  // Collected and streamed, side by side
  // ------------------------------------------------------------------

  function LastIndex(m: Message): int
    requires |m.order| > 0
  {
    m.order[|m.order| - 1]
  }

  /** The blocks opened are listed, and the last of them is listed nowhere else. */
  ghost predicate Listed(m: Message) {
    && (forall k | 0 <= k < |m.order| :: m.order[k] in m.blocks)
    && (forall k | 0 <= k < |m.order| - 1 :: m.order[k] != LastIndex(m))
  }

  /** What the collector keeps for an index, whatever its block holds. */
  ghost predicate TidyAt(g: Gathering, m: Message, i: int) {
    && (i !in g.kinds ==> i !in g.texts && i !in g.reasoning && i !in g.signatures && i !in g.refusals)
    && (!IsOpen(m, i) ==> KindAt(g, i) != Some(TextKind) && KindAt(g, i) != Some(ReasoningKind))
    && (i !in m.blocks ==> i !in g.toolIndexes && (KindAt(g, i).None? || KindAt(g, i) == Some(RefusalKind)))
    && (IsOpen(m, i) && !m.blocks[i].ToolUseBlock? ==> i !in g.toolIndexes)
    && (i in m.closed ==> i in m.blocks)
    && (IsOpen(m, i) ==> |m.order| > 0 && LastIndex(m) == i)
  }

  /** The collector holds in its buffers what the open block shows. */
  ghost predicate Held(g: Gathering, i: int, b: Block) {
    match b
    case TextBlock(text) =>
      if KindAt(g, i) == Some(TextKind) then i in g.texts && g.texts[i] == text
      else text == "" && KindAt(g, i).Some? && KindAt(g, i) != Some(ReasoningKind)
    case ThinkingBlock(thinking, signature) =>
      && KindAt(g, i) == Some(ReasoningKind) && i in g.reasoning && i in g.signatures
      && g.reasoning[i] == thinking && g.signatures[i] == signature
    case ToolUseBlock(id, name, input) =>
      && (KindAt(g, i).None? || KindAt(g, i) == Some(ToolCallKind))
      && if i in g.toolIndexes then
           && |g.resp.toolCalls| > 0 && g.toolIndexes[i] == |g.resp.toolCalls| - 1
           && g.resp.toolCalls[|g.resp.toolCalls| - 1] == Call(id, name, "", i)
           && Get(g.toolArgs, i) == input
         else input == ""
    case OtherBlock(_) => false
  }

  /** The calls collected before block i was opened. */
  function Earlier(g: Gathering, i: int): seq<Call> {
    if i in g.toolIndexes && |g.resp.toolCalls| > 0 then g.resp.toolCalls[..|g.resp.toolCalls| - 1] else g.resp.toolCalls
  }

  /** The blocks bs were collected, and as many calls, which show the same exactly when ok. */
  predicate Settled(g: Gathering, calls: seq<Call>, bs: seq<Block>, ok: bool) {
    && PartBlocks(g.resp.content) == Contents(bs)
    && |CallBlocks(calls)| == |Calls(bs)| && (CallBlocks(calls) == Calls(bs) <==> ok)
  }

  ghost predicate Balanced(g: Gathering, m: Message, ok: bool) {
    if |m.order| > 0 && IsOpen(m, LastIndex(m)) then
      && Held(g, LastIndex(m), m.blocks[LastIndex(m)])
      && Settled(g, Earlier(g, LastIndex(m)), Listing(m)[..|m.order| - 1], ok)
    else Settled(g, g.resp.toolCalls, Listing(m), ok)
  }

  ghost predicate Agree(g: Gathering, m: Message, ok: bool) {
    && Listed(m)
    && (forall i :: TidyAt(g, m, i))
    && Balanced(g, m, ok)
    && (m.stop.Some? ==> m.stop.value == StopReason(g.resp.finish))
  }

  lemma Opening(m: Message, index: int, b: Block)
    requires Listed(m) && index !in m.blocks
    ensures Listed(Open(m, index, b))
    ensures Listing(Open(m, index, b))[..|m.order|] == Listing(m)
    ensures LastIndex(Open(m, index, b)) == index
  {
    var t := Open(m, index, b);
    forall k | 0 <= k < |m.order| ensures Listing(t)[k] == Listing(m)[k] {
      assert t.order[k] == m.order[k] && m.order[k] in m.blocks;
    }
  }

  lemma Changing(m: Message, index: int, b: Block)
    requires Listed(m) && |m.order| > 0 && LastIndex(m) == index
    ensures Listed(Set(m, index, b))
    ensures Listing(Set(m, index, b))[..|m.order| - 1] == Listing(m)[..|m.order| - 1]
  {
    var t := Set(m, index, b);
    forall k | 0 <= k < |m.order| - 1 ensures Listing(t)[k] == Listing(m)[k] {
      assert m.order[k] != index;
    }
  }

  lemma Closing(m: Message, index: int)
    requires Listed(m) && |m.order| > 0 && LastIndex(m) == index
    ensures Listed(Close(m, index)) && index in m.blocks
    ensures Listing(Close(m, index)) == Listing(m) == Listing(m)[..|m.order| - 1] + [m.blocks[index]]
  {
  }

  /** The collector keeps what it has for index i. */
  ghost predicate KeptAt(g: Gathering, g1: Gathering, i: int) {
    && KindAt(g1, i) == KindAt(g, i)
    && (i in g1.texts <==> i in g.texts) && (i in g1.reasoning <==> i in g.reasoning)
    && (i in g1.signatures <==> i in g.signatures) && (i in g1.refusals <==> i in g.refusals)
    && (i in g1.toolIndexes <==> i in g.toolIndexes)
  }

  ghost predicate KeptBut(g: Gathering, g1: Gathering, index: int) {
    forall i | i != index :: KeptAt(g, g1, i)
  }

  ghost predicate SameBlock(m: Message, m1: Message, i: int) {
    && (i in m1.closed <==> i in m.closed)
    && (i in m1.blocks <==> i in m.blocks)
    && (i in m.blocks ==> m1.blocks[i].ToolUseBlock? == m.blocks[i].ToolUseBlock?)
  }

  lemma StillTidy(g: Gathering, m: Message, g1: Gathering, m1: Message, i: int)
    requires TidyAt(g, m, i) && KeptAt(g, g1, i) && SameBlock(m, m1, i)
    requires IsOpen(m, i) ==> m1.order == m.order
    ensures TidyAt(g1, m1, i)
  {
  }

  lemma TidyBut(g: Gathering, m: Message, g1: Gathering, m1: Message, index: int)
    requires forall i :: TidyAt(g, m, i)
    requires KeptBut(g, g1, index)
    requires forall i | i != index :: SameBlock(m, m1, i)
    requires m1.order == m.order || NoneOpen(m)
    requires TidyAt(g1, m1, index)
    ensures forall i :: TidyAt(g1, m1, i)
  {
    forall i ensures TidyAt(g1, m1, i) {
      if i != index {
        assert TidyAt(g, m, i) && KeptAt(g, g1, i) && SameBlock(m, m1, i);
        StillTidy(g, m, g1, m1, i);
      }
    }
  }

  /** Blocks other than the one opened, set or closed are the same. */
  lemma OtherBlocks(m: Message, index: int, b: Block)
    ensures forall i | i != index :: SameBlock(m, Open(m, index, b), i)
    ensures forall i | i != index :: SameBlock(m, Set(m, index, b), i)
    ensures forall i | i != index :: SameBlock(m, Close(m, index), i)
    ensures forall i | i != index :: SameBlock(m, Close(Set(m, index, b), index), i)
    ensures forall i :: SameBlock(m, m, i)
  {
  }

  lemma StartKeeps(g: Gathering, index: int, kind: Kind)
    ensures KeptBut(g, OpenBlock(g, index, kind), index)
  {
    var g1 := OpenBlock(g, index, kind);
    forall i | i != index ensures KeptAt(g, g1, i) {
    }
  }

  lemma TextKeeps(g: Gathering, index: int, text: string)
    ensures KeptBut(g, AddText(g, index, text), index)
  {
    forall i | i != index ensures KeptAt(g, AddText(g, index, text), i) {
    }
  }

  lemma ReasoningKeeps(g: Gathering, index: int, text: string, signature: string)
    ensures KeptBut(g, AddReasoning(g, index, text, signature), index)
  {
    forall i | i != index ensures KeptAt(g, AddReasoning(g, index, text, signature), i) {
    }
  }

  lemma RefusalKeeps(g: Gathering, index: int, text: string)
    ensures KeptBut(g, AddRefusal(g, index, text), index)
  {
    forall i | i != index ensures KeptAt(g, AddRefusal(g, index, text), i) {
    }
  }

  lemma FlushKeeps(g: Gathering, index: int)
    ensures KeptBut(g, FlushBlock(g, index), index)
  {
    var g1 := FlushBlock(g, index);
    forall i | i != index ensures KeptAt(g, g1, i) {
    }
  }

  lemma ToolKeeps(g: Gathering, index: int, id: string, name: string, args: string)
    ensures KeptBut(g, Gather(g, ToolStart(index, id, name)), index)
    ensures KeptBut(g, Gather(g, ToolArgs(index, id, args)), index)
    ensures KeptBut(g, FinishTool(g, index, id, name, args), index)
  {
    forall i | i != index ensures KeptAt(g, Gather(g, ToolStart(index, id, name)), i) {
    }
  }

  /** A block opened while no other is. */
  lemma OpeningAgrees(g: Gathering, m: Message, g1: Gathering, index: int, b: Block, ok: bool)
    requires Agree(g, m, ok) && NoneOpen(m) && index !in m.blocks
    requires g1.resp.content == g.resp.content && g1.resp.finish == g.resp.finish
    requires Earlier(g1, index) == g.resp.toolCalls
    requires KeptBut(g, g1, index)
    requires TidyAt(g1, Open(m, index, b), index) && Held(g1, index, b)
    ensures Agree(g1, Open(m, index, b), ok)
  {
    var m1 := Open(m, index, b);
    Opening(m, index, b);
    OtherBlocks(m, index, b);
    TidyBut(g, m, g1, m1, index);
    assert TidyAt(g, m, index);
    assert Balanced(g, m, ok);
    assert Balanced(g1, m1, ok);
  }

  /** The open block grows. */
  lemma GrowingAgrees(g: Gathering, m: Message, g1: Gathering, index: int, b: Block, ok: bool)
    requires Agree(g, m, ok) && IsOpen(m, index)
    requires g1.resp.content == g.resp.content && g1.resp.finish == g.resp.finish
    requires Earlier(g1, index) == Earlier(g, index)
    requires KeptBut(g, g1, index)
    requires TidyAt(g1, Set(m, index, b), index) && Held(g1, index, b)
    ensures Agree(g1, Set(m, index, b), ok)
  {
    var m1 := Set(m, index, b);
    assert TidyAt(g, m, index);
    Changing(m, index, b);
    OtherBlocks(m, index, b);
    TidyBut(g, m, g1, m1, index);
    assert Balanced(g, m, ok);
    assert Balanced(g1, m1, ok);
  }

  // ------------------------------------------------------------------
  // One event
  // ------------------------------------------------------------------

  lemma StartAgrees(g: Gathering, m: Message, index: int, kind: Kind, id: string, name: string, ok: bool)
    requires Agree(g, m, ok) && InSequence(g, m, BlockStart(index, kind, id, name))
    ensures Agree(OpenBlock(g, index, kind), Ensure(m, index, kind, id, name), ok)
  {
    var b := EmptyBlock(kind, id, name);
    assert TidyAt(g, m, index);
    StartKeeps(g, index, kind);
    OpeningAgrees(g, m, OpenBlock(g, index, kind), index, b, ok);
  }

  lemma TextGrows(g: Gathering, m: Message, index: int, text: string, ok: bool)
    requires Agree(g, m, ok) && IsOpen(m, index) && m.blocks[index].TextBlock? && KindAt(g, index) == Some(TextKind)
    ensures Agree(AddText(g, index, text), Set(m, index, TextBlock(m.blocks[index].text + text)), ok)
  {
    TextKeeps(g, index, text);
    assert TidyAt(g, m, index);
    assert Balanced(g, m, ok);
    GrowingAgrees(g, m, AddText(g, index, text), index, TextBlock(m.blocks[index].text + text), ok);
  }

  lemma TextOpens(g: Gathering, m: Message, index: int, text: string, ok: bool)
    requires Agree(g, m, ok) && NoneOpen(m) && index !in m.blocks && KindAt(g, index).None?
    ensures Agree(AddText(g, index, text), Open(m, index, TextBlock("" + text)), ok)
  {
    TextKeeps(g, index, text);
    assert TidyAt(g, m, index);
    OpeningAgrees(g, m, AddText(g, index, text), index, TextBlock("" + text), ok);
  }

  lemma TextIsSetting(m: Message, index: int, text: string)
    ensures IsOpen(m, index) && m.blocks[index].TextBlock? ==>
      Understand(m, TextDelta(index, text)) == Set(m, index, TextBlock(m.blocks[index].text + text))
    ensures index !in m.blocks ==> Understand(m, TextDelta(index, text)) == Open(m, index, TextBlock("" + text))
  {
    if index !in m.blocks {
      SetTwice(m, index, TextBlock(""), TextBlock("" + text));
    }
  }

  lemma TextAgrees(g: Gathering, m: Message, index: int, text: string, ok: bool)
    requires Agree(g, m, ok) && InSequence(g, m, TextDelta(index, text))
    ensures Agree(AddText(g, index, text), Understand(m, TextDelta(index, text)), ok)
  {
    TextIsSetting(m, index, text);
    if index in m.blocks {
      TextGrows(g, m, index, text, ok);
    } else {
      TextOpens(g, m, index, text, ok);
    }
  }

  lemma ReasoningGrows(g: Gathering, m: Message, index: int, text: string, signature: string, ok: bool)
    requires Agree(g, m, ok) && IsOpen(m, index) && m.blocks[index].ThinkingBlock?
    ensures
      var b := ThinkingBlock(m.blocks[index].thinking + text, m.blocks[index].signature + signature);
      Agree(AddReasoning(g, index, text, signature), Set(m, index, b), ok)
  {
    var b := ThinkingBlock(m.blocks[index].thinking + text, m.blocks[index].signature + signature);
    ReasoningKeeps(g, index, text, signature);
    assert TidyAt(g, m, index);
    Changing(m, index, b);
    assert Balanced(g, m, ok);
    GrowingAgrees(g, m, AddReasoning(g, index, text, signature), index, b, ok);
  }

  lemma ReasoningOpens(g: Gathering, m: Message, index: int, text: string, signature: string, ok: bool)
    requires Agree(g, m, ok) && NoneOpen(m) && index !in m.blocks && KindAt(g, index).None?
    ensures Agree(AddReasoning(g, index, text, signature), Open(m, index, ThinkingBlock("" + text, "" + signature)), ok)
  {
    var b := ThinkingBlock("" + text, "" + signature);
    ReasoningKeeps(g, index, text, signature);
    assert TidyAt(g, m, index);
    Opening(m, index, b);
    OpeningAgrees(g, m, AddReasoning(g, index, text, signature), index, b, ok);
  }

  lemma ThinkingIsSetting(m: Message, index: int, text: string, signature: string)
    ensures IsOpen(m, index) && m.blocks[index].ThinkingBlock? ==>
      Understand(m, ReasoningDelta(index, text, signature))
      == Set(m, index, ThinkingBlock(m.blocks[index].thinking + text, m.blocks[index].signature + signature))
    ensures index !in m.blocks ==>
      Understand(m, ReasoningDelta(index, text, signature))
      == Open(m, index, ThinkingBlock("" + text, "" + signature))
  {
    if IsOpen(m, index) && m.blocks[index].ThinkingBlock? {
      var was := m.blocks[index];
      SetTwice(m, index, ThinkingBlock(was.thinking + text, was.signature),
               ThinkingBlock(was.thinking + text, was.signature + signature));
    } else if index !in m.blocks {
      SetTwice(m, index, ThinkingBlock("", ""), ThinkingBlock("" + text, ""));
      SetTwice(m, index, ThinkingBlock("" + text, ""), ThinkingBlock("" + text, "" + signature));
    }
  }

  lemma ReasoningAgrees(g: Gathering, m: Message, index: int, text: string, signature: string, ok: bool)
    requires Agree(g, m, ok) && InSequence(g, m, ReasoningDelta(index, text, signature))
    ensures Agree(AddReasoning(g, index, text, signature), Understand(m, ReasoningDelta(index, text, signature)), ok)
  {
    ThinkingIsSetting(m, index, text, signature);
    if index in m.blocks {
      ReasoningGrows(g, m, index, text, signature, ok);
    } else {
      ReasoningOpens(g, m, index, text, signature, ok);
    }
  }

  /** A refusal is held apart from what blocks show. */
  lemma RefusalHeldApart(g: Gathering, m: Message, index: int, text: string, i: int, b: Block)
    requires Held(g, i, b) && (i == index ==> KindAt(g, index) == Some(RefusalKind))
    ensures Held(AddRefusal(g, index, text), i, b) && Earlier(AddRefusal(g, index, text), i) == Earlier(g, i)
  {
  }

  lemma RefusalAgrees(g: Gathering, m: Message, index: int, text: string, ok: bool)
    requires Agree(g, m, ok) && InSequence(g, m, RefusalDelta(index, text))
    ensures Agree(AddRefusal(g, index, text), m, ok)
  {
    var g1 := AddRefusal(g, index, text);
    assert TidyAt(g, m, index);
    assert TidyAt(g1, m, index);
    RefusalKeeps(g, index, text);
    OtherBlocks(m, index, TextBlock(""));
    TidyBut(g, m, g1, m, index);
    assert Balanced(g, m, ok);
    if |m.order| > 0 && IsOpen(m, LastIndex(m)) {
      RefusalHeldApart(g, m, index, text, LastIndex(m), m.blocks[LastIndex(m)]);
    }
    assert Balanced(g1, m, ok);
  }

  lemma OneMoreCall(calls: seq<Call>, c: Call)
    ensures (calls + [c])[..|calls + [c]| - 1] == calls
  {
  }

  /** A call is announced in the tool block that is already open. */
  lemma AnnounceInOpen(g: Gathering, m: Message, index: int, id: string, name: string, ok: bool)
    requires Agree(g, m, ok) && index !in g.toolIndexes && IsOpen(m, index) && m.blocks[index] == ToolUseBlock(id, name, "")
    ensures Agree(Gather(g, ToolStart(index, id, name)), m, ok)
  {
    var g1 := Gather(g, ToolStart(index, id, name));
    ToolKeeps(g, index, id, name, "");
    assert TidyAt(g, m, index);
    OneMoreCall(g.resp.toolCalls, Call(id, name, "", index));
    Changing(m, index, m.blocks[index]);
    assert Balanced(g, m, ok);
    SetSame(m, index);
    GrowingAgrees(g, m, g1, index, m.blocks[index], ok);
  }

  lemma AnnounceAndOpen(g: Gathering, m: Message, index: int, id: string, name: string, ok: bool)
    requires Agree(g, m, ok) && NoneOpen(m) && index !in m.blocks && KindAt(g, index).None?
    ensures Agree(Gather(g, ToolStart(index, id, name)), Open(m, index, ToolUseBlock(id, name, "")), ok)
  {
    var g1 := Gather(g, ToolStart(index, id, name));
    var b := ToolUseBlock(id, name, "");
    ToolKeeps(g, index, id, name, "");
    assert TidyAt(g, m, index);
    OneMoreCall(g.resp.toolCalls, Call(id, name, "", index));
    Opening(m, index, b);
    OpeningAgrees(g, m, g1, index, b, ok);
  }

  lemma ToolStartAgrees(g: Gathering, m: Message, index: int, id: string, name: string, ok: bool)
    requires Agree(g, m, ok) && InSequence(g, m, ToolStart(index, id, name))
    ensures Agree(Gather(g, ToolStart(index, id, name)), Understand(m, ToolStart(index, id, name)), ok)
  {
    if index in m.blocks {
      assert Understand(m, ToolStart(index, id, name)) == m;
      AnnounceInOpen(g, m, index, id, name, ok);
    } else {
      assert Understand(m, ToolStart(index, id, name)) == Open(m, index, ToolUseBlock(id, name, ""));
      AnnounceAndOpen(g, m, index, id, name, ok);
    }
  }

  lemma ToolArgsAgrees(g: Gathering, m: Message, index: int, id: string, delta: string, ok: bool)
    requires Agree(g, m, ok) && InSequence(g, m, ToolArgs(index, id, delta))
    ensures Agree(Gather(g, ToolArgs(index, id, delta)), Understand(m, ToolArgs(index, id, delta)), ok)
  {
    var g1 := Gather(g, ToolArgs(index, id, delta));
    ToolKeeps(g, index, id, "", delta);
    var b := Extended(m.blocks[index], InputPiece(delta));
    assert TidyAt(g, m, index);
    Changing(m, index, b);
    GrowingAgrees(g, m, g1, index, b, ok);
  }

  lemma PartsOfOne(p: Part)
    ensures PartBlocks([p]) == ContentBlock(p)
  {
    assert [p][1..] == [];
    assert ContentBlock(p) + [] == ContentBlock(p);
  }

  /** Closing a block leaves in the content what the block showed. */
  lemma FlushedIsShown(g: Gathering, i: int, b: Block)
    requires Held(g, i, b)
    ensures PartBlocks(PartOf(g, i)) == ShownContent(b)
  {
    var p := PartOf(g, i);
    if |p| == 1 {
      PartsOfOne(p[0]);
    }
  }

  lemma QuietFlush(g: Gathering, i: int)
    requires KindAt(g, i) != Some(TextKind) && KindAt(g, i) != Some(ReasoningKind)
    ensures PartBlocks(PartOf(g, i)) == []
  {
    var p := PartOf(g, i);
    if |p| == 1 {
      PartsOfOne(p[0]);
    }
  }

  lemma QuietHeldApart(g: Gathering, index: int, i: int, b: Block)
    requires i != index && Held(g, i, b)
    ensures Held(FlushBlock(g, index), i, b)
  {
  }

  lemma QuietSettles(g: Gathering, index: int, calls: seq<Call>, bs: seq<Block>, ok: bool)
    requires KindAt(g, index) != Some(TextKind) && KindAt(g, index) != Some(ReasoningKind) && Settled(g, calls, bs, ok)
    ensures Settled(FlushBlock(g, index), calls, bs, ok)
  {
    QuietFlush(g, index);
    PartBlocksConcat(g.resp.content, PartOf(g, index));
    assert PartBlocks(g.resp.content) + [] == PartBlocks(g.resp.content);
  }

  /** Where nothing is pending a flush changes no block. */
  lemma QuietAgrees(g: Gathering, m: Message, index: int, ok: bool)
    requires Agree(g, m, ok) && !IsOpen(m, index)
    ensures Agree(FlushBlock(g, index), m, ok)
  {
    var g1 := FlushBlock(g, index);
    FlushKeeps(g, index);
    assert TidyAt(g, m, index);
    assert TidyAt(g1, m, index);
    OtherBlocks(m, index, TextBlock(""));
    TidyBut(g, m, g1, m, index);
    assert Balanced(g, m, ok);
    if |m.order| > 0 && IsOpen(m, LastIndex(m)) {
      QuietHeldApart(g, index, LastIndex(m), m.blocks[LastIndex(m)]);
      QuietSettles(g, index, Earlier(g, LastIndex(m)), Listing(m)[..|m.order| - 1], ok);
    } else {
      QuietSettles(g, index, g.resp.toolCalls, Listing(m), ok);
    }
    assert Balanced(g1, m, ok);
  }

  lemma DoneAgrees(g: Gathering, m: Message, index: int, ok: bool)
    requires Agree(g, m, ok) && (IsOpen(m, index) ==> !m.blocks[index].ToolUseBlock?)
    ensures Agree(FlushBlock(g, index), CloseIfOpen(m, index), ok)
  {
    if IsOpen(m, index) {
      var g1, m1 := FlushBlock(g, index), Close(m, index);
      var b := m.blocks[index];
      assert TidyAt(g, m, index);
      Closing(m, index);
      assert Balanced(g, m, ok);
      FlushedIsShown(g, index, b);
      PartBlocksConcat(g.resp.content, PartOf(g, index));
      Last(Listing(m)[..|m.order| - 1], b);
      assert Calls(Listing(m)[..|m.order| - 1]) + [] == Calls(Listing(m)[..|m.order| - 1]);
      FlushKeeps(g, index);
      OtherBlocks(m, index, b);
      TidyBut(g, m, g1, m1, index);
      assert Settled(g1, g1.resp.toolCalls, Listing(m1), ok);
    } else {
      QuietAgrees(g, m, index, ok);
    }
  }

  lemma CallsOfOne(calls: seq<Call>, c: Call)
    ensures CallBlocks(calls + [c]) == CallBlocks(calls) + [CallBlock(c)]
  {
    CallBlocksConcat(calls, [c]);
    assert [c][1..] == [];
    assert [CallBlock(c)] + [] == [CallBlock(c)];
  }

  lemma LastReplaced(calls: seq<Call>, c: Call)
    requires |calls| > 0
    ensures calls[|calls| - 1 := c] == calls[..|calls| - 1] + [c]
  {
  }

  /** What a done call is collected as. */
  function Finished(b: Block, index: int, id: string, name: string, args: string): Call
    requires b.ToolUseBlock?
  {
    Call(FirstNonEmpty(id, b.id), FirstNonEmpty(name, b.name), if args == "" then b.input else args, index)
  }

  /** A done call is the last one collected. */
  lemma FinishedIsLast(g: Gathering, index: int, b: Block, id: string, name: string, args: string)
    requires Held(g, index, b) && b.ToolUseBlock? && index in g.toolIndexes
    ensures FinishTool(g, index, id, name, args).resp.toolCalls == Earlier(g, index) + [Finished(b, index, id, name, args)]
  {
    LastReplaced(g.resp.toolCalls, Finished(b, index, id, name, args));
  }

  /** It shows as its streamed block, filled if it was empty, exactly when it confirms it. */
  lemma FinishedShowsIff(b: Block, index: int, id: string, name: string, args: string)
    requires b.ToolUseBlock?
    ensures
      var filled := b.(input := if b.input == "" then args else b.input);
      [CallBlock(Finished(b, index, id, name, args))] == ShownCall(filled) <==> Confirms(b, id, name, args)
  {
    var filled := b.(input := if b.input == "" then args else b.input);
    assert ShownCall(filled) == [ToolUseBlock(b.id, b.name, if filled.input == "" then "{}" else filled.input)];
    assert [CallBlock(Finished(b, index, id, name, args))][0] == CallBlock(Finished(b, index, id, name, args));
  }

  /** A call after the earlier ones shows as its block after the earlier blocks. */
  lemma CallSettled(g: Gathering, g1: Gathering, calls: seq<Call>, front: seq<Block>, c: Call, b: Block, ok: bool)
    requires b.ToolUseBlock? && Settled(g, calls, front, ok) && g1.resp.content == g.resp.content
    ensures Settled(g1, calls + [c], front + [b], ok && [CallBlock(c)] == ShownCall(b))
  {
    CallsOfOne(calls, c);
    Last(front, b);
    assert Contents(front) + [] == Contents(front);
    SameFrontAndLast(CallBlocks(calls), CallBlock(c), Calls(front), ShownCall(b)[0]);
  }

  lemma FilledLast(m: Message, index: int, b: Block)
    requires Listed(m) && |m.order| > 0 && LastIndex(m) == index
    ensures Listed(Close(Set(m, index, b), index))
    ensures Listing(Close(Set(m, index, b), index)) == Listing(m)[..|m.order| - 1] + [b]
  {
    Changing(m, index, b);
    Closing(Set(m, index, b), index);
  }

  /** A call is done and its block, filled if it was empty, closed. */
  lemma DoneIsSettled(g: Gathering, m: Message, index: int, id: string, name: string, args: string, filled: Block, ok: bool)
    requires Agree(g, m, ok) && InSequence(g, m, ToolDone(index, id, name, args))
    requires filled == m.blocks[index].(input := if m.blocks[index].input == "" then args else m.blocks[index].input)
    ensures
      var g1 := FinishTool(g, index, id, name, args);
      Settled(g1, g1.resp.toolCalls, Listing(Close(Set(m, index, filled), index)),
              ok && Confirms(m.blocks[index], id, name, args))
  {
    assert TidyAt(g, m, index);
    FilledLast(m, index, filled);
    assert Balanced(g, m, ok);
    var b := m.blocks[index];
    FinishedIsLast(g, index, b, id, name, args);
    FinishedShowsIff(b, index, id, name, args);
    CallSettled(g, FinishTool(g, index, id, name, args), Earlier(g, index), Listing(m)[..|m.order| - 1],
                Finished(b, index, id, name, args), filled, ok);
  }

  lemma DoneIsTidy(g: Gathering, m: Message, index: int, id: string, name: string, args: string, b: Block, ok: bool)
    requires Agree(g, m, ok) && InSequence(g, m, ToolDone(index, id, name, args)) && b.ToolUseBlock?
    ensures forall i :: TidyAt(FinishTool(g, index, id, name, args), Close(Set(m, index, b), index), i)
  {
    assert TidyAt(g, m, index);
    Changing(m, index, b);
    assert Balanced(g, m, ok);
    ToolKeeps(g, index, id, name, args);
    OtherBlocks(m, index, b);
    TidyBut(g, m, FinishTool(g, index, id, name, args), Close(Set(m, index, b), index), index);
  }

  lemma FillingIsSetting(m: Message, index: int, id: string, name: string, args: string)
    requires IsOpen(m, index) && m.blocks[index].ToolUseBlock?
    ensures
      var b := m.blocks[index];
      Understand(m, ToolDone(index, id, name, args))
      == Close(Set(m, index, b.(input := if b.input == "" then args else b.input)), index)
  {
    SetSame(m, index);
    assert "" + args == args;
  }

  lemma ToolDoneAgrees(g: Gathering, m: Message, index: int, id: string, name: string, args: string, ok: bool)
    requires Agree(g, m, ok) && InSequence(g, m, ToolDone(index, id, name, args))
    ensures Agree(FinishTool(g, index, id, name, args), Understand(m, ToolDone(index, id, name, args)),
                  ok && Confirms(m.blocks[index], id, name, args))
  {
    var b := m.blocks[index];
    FillingIsSetting(m, index, id, name, args);
    var filled := b.(input := if b.input == "" then args else b.input);
    assert TidyAt(g, m, index);
    FilledLast(m, index, filled);
    DoneIsSettled(g, m, index, id, name, args, filled, ok);
    DoneIsTidy(g, m, index, id, name, args, filled, ok);
    assert Balanced(FinishTool(g, index, id, name, args), Close(Set(m, index, filled), index),
                    ok && Confirms(b, id, name, args));
  }

  lemma TidyAside(g: Gathering, m: Message, g1: Gathering, m1: Message)
    requires forall i :: TidyAt(g, m, i)
    requires g1 == g.(resp := g1.resp)
    requires m1.blocks == m.blocks && m1.order == m.order && m1.closed == m.closed
    ensures forall i :: TidyAt(g1, m1, i)
  {
    forall i ensures TidyAt(g1, m1, i) {
      assert TidyAt(g, m, i);
    }
  }

  lemma HeldAside(g: Gathering, g1: Gathering, i: int, b: Block)
    requires Held(g, i, b)
    requires g1 == g.(resp := g1.resp) && g1.resp.toolCalls == g.resp.toolCalls
    ensures Held(g1, i, b) && Earlier(g1, i) == Earlier(g, i)
  {
  }

  /** Events that touch neither blocks nor calls. */
  lemma AsideAgrees(g: Gathering, m: Message, g1: Gathering, m1: Message, ok: bool)
    requires Agree(g, m, ok)
    requires g1 == g.(resp := g1.resp) && g1.resp.content == g.resp.content && g1.resp.toolCalls == g.resp.toolCalls
    requires m1.blocks == m.blocks && m1.order == m.order && m1.closed == m.closed
    requires m1.stop.Some? ==> m1.stop.value == StopReason(g1.resp.finish)
    ensures Agree(g1, m1, ok)
  {
    TidyAside(g, m, g1, m1);
    assert Listing(m1) == Listing(m);
    assert Balanced(g, m, ok);
    if |m.order| > 0 && IsOpen(m, LastIndex(m)) {
      HeldAside(g, g1, LastIndex(m), m.blocks[LastIndex(m)]);
    }
    assert Balanced(g1, m1, ok);
  }

  predicate IsAside(ev: Event) {
    !(ev.BlockStart? || ev.BlockDone? || ev.TextDelta? || ev.ReasoningDelta? || ev.RefusalDelta?
      || ev.ToolStart? || ev.ToolArgs? || ev.ToolDone?)
  }

  lemma RestAgrees(g: Gathering, m: Message, ev: Event, ok: bool)
    requires Agree(g, m, ok) && InSequence(g, m, ev) && IsAside(ev)
    ensures Agree(Gather(g, ev), Understand(m, ev), ok)
  {
    AsideAgrees(g, m, Gather(g, ev), Understand(m, ev), ok);
  }

  /** One event keeps the two answers together, their calls as far as it confirms what was streamed. */
  lemma EventAgrees(g: Gathering, m: Message, ev: Event, ok: bool)
    requires Agree(g, m, ok) && InSequence(g, m, ev)
    ensures Agree(Gather(g, ev), Understand(m, ev), ok && ConfirmsAt(m, ev)) && MayHappen(m, ev) && !IsError(ev)
  {
    match ev
    case BlockStart(index, kind, id, name) => StartAgrees(g, m, index, kind, id, name, ok);
    case TextDelta(index, text) => TextAgrees(g, m, index, text, ok);
    case ReasoningDelta(index, text, signature) => ReasoningAgrees(g, m, index, text, signature, ok);
    case RefusalDelta(index, text) => RefusalAgrees(g, m, index, text, ok);
    case ToolStart(index, id, name) => ToolStartAgrees(g, m, index, id, name, ok);
    case ToolArgs(index, id, delta) => ToolArgsAgrees(g, m, index, id, delta, ok);
    case ToolDone(index, id, name, args) => ToolDoneAgrees(g, m, index, id, name, args, ok);
    case BlockDone(index, _) => DoneAgrees(g, m, index, ok);
    case _ => RestAgrees(g, m, ev, ok);
  }

  lemma {:induction false} AllAgree(g: Gathering, m: Message, evs: seq<Event>, ok: bool)
    requires Agree(g, m, ok) && AllInSequence(g, m, evs)
    ensures Agree(GatherAll(g, evs).0, UnderstandAll(m, evs), ok && AllConfirmed(m, evs)) && GatherAll(g, evs).1.None?
    ensures AllMayHappen(m, evs)
    decreases |evs|
  {
    if evs != [] {
      EventAgrees(g, m, evs[0], ok);
      AllAgree(Gather(g, evs[0]), Understand(m, evs[0]), evs[1..], ok && ConfirmsAt(m, evs[0]));
    }
  }

  /** Blocks Collect finds open at its end leave nothing the endpoint shows. */
  lemma {:induction false} LeftoversAgree(g: Gathering, m: Message, order: seq<int>, ok: bool)
    requires Agree(g, m, ok) && NoneOpen(m)
    ensures Agree(FlushAll(g, order), m, ok)
    decreases |order|
  {
    if order != [] {
      QuietAgrees(g, m, order[0], ok);
      LeftoversAgree(FlushBlock(g, order[0]), m, order[1..], ok);
    }
  }

  lemma NothingAgrees()
    ensures Agree(NOTHING_GATHERED, NO_MESSAGE, true)
  {
    forall i ensures TidyAt(NOTHING_GATHERED, NO_MESSAGE, i) {
    }
  }

  // ------------------------------------------------------------------
  // The whole answer
  // ------------------------------------------------------------------

  /**
   Whether the endpoint streams the events or collects them first, the client gets
   the same content blocks, as many tool calls and the same stop reason; and the same
   tool calls if and only if every done call confirms what was streamed of it.
   */
  lemma AnswersAgreeIff(evs: seq<Event>, resp: Response)
    requires AllInSequence(NOTHING_GATHERED, NO_MESSAGE, evs)
    requires NoneOpen(ReadAll(NO_MESSAGE, EncodeAll(NEW_ENCODER, evs).1))
    requires Collected(evs, resp, None)
    ensures
      var m := ReadAll(NO_MESSAGE, EncodeAll(NEW_ENCODER, evs).1);
      && PartBlocks(resp.content) == Contents(Listing(m))
      && |CallBlocks(resp.toolCalls)| == |Calls(Listing(m))|
      && (CallBlocks(resp.toolCalls) == Calls(Listing(m)) <==> AllConfirmed(NO_MESSAGE, evs))
      && (m.stop.Some? ==> m.stop.value == StopReason(resp.finish))
  {
    NothingKnown();
    NothingAgrees();
    AllAgree(NOTHING_GATHERED, NO_MESSAGE, evs, true);
    EncodeAllMeans(NEW_ENCODER, NO_MESSAGE, evs);
    var m := UnderstandAll(NO_MESSAGE, evs);
    var (g, e) := GatherAll(NOTHING_GATHERED, evs);
    var ok := AllConfirmed(NO_MESSAGE, evs);
    var order :| Ranges(order, g.kinds.Keys) && resp == FlushAll(g, order).resp;
    LeftoversAgree(g, m, order, ok);
    assert Balanced(FlushAll(g, order), m, ok);
    if |m.order| > 0 {
      assert LastIndex(m) in m.order;
    }
  }

  /** The collected answer then lists what the streamed blocks show, tool calls last. */
  lemma StreamedAnswerIsTheCollectedOne(evs: seq<Event>, resp: Response)
    requires AllInSequence(NOTHING_GATHERED, NO_MESSAGE, evs) && AllConfirmed(NO_MESSAGE, evs)
    requires NoneOpen(ReadAll(NO_MESSAGE, EncodeAll(NEW_ENCODER, evs).1))
    requires Collected(evs, resp, None)
    ensures
      var m := ReadAll(NO_MESSAGE, EncodeAll(NEW_ENCODER, evs).1);
      && PartBlocks(resp.content) + CallBlocks(resp.toolCalls) == Contents(Listing(m)) + Calls(Listing(m))
      && (m.stop.Some? ==> m.stop.value == StopReason(resp.finish))
  {
    AnswersAgreeIff(evs, resp);
  }

  // ------------------------------------------------------------------
  // Id and model
  // ------------------------------------------------------------------

  /** The id an event gives the message, if it names one. */
  function Naming(ev: Event): Option<string> {
    match ev
    case MessageStart(id, _, _) => Some(id)
    case MessageDone(id, _) => if id != "" then Some(id) else None
    case Completed(_, id) => if id != "" then Some(id) else None
    case _ => None
  }

  /** The id of the last event that names the message. */
  function LastNamed(evs: seq<Event>): string {
    if evs == [] then ""
    else if Naming(evs[|evs| - 1]).Some? then Naming(evs[|evs| - 1]).value
    else LastNamed(evs[..|evs| - 1])
  }

  /** The id and model of the last event that starts a message. */
  function LastStarted(evs: seq<Event>): (string, string) {
    if evs == [] then ("", "")
    else match evs[|evs| - 1]
      case MessageStart(id, model, _) => (id, model)
      case _ => LastStarted(evs[..|evs| - 1])
  }

  lemma FrontAndLast<T>(s: seq<T>)
    requires s != []
    ensures s == s[..|s| - 1] + [s[|s| - 1]]
  {
  }

  lemma NoErrorsBefore(evs: seq<Event>)
    requires evs != [] && NoErrors(evs)
    ensures NoErrors(evs[..|evs| - 1]) && !IsError(evs[|evs| - 1]) && NoErrors([evs[|evs| - 1]])
  {
    assert forall ev | ev in evs[..|evs| - 1] :: ev in evs;
    assert evs[|evs| - 1] in evs;
  }

  /** One event names the collected message. */
  lemma GatherNames(g: Gathering, ev: Event)
    ensures Gather(g, ev).resp.id == if Naming(ev).Some? then Naming(ev).value else g.resp.id
    ensures Gather(g, ev).resp.model == if ev.MessageStart? then ev.model else g.resp.model
  {
  }

  lemma LastNames(evs: seq<Event>)
    requires evs != []
    ensures
      var (front, last) := (evs[..|evs| - 1], evs[|evs| - 1]);
      && LastNamed(evs) == (if Naming(last).Some? then Naming(last).value else LastNamed(front))
      && LastStarted(evs).1 == if last.MessageStart? then last.model else LastStarted(front).1
  {
  }

  lemma GatherFrontAndLast(evs: seq<Event>)
    requires evs != [] && NoErrors(evs) && GatherAll(NOTHING_GATHERED, evs[..|evs| - 1]).1.None?
    ensures
      GatherAll(NOTHING_GATHERED, evs) == (Gather(GatherAll(NOTHING_GATHERED, evs[..|evs| - 1]).0, evs[|evs| - 1]), None)
  {
    FrontAndLast(evs);
    NoErrorsBefore(evs);
    GatherAllConcat(NOTHING_GATHERED, evs[..|evs| - 1], [evs[|evs| - 1]]);
    GatherOne(GatherAll(NOTHING_GATHERED, evs[..|evs| - 1]).0, evs[|evs| - 1]);
  }

  ghost predicate HasIdentity(evs: seq<Event>) {
    var (g, e) := GatherAll(NOTHING_GATHERED, evs);
    e.None? && g.resp.id == LastNamed(evs) && g.resp.model == LastStarted(evs).1
  }

  lemma {:induction false} CollectedIdentity(evs: seq<Event>)
    requires NoErrors(evs)
    ensures HasIdentity(evs)
    decreases |evs|
  {
    if evs != [] {
      NoErrorsBefore(evs);
      CollectedIdentity(evs[..|evs| - 1]);
      GatherFrontAndLast(evs);
      LastNames(evs);
      GatherNames(GatherAll(NOTHING_GATHERED, evs[..|evs| - 1]).0, evs[|evs| - 1]);
    }
  }

  lemma {:induction false} FlushAllKeepsIdentity(g: Gathering, order: seq<int>)
    ensures FlushAll(g, order).resp.id == g.resp.id && FlushAll(g, order).resp.model == g.resp.model
    decreases |order|
  {
    if order != [] {
      FlushAllKeepsIdentity(FlushBlock(g, order[0]), order[1..]);
    }
  }

  /** Frames without a message start leave id and model alone. */
  lemma {:induction false} FramesKeepIdentity(m: Message, ws: seq<Wire>)
    requires forall w | w in ws :: !w.MessageStarts?
    ensures ReadAll(m, ws).id == m.id && ReadAll(m, ws).model == m.model
    decreases |ws|
  {
    if ws != [] {
      assert ws[0] in ws && forall w | w in ws[1..] :: w in ws;
      FramesKeepIdentity(Read(m, ws[0]), ws[1..]);
    }
  }

  lemma {:induction false} StreamedIdentity(evs: seq<Event>)
    requires NoErrors(evs)
    ensures
      var m := ReadAll(NO_MESSAGE, EncodeAll(NEW_ENCODER, evs).1);
      (m.id, m.model) == LastStarted(evs)
    decreases |evs|
  {
    if evs != [] {
      var front, last := evs[..|evs| - 1], evs[|evs| - 1];
      FrontAndLast(evs);
      NoErrorsBefore(evs);
      StreamedIdentity(front);
      EncodeAllConcat(NEW_ENCODER, front, [last]);
      var (e, frames) := EncodeAll(NEW_ENCODER, front);
      var more := EncodeAll(e, [last]).1;
      OneEncoded(e, last);
      ReadAllConcat(NO_MESSAGE, frames, more);
      if last.MessageStart? {
        ReadOne(ReadAll(NO_MESSAGE, frames), MessageStarts(last.id, last.model));
      } else {
        FramesKeepIdentity(ReadAll(NO_MESSAGE, frames), more);
      }
    }
  }

  lemma OneEncoded(e: Encoder, ev: Event)
    requires !IsError(ev)
    ensures EncodeAll(e, [ev]).1 == Encode(e, ev).1
    ensures !ev.MessageStart? ==> forall w | w in Encode(e, ev).1 :: !w.MessageStarts?
  {
    assert [ev][1..] == [];
    assert Encode(e, ev).1 + [] == Encode(e, ev).1;
  }

  /**
   For every stream without errors the two answers name the same model, and the same
   id if and only if the event that names the message last, a completion say, gives it
   the id of the last message start.
   */
  lemma IdsAgreeIff(evs: seq<Event>, resp: Response)
    requires NoErrors(evs) && Collected(evs, resp, None)
    ensures
      var m := ReadAll(NO_MESSAGE, EncodeAll(NEW_ENCODER, evs).1);
      m.model == resp.model && (m.id == resp.id <==> LastNamed(evs) == LastStarted(evs).0)
  {
    CollectedIdentity(evs);
    StreamedIdentity(evs);
    var g := GatherAll(NOTHING_GATHERED, evs).0;
    var order :| Ranges(order, g.kinds.Keys) && resp == FlushAll(g, order).resp;
    FlushAllKeepsIdentity(g, order);
  }
}
