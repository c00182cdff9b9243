/** What a consumer of the Responses decoder can rely on, whatever the server sends. */
module ResponsesProtocol {
  import opened Wrappers
  import opened Unified
  import opened ResponsesWire
  import opened ResponsesDecoder

  /** What the consumer has seen: independent of the decoder's own state. */
  datatype Watch = Watch(
    started: bool,           // the message was started
    completed: bool,
    text: Option<int>,       // the text block that is open
    blocks: set<int>,        // tool blocks opened
    starts: set<int>,        // tool calls started
    dones: set<int>,         // tool calls done
    closed: set<int>)        // tool blocks closed

  const NOTHING_SEEN := Watch(false, false, None, {}, {}, {}, {})

  /** ev may come after what was seen. */
  predicate Allowed(w: Watch, ev: Event) {
    && !w.completed
    && match ev
       case MessageStart(_, _, _) => !w.started
       case BlockStart(index, kind, _, _) =>
         if kind == TextKind then w.started && w.text.None?
         else kind == ToolCallKind && index !in w.blocks && index !in w.dones
       case BlockDone(index, kind) =>
         if kind == TextKind then w.text == Some(index)
         else kind == ToolCallKind && index in w.dones && index !in w.closed
       case TextDelta(_, _) => w.started && w.text.Some?
       case ReasoningDelta(_, _, _) => w.started
       case ToolStart(index, _, _) => index in w.blocks && index !in w.starts && index !in w.dones
       case ToolArgs(_, _, _) => false
       case ToolDone(index, _, _, _) => index !in w.dones
       case MessageDone(_, _) => w.started && w.text.None?
       case Completed(_, _) => w.started && w.text.None?
       case _ => true
  }

  function See(w: Watch, ev: Event): Watch {
    match ev
    case MessageStart(_, _, _) => w.(started := true)
    case BlockStart(index, kind, _, _) =>
      if kind == TextKind then w.(text := Some(index)) else w.(blocks := w.blocks + {index})
    case BlockDone(index, kind) => if kind == TextKind then w.(text := None) else w.(closed := w.closed + {index})
    case ToolStart(index, _, _) => w.(starts := w.starts + {index})
    case ToolDone(index, _, _, _) => w.(dones := w.dones + {index})
    case Completed(_, _) => w.(completed := true)
    case _ => w
  }

  function SeeAll(w: Watch, evs: seq<Event>): Watch
    decreases |evs|
  {
    if evs == [] then w else SeeAll(See(w, evs[0]), evs[1..])
  }

  predicate Obeys(w: Watch, evs: seq<Event>)
    decreases |evs|
  {
    evs == [] || (Allowed(w, evs[0]) && Obeys(See(w, evs[0]), evs[1..]))
  }

  lemma {:induction false} ObeysConcat(w: Watch, a: seq<Event>, b: seq<Event>)
    ensures Obeys(w, a + b) <==> Obeys(w, a) && Obeys(SeeAll(w, a), b)
    ensures SeeAll(w, a + b) == SeeAll(SeeAll(w, a), b)
    decreases |a|
  {
    if a == [] {
      assert a + b == b;
    } else {
      assert (a + b)[1..] == a[1..] + b;
      ObeysConcat(See(w, a[0]), a[1..], b);
    }
  }

  lemma OneEvent(w: Watch, ev: Event)
    ensures Obeys(w, [ev]) == Allowed(w, ev) && SeeAll(w, [ev]) == See(w, ev)
  {
    assert [ev][1..] == [];
  }

  /** The decoder remembers what the consumer has seen. */
  predicate Follows(d: Decoder, w: Watch) {
    && w.started == d.started && !w.completed
    && w.text == (if d.startedBlock then Some(d.blockIndex) else None)
    && w.blocks <= d.startedTools + d.completedTools
    && w.starts == w.blocks
    && w.dones == d.completedTools && w.closed == d.completedTools
  }

  /** A step of the decoder sends events the consumer may see next. */
  predicate Sends(w: Watch, step: (Decoder, seq<Event>)) {
    Obeys(w, step.1) && Follows(step.0, SeeAll(w, step.1))
  }

  lemma ThenSends(w: Watch, a: seq<Event>, step: (Decoder, seq<Event>))
    requires Obeys(w, a) && Sends(SeeAll(w, a), step)
    ensures Sends(w, (step.0, a + step.1))
  {
    ObeysConcat(w, a, step.1);
  }

  lemma StartSends(d: Decoder, w: Watch)
    requires Follows(d, w)
    ensures Sends(w, Start(d)) && Start(d).0.started
  {
    OneEvent(w, MessageStart(d.id, d.model, d.phase));
  }

  lemma StartBlockSends(d: Decoder, w: Watch, index: int)
    requires Follows(d, w) && d.started
    ensures Sends(w, StartBlock(d, index)) && StartBlock(d, index).0.startedBlock && StartBlock(d, index).0.started
  {
    OneEvent(w, BlockStart(index, TextKind, "", ""));
  }

  lemma StopBlockSends(d: Decoder, w: Watch)
    requires Follows(d, w)
    ensures Sends(w, StopBlock(d)) && !StopBlock(d).0.startedBlock && StopBlock(d).0.started == d.started
  {
    OneEvent(w, BlockDone(d.blockIndex, TextKind));
  }

  lemma TwoEvents(w: Watch, a: Event, b: Event)
    ensures Obeys(w, [a, b]) == (Allowed(w, a) && Allowed(See(w, a), b)) && SeeAll(w, [a, b]) == See(See(w, a), b)
  {
    assert [a, b][1..] == [b];
    OneEvent(See(w, a), b);
  }

  lemma StartToolCallSends(d: Decoder, w: Watch, index: int, item: Item)
    requires Follows(d, w)
    ensures Sends(w, StartToolCall(d, index, item))
  {
    var (d1, evs) := StartToolCall(d, index, item);
    if evs != [] {
      TwoEvents(w, evs[0], evs[1]);
    }
  }

  lemma DoneToolCallSends(d: Decoder, w: Watch, index: int, arguments: string)
    requires Follows(d, w)
    ensures Sends(w, DoneToolCall(d, index, arguments))
  {
    var (d1, evs) := DoneToolCall(d, index, arguments);
    if evs != [] {
      TwoEvents(w, evs[0], evs[1]);
    }
  }

  lemma EndSends(d: Decoder, w: Watch, usage: seq<Event>, reason: FinishReason)
    requires Follows(d, w) && d.started && !d.startedBlock
    requires usage == [] || (|usage| == 1 && usage[0].Usage?)
    ensures
      var evs := usage + [MessageDone(d.id, d.phase), Completed(reason, d.id)];
      Obeys(w, evs) && SeeAll(w, evs).completed
  {
    if usage != [] {
      assert usage == [usage[0]];
      OneEvent(w, usage[0]);
    }
    TwoEvents(w, MessageDone(d.id, d.phase), Completed(reason, d.id));
    ObeysConcat(w, usage, [MessageDone(d.id, d.phase), Completed(reason, d.id)]);
  }

  /** The last events: nothing is left open, and the completion ends the stream. */
  lemma FinishSends(d: Decoder, w: Watch, resp: Option<Reply>)
    requires Follows(d, w)
    ensures Obeys(w, Finish(d, resp).1) && SeeAll(w, Finish(d, resp).1).completed
  {
    var (d1, start) := Start(d);
    var (d2, stop) := StopBlock(d1);
    var usage := if resp.Some? && resp.value.usage.Some? then [Usage(resp.value.usage.value)] else [];
    var reason := if d.doneTools && ReasonOf(resp) == Stop then ToolCall else ReasonOf(resp);
    var end := [MessageDone(d2.id, d2.phase), Completed(reason, d2.id)];
    StartSends(d, w);
    StopBlockSends(d1, SeeAll(w, start));
    ObeysConcat(w, start, stop);
    EndSends(d2, SeeAll(w, start + stop), usage, reason);
    ObeysConcat(w, start + stop, usage + end);
    assert start + stop + usage + end == (start + stop) + (usage + end);
  }

  lemma SingleSends(d: Decoder, w: Watch, ev: Event)
    requires Follows(d, w) && Allowed(w, ev) && See(w, ev) == w
    ensures Sends(w, (d, [ev]))
  {
    OneEvent(w, ev);
  }

  lemma ItemDoneSends(d: Decoder, w: Watch, index: int, item: Item)
    requires Follows(d, w)
    ensures
      var (d1, start) := StartToolCall(d, index, item);
      var (d2, done) := DoneToolCall(d1, index, item.arguments);
      Sends(w, (d2, start + done))
  {
    var (d1, start) := StartToolCall(d, index, item);
    StartToolCallSends(d, w, index, item);
    DoneToolCallSends(d1, SeeAll(w, start), index, item.arguments);
    ThenSends(w, start, DoneToolCall(d1, index, item.arguments));
  }

  lemma PartSends(d: Decoder, w: Watch, index: int)
    requires Follows(d, w)
    ensures
      var (d1, start) := Start(d);
      var (d2, block) := StartBlock(d1, index);
      Sends(w, (d2, start + block)) && d2.started && d2.startedBlock
  {
    var (d1, start) := Start(d);
    StartSends(d, w);
    StartBlockSends(d1, SeeAll(w, start), index);
    ThenSends(w, start, StartBlock(d1, index));
  }

  lemma TextSends(d: Decoder, w: Watch, index: int, delta: string)
    requires Follows(d, w)
    ensures
      var (d1, start) := Start(d);
      var (d2, block) := StartBlock(d1, index);
      Sends(w, (d2, start + block + [TextDelta(index, delta)]))
  {
    var (d1, start) := Start(d);
    var (d2, block) := StartBlock(d1, index);
    PartSends(d, w, index);
    SingleSends(d2, SeeAll(w, start + block), TextDelta(index, delta));
    ThenSends(w, start + block, (d2, [TextDelta(index, delta)]));
  }

  lemma ReasoningSends(d: Decoder, w: Watch, index: int, delta: string)
    requires Follows(d, w)
    ensures Sends(w, (Start(d).0, Start(d).1 + [ReasoningDelta(index, delta, "")]))
  {
    var (d1, start) := Start(d);
    StartSends(d, w);
    SingleSends(d1, SeeAll(w, start), ReasoningDelta(index, delta, ""));
    ThenSends(w, start, (d1, [ReasoningDelta(index, delta, "")]));
  }

  predicate Finishes(w: Wire) {
    w.wtype == ResponseDone || (w.wtype.OtherType? && w.response.Some? && w.response.value.status == "completed")
  }

  lemma TypeSends(d: Decoder, w: Watch, wire: Wire)
    requires Follows(d, w) && !Finishes(wire)
    ensures Sends(w, DecodeType(d, wire))
  {
    match wire.wtype
    case ResponseCreated => StartSends(d, w);
    case ItemAdded =>
      if IsCall(wire.item) {
        StartToolCallSends(d, w, wire.outputIndex, wire.item.value);
      }
    case ItemDone =>
      if IsCall(wire.item) {
        ItemDoneSends(d, w, wire.outputIndex, wire.item.value);
      }
    case PartAdded =>
      PartSends(d, w, wire.outputIndex);
      StartSends(d, w);
      assert Start(d).1 + [] == Start(d).1;
    case TextPiece => TextSends(d, w, wire.outputIndex, wire.delta);
    case ReasoningPiece => ReasoningSends(d, w, wire.outputIndex, wire.delta);
    case PartDone => StopBlockSends(d, w);
    case ArgumentsDone => DoneToolCallSends(d, w, wire.outputIndex, wire.arguments);
    case ReasoningEnd =>
    case ProviderExecution => SingleSends(d, w, Execution(wire.raw));
    case QuotaUsage => SingleSends(d, w, Quota(wire.raw));
    case AnnotationAdded =>
      SingleSends(d, w, if wire.annotation.Some? then CitationEvent(wire.outputIndex, wire.annotation.value) else Raw(wire.raw));
    case OtherType(_) => SingleSends(d, w, Raw(wire.raw));
    case ResponseDone => assert false;
  }

  predicate Erroneous(wire: Wire) {
    wire.error.Some? || (wire.response.Some? && wire.response.value.error.Some?)
  }

  predicate Ends(wire: Wire) { !Erroneous(wire) && Finishes(wire) }

  /** One event of the wire, whatever it is: it completes the stream, or the consumer may see more. */
  lemma DecodeSends(d: Decoder, w: Watch, wire: Wire)
    requires Follows(d, w)
    ensures Ends(wire) ==> Obeys(w, Decode(d, wire).1) && SeeAll(w, Decode(d, wire).1).completed
    ensures !Ends(wire) ==> Sends(w, Decode(d, wire))
  {
    if wire.error.Some? {
      SingleSends(d, w, ErrorEvent(wire.error));
    } else if wire.response.Some? && wire.response.value.error.Some? {
      SingleSends(d, w, ErrorEvent(wire.response.value.error));
    } else {
      var d1 := Identify(d, wire);
      assert Follows(d1, w);
      if Finishes(wire) {
        FinishSends(d1, w, wire.response);
      } else {
        TypeSends(d1, w, wire);
      }
    }
  }

  lemma {:induction false} CompletedIffCompletes(w: Watch, evs: seq<Event>)
    requires Obeys(w, evs) && !w.completed
    ensures SeeAll(w, evs).completed == Completes(evs)
    ensures Sent(evs) == evs
    decreases |evs|
  {
    if evs != [] {
      assert evs == [evs[0]] + evs[1..];
      if evs[0].Completed? {
        assert evs[1..] == [];
        assert evs[0] in evs;
      } else {
        CompletedIffCompletes(See(w, evs[0]), evs[1..]);
        assert forall ev | ev in evs :: ev == evs[0] || ev in evs[1..];
      }
    }
  }

  lemma {:induction false} ReadObeys(d: Decoder, w: Watch, received: seq<Received>)
    requires Follows(d, w)
    ensures Obeys(w, ReadStream(d, received))
    decreases |received|
  {
    if received != [] {
      match received[0]
      case Failed(error) => OneEvent(w, ErrorEvent(Some(error)));
      case Nothing => ReadObeys(d, w, received[1..]);
      case Frame(wire) =>
        var (d1, evs) := Decode(d, wire);
        DecodeSends(d, w, wire);
        CompletedIffCompletes(w, evs);
        if !Completes(evs) {
          ReadObeys(d1, SeeAll(w, evs), received[1..]);
          ObeysConcat(w, evs, ReadStream(d1, received[1..]));
        }
    }
  }

  /** In every run of the decoder under the reading loop, whatever comes over the wire, the consumer's protocol holds. */
  lemma EveryRunObeys(received: seq<Received>)
    ensures Obeys(NOTHING_SEEN, ReadStream(NEW_DECODER, received))
  {
    ReadObeys(NEW_DECODER, NOTHING_SEEN, received);
  }

  // ------------------------------------------------------------------
  // What the protocol says of any two events
  // ------------------------------------------------------------------

  lemma {:induction false} SeenStays(w: Watch, evs: seq<Event>)
    ensures w.started ==> SeeAll(w, evs).started
    ensures w.completed ==> SeeAll(w, evs).completed
    ensures w.starts <= SeeAll(w, evs).starts && w.dones <= SeeAll(w, evs).dones
    decreases |evs|
  {
    if evs != [] {
      SeenStays(See(w, evs[0]), evs[1..]);
    }
  }

  lemma AllowedThere(w: Watch, evs: seq<Event>, j: nat)
    requires Obeys(w, evs) && j < |evs|
    ensures Obeys(w, evs[..j]) && Allowed(SeeAll(w, evs[..j]), evs[j])
  {
    assert evs == evs[..j] + evs[j..];
    ObeysConcat(w, evs[..j], evs[j..]);
  }

  lemma SeenAfter(w: Watch, evs: seq<Event>, i: nat, j: nat)
    requires i < j <= |evs|
    ensures SeeAll(w, evs[..j]) == SeeAll(See(SeeAll(w, evs[..i]), evs[i]), evs[i + 1..j])
  {
    assert evs[..j] == evs[..i] + evs[i..j];
    ObeysConcat(w, evs[..i], evs[i..j]);
    assert evs[i..j][1..] == evs[i + 1..j];
  }

  predicate Single(a: Event, b: Event) {
    && !a.Completed?
    && !(a.MessageStart? && b.MessageStart?)
    && !(a.ToolStart? && b.ToolStart? && a.index == b.index)
    && !(a.ToolDone? && b.ToolDone? && a.index == b.index)
    && !(a.ToolDone? && b.ToolStart? && a.index == b.index)
  }

  lemma AllowedLater(w: Watch, a: Event, w2: Watch, b: Event)
    requires See(w, a).started ==> w2.started
    requires See(w, a).completed ==> w2.completed
    requires See(w, a).starts <= w2.starts && See(w, a).dones <= w2.dones
    requires Allowed(w2, b)
    ensures Single(a, b)
  {
  }

  /**
   In every run: one message start, one completion and nothing after it, and for each
   tool index one start, one done, and no start after the done.
   */
  lemma StartsAndEndsAreSingle(received: seq<Received>, i: nat, j: nat)
    requires i < j < |ReadStream(NEW_DECODER, received)|
    ensures Single(ReadStream(NEW_DECODER, received)[i], ReadStream(NEW_DECODER, received)[j])
  {
    var evs := ReadStream(NEW_DECODER, received);
    EveryRunObeys(received);
    AllowedThere(NOTHING_SEEN, evs, j);
    SeenAfter(NOTHING_SEEN, evs, i, j);
    var w := SeeAll(NOTHING_SEEN, evs[..i]);
    SeenStays(See(w, evs[i]), evs[i + 1..j]);
    AllowedLater(w, evs[i], SeeAll(NOTHING_SEEN, evs[..j]), evs[j]);
  }

  predicate OpensText(ev: Event) { ev.BlockStart? && ev.kind == TextKind }

  predicate ClosesText(ev: Event) { ev.BlockDone? && ev.kind == TextKind }

  lemma {:induction false} ClosedBetween(w: Watch, evs: seq<Event>, index: int)
    requires Obeys(w, evs) && w.text == Some(index) && SeeAll(w, evs).text.None?
    ensures exists k :: 0 <= k < |evs| && ClosesText(evs[k]) && evs[k].index == index && forall h | 0 <= h < k :: !OpensText(evs[h])
    decreases |evs|
  {
    if evs != [] {
      if ClosesText(evs[0]) {
        assert evs[0].index == index;
      } else {
        ClosedBetween(See(w, evs[0]), evs[1..], index);
        var k :| 0 <= k < |evs[1..]| && ClosesText(evs[1..][k]) && evs[1..][k].index == index
                 && forall h | 0 <= h < k :: !OpensText(evs[1..][h]);
        assert ClosesText(evs[k + 1]);
        forall h | 0 <= h < k + 1 ensures !OpensText(evs[h]) {
          if h > 0 {
            assert evs[h] == evs[1..][h - 1];
          }
        }
      }
    }
  }

  /** In every run a text block is closed, with the index it was opened with, before the next one is opened. */
  lemma TextBlocksAlternate(received: seq<Received>, i: nat, j: nat)
    requires i < j < |ReadStream(NEW_DECODER, received)|
    requires OpensText(ReadStream(NEW_DECODER, received)[i])
    requires OpensText(ReadStream(NEW_DECODER, received)[j]) || ReadStream(NEW_DECODER, received)[j].Completed?
    ensures
      var evs := ReadStream(NEW_DECODER, received);
      exists k :: i < k < j && ClosesText(evs[k]) && evs[k].index == evs[i].index
  {
    var evs := ReadStream(NEW_DECODER, received);
    EveryRunObeys(received);
    AllowedThere(NOTHING_SEEN, evs, i);
    AllowedThere(NOTHING_SEEN, evs, j);
    SeenAfter(NOTHING_SEEN, evs, i, j);
    var w := SeeAll(NOTHING_SEEN, evs[..i]);
    assert evs[..j] == evs[..i] + ([evs[i]] + evs[i + 1..j]);
    ObeysConcat(NOTHING_SEEN, evs[..i], [evs[i]] + evs[i + 1..j]);
    ObeysConcat(w, [evs[i]], evs[i + 1..j]);
    OneEvent(w, evs[i]);
    ClosedBetween(See(w, evs[i]), evs[i + 1..j], evs[i].index);
    var k :| 0 <= k < |evs[i + 1..j]| && ClosesText(evs[i + 1..j][k]) && evs[i + 1..j][k].index == evs[i].index;
    assert evs[i + 1..j][k] == evs[i + 1 + k];
  }

  // ------------------------------------------------------------------
  // Which block a delta is for
  // ------------------------------------------------------------------

  /** Every text delta has the index of the text block that is open. */
  ghost predicate DeltasInBlock(evs: seq<Event>) {
    forall j | 0 <= j < |evs| && evs[j].TextDelta? :: SeeAll(NOTHING_SEEN, evs[..j]).text == Some(evs[j].index)
  }

  predicate IsText(part: Option<string>) { part.None? || part.value == "output_text" }

  /** The output index of the frame that opened the text block, after one more frame. */
  function Opener(open: Option<int>, wire: Wire): Option<int> {
    if Erroneous(wire) then open
    else if wire.wtype == PartDone then None
    else if open.None? && (wire.wtype == TextPiece || (wire.wtype == PartAdded && IsText(wire.part))) then Some(wire.outputIndex)
    else open
  }

  /** A piece of text that comes while a block is open has the output index the block was opened with. */
  predicate Stays(open: Option<int>, wire: Wire) {
    !Erroneous(wire) && wire.wtype == TextPiece && open.Some? ==> open.value == wire.outputIndex
  }

  /** So do all pieces of a stream, up to its failure or completion. */
  predicate PiecesStay(open: Option<int>, received: seq<Received>)
    decreases |received|
  {
    received == [] || match received[0]
      case Failed(_) => true
      case Nothing => PiecesStay(open, received[1..])
      case Frame(wire) =>
        Stays(open, wire) && (Ends(wire) || PiecesStay(Opener(open, wire), received[1..]))
  }

  predicate Matches(w: Watch, evs: seq<Event>)
    decreases |evs|
  {
    evs == [] || ((evs[0].TextDelta? ==> w.text == Some(evs[0].index)) && Matches(See(w, evs[0]), evs[1..]))
  }

  lemma {:induction false} MatchesEverywhere(w: Watch, evs: seq<Event>)
    ensures Matches(w, evs) <==> forall j | 0 <= j < |evs| && evs[j].TextDelta? :: SeeAll(w, evs[..j]).text == Some(evs[j].index)
    decreases |evs|
  {
    if evs != [] {
      MatchesEverywhere(See(w, evs[0]), evs[1..]);
      forall j | 0 < j < |evs| ensures SeeAll(w, evs[..j]) == SeeAll(See(w, evs[0]), evs[1..][..j - 1]) {
        assert evs[..j][1..] == evs[1..][..j - 1];
      }
      forall j | 0 <= j < |evs[1..]| ensures evs[1..][j] == evs[j + 1] {
      }
      assert SeeAll(w, evs[..0]) == w;
    }
  }

  lemma {:induction false} MatchesConcat(w: Watch, a: seq<Event>, b: seq<Event>)
    ensures Matches(w, a + b) <==> Matches(w, a) && Matches(SeeAll(w, a), b)
    decreases |a|
  {
    if a == [] {
      assert a + b == b;
    } else {
      assert (a + b)[1..] == a[1..] + b;
      MatchesConcat(See(w, a[0]), a[1..], b);
    }
  }

  lemma {:induction false} NoDeltasMatch(w: Watch, evs: seq<Event>)
    requires forall ev | ev in evs :: !ev.TextDelta?
    ensures Matches(w, evs)
    decreases |evs|
  {
    if evs != [] {
      assert evs[0] in evs && forall ev | ev in evs[1..] :: ev in evs;
      NoDeltasMatch(See(w, evs[0]), evs[1..]);
    }
  }

  lemma TextStays(d: Decoder, w: Watch, index: int, delta: string)
    requires Follows(d, w)
    ensures
      var (d1, start) := Start(d);
      var (d2, block) := StartBlock(d1, index);
      Matches(w, start + block + [TextDelta(index, delta)]) <==> (w.text.Some? ==> w.text.value == index)
  {
    var (d1, start) := Start(d);
    var (d2, block) := StartBlock(d1, index);
    PartSends(d, w, index);
    NoDeltasMatch(w, start + block);
    MatchesConcat(w, start + block, [TextDelta(index, delta)]);
  }

  /** Only pieces of text become deltas. */
  lemma OnlyPiecesAreDeltas(d: Decoder, wire: Wire, ev: Event)
    requires Erroneous(wire) || wire.wtype != TextPiece
    requires ev in Decode(d, wire).1
    ensures !ev.TextDelta?
  {
  }

  lemma DecodeStays(d: Decoder, w: Watch, wire: Wire)
    requires Follows(d, w)
    ensures Matches(w, Decode(d, wire).1) <==> Stays(w.text, wire)
  {
    if !Erroneous(wire) && wire.wtype == TextPiece {
      TextStays(Identify(d, wire), w, wire.outputIndex, wire.delta);
    } else {
      forall ev | ev in Decode(d, wire).1 ensures !ev.TextDelta? {
        OnlyPiecesAreDeltas(d, wire, ev);
      }
      NoDeltasMatch(w, Decode(d, wire).1);
    }
  }

  function OpenBlock(d: Decoder): Option<int> {
    if d.startedBlock then Some(d.blockIndex) else None
  }

  /** Tool calls do not concern the text block. */
  lemma CallsKeepBlock(d: Decoder, index: int, item: Item, arguments: string)
    ensures OpenBlock(StartToolCall(d, index, item).0) == OpenBlock(d)
    ensures OpenBlock(DoneToolCall(d, index, arguments).0) == OpenBlock(d)
  {
  }

  lemma ItemsKeepBlock(d: Decoder, wire: Wire)
    requires wire.wtype == ItemAdded || wire.wtype == ItemDone || wire.wtype == ArgumentsDone
    ensures OpenBlock(DecodeType(d, wire).0) == OpenBlock(d)
  {
    if wire.wtype == ArgumentsDone {
      CallsKeepBlock(d, wire.outputIndex, Item("", "", "", "", "", "", ""), wire.arguments);
    } else if IsCall(wire.item) {
      var item := wire.item.value;
      CallsKeepBlock(d, wire.outputIndex, item, item.arguments);
      CallsKeepBlock(StartToolCall(d, wire.outputIndex, item).0, wire.outputIndex, item, item.arguments);
    }
  }

  lemma TypeOpens(d: Decoder, wire: Wire)
    requires !Finishes(wire) && !Erroneous(wire)
    ensures OpenBlock(DecodeType(d, wire).0) == Opener(OpenBlock(d), wire)
  {
    match wire.wtype
    case ItemAdded => ItemsKeepBlock(d, wire);
    case ItemDone => ItemsKeepBlock(d, wire);
    case ArgumentsDone => ItemsKeepBlock(d, wire);
    case _ =>
  }

  lemma DecodeOpens(d: Decoder, wire: Wire)
    requires !Ends(wire)
    ensures OpenBlock(Decode(d, wire).0) == Opener(OpenBlock(d), wire)
  {
    if !Erroneous(wire) {
      TypeOpens(Identify(d, wire), wire);
      assert OpenBlock(Identify(d, wire)) == OpenBlock(d);
    }
  }

  lemma {:induction false} ReadStays(d: Decoder, w: Watch, received: seq<Received>)
    requires Follows(d, w)
    ensures Matches(w, ReadStream(d, received)) <==> PiecesStay(w.text, received)
    decreases |received|
  {
    if received != [] {
      match received[0]
      case Failed(error) => NoDeltasMatch(w, [ErrorEvent(Some(error))]);
      case Nothing => ReadStays(d, w, received[1..]);
      case Frame(wire) =>
        var (d1, evs) := Decode(d, wire);
        DecodeStays(d, w, wire);
        DecodeSends(d, w, wire);
        CompletedIffCompletes(w, evs);
        if !Completes(evs) {
          DecodeOpens(d, wire);
          ReadStays(d1, SeeAll(w, evs), received[1..]);
          MatchesConcat(w, evs, ReadStream(d1, received[1..]));
        }
    }
  }

  /**
   The decoder keeps one text block open for all output indexes.  In a run every
   delta has the index of the open block if and only if every piece of text that
   arrived while a block was open had the output index of the frame that opened it.
   */
  lemma DeltasStayIff(received: seq<Received>)
    ensures DeltasInBlock(ReadStream(NEW_DECODER, received)) <==> PiecesStay(None, received)
  {
    ReadStays(NEW_DECODER, NOTHING_SEEN, received);
    MatchesEverywhere(NOTHING_SEEN, ReadStream(NEW_DECODER, received));
  }

  /** Two pieces for two items, for one, are read as one block. */
  lemma DeltasMayStray(a: string, b: string, i: int, j: int)
    ensures
      var received := [Frame(Plain(TextPiece, "", i).(delta := a)), Frame(Plain(TextPiece, "", j).(delta := b))];
      DeltasInBlock(ReadStream(NEW_DECODER, received)) <==> i == j
  {
    var x, y := Frame(Plain(TextPiece, "", i).(delta := a)), Frame(Plain(TextPiece, "", j).(delta := b));
    DeltasStayIff([x, y]);
    assert [x, y][1..] == [y] && [y][1..] == [];
    assert PiecesStay(Some(i), [y]) <==> i == j;
  }
}
