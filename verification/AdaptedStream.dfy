/**
 The adapted client's stream: provider events through the provider's chain, the
 decoder and the unified chain, each output handed on before the next input is
 taken, and the three closed one after the other at the end of the input.
 */
module AdaptedStream {
  import opened Wrappers
  import opened Pipeline
  import opened EventChain

  /** What pushes put out up to the first that fails, and the state when none does. */
  function Attempt<S, A, B>(p: Processor<S, A, B>, s: S, xs: seq<A>): (seq<B>, Option<S>)
    decreases |xs|
  {
    if xs == [] then ([], Some(s))
    else match p.push(s, xs[0])
      case None => ([], None)
      case Some((s1, out)) =>
        var (rest, end) := Attempt(p, s1, xs[1..]);
        (out + rest, end)
  }

  lemma {:induction false} AttemptIsFeed<S, A, B>(p: Processor<S, A, B>, s: S, xs: seq<A>)
    ensures Feed(p, s, xs)
         == if Attempt(p, s, xs).1.Some? then Some((Attempt(p, s, xs).1.value, Attempt(p, s, xs).0)) else None
    decreases |xs|
  {
    if xs != [] {
      match p.push(s, xs[0]) {
        case None =>
        case Some((s1, out)) => AttemptIsFeed(p, s1, xs[1..]);
      }
    }
  }

  function AttemptBoth<S, A, B>(p: Processor<S, A, B>, s: S, a: seq<A>, b: seq<A>): (seq<B>, Option<S>) {
    var (x, end) := Attempt(p, s, a);
    if end.None? then (x, None) else (x + Attempt(p, end.value, b).0, Attempt(p, end.value, b).1)
  }

  lemma {:induction false} AttemptConcat<S, A, B>(p: Processor<S, A, B>, s: S, a: seq<A>, b: seq<A>)
    ensures Attempt(p, s, a + b) == AttemptBoth(p, s, a, b)
    decreases |a|
  {
    if a == [] {
      assert a + b == b;
      assert [] + Attempt(p, s, b).0 == Attempt(p, s, b).0;
    } else {
      assert (a + b)[1..] == a[1..] + b;
      match p.push(s, a[0]) {
        case None =>
        case Some((s1, out)) =>
          AttemptConcat(p, s1, a[1..], b);
          var (x, end) := Attempt(p, s1, a[1..]);
          if end.Some? {
            assert out + (x + Attempt(p, end.value, b).0) == (out + x) + Attempt(p, end.value, b).0;
          }
      }
    }
  }

  // ------------------------------------------------------------------
  // What the consumer of the stream sees
  // ------------------------------------------------------------------

  /** The three stages of the stream and their states. */
  datatype Stages<!SP, !P, !SD, !SU, !U> = Stages(
    provider: Processor<SP, P, P>,
    decoder: Processor<SD, P, U>,
    unified: Processor<SU, U, U>,
    ps: SP,
    ds: SD,
    us: SU)

  function Inner<SP, P, SD, SU, U>(st: Stages<SP, P, SD, SU, U>): Processor<(SD, SU), P, U> {
    Then(st.decoder, st.unified)
  }

  /** The decoder and then the unified chain are closed. */
  function Ending<SP, P, SD, SU, U>(st: Stages<SP, P, SD, SU, U>, ds: SD, us: SU): (seq<U>, bool) {
    match st.decoder.close(ds)
    case None => ([], false)
    case Some((_, decoded)) =>
      match Feed(st.unified, us, decoded)
      case None => ([], false)
      case Some((us1, processed)) =>
        match st.unified.close(us1)
        case None => (processed, false)
        case Some((_, flushed)) => (processed + flushed, true)
  }

  /** The provider's chain is closed, and what it puts out is handed on. */
  function Closing<SP, P, SD, SU, U>(st: Stages<SP, P, SD, SU, U>, ps: SP, ds: SD, us: SU): (seq<U>, bool) {
    match st.provider.close(ps)
    case None => ([], false)
    case Some((_, last)) =>
      var (more, end) := Attempt(Inner(st), (ds, us), last);
      if end.None? then (more, false)
      else (more + Ending(st, end.value.0, end.value.1).0, Ending(st, end.value.0, end.value.1).1)
  }

  /** Everything emitted, and whether the stream came to its end without an error. */
  function Streamed<SP, P, SD, SU, U>(st: Stages<SP, P, SD, SU, U>, events: seq<P>): (seq<U>, bool) {
    var (handed, pend) := Attempt(st.provider, st.ps, events);
    var (out, end) := Attempt(Inner(st), (st.ds, st.us), handed);
    if end.None? || pend.None? then (out, false)
    else
      var (more, ok) := Closing(st, pend.value, end.value.0, end.value.1);
      (out + more, ok)
  }

  /** The three stages as one processor. */
  function AsOne<SP, P, SD, SU, U>(st: Stages<SP, P, SD, SU, U>): Processor<(SP, (SD, SU)), P, U> {
    Then(st.provider, Inner(st))
  }

  lemma EndingIsClose<SP, P, SD, SU, U>(st: Stages<SP, P, SD, SU, U>, ds: SD, us: SU)
    ensures Inner(st).close((ds, us)).Some? <==> Ending(st, ds, us).1
    ensures Ending(st, ds, us).1 ==> Inner(st).close((ds, us)).value.1 == Ending(st, ds, us).0
  {
  }

  lemma ClosingIsClose<SP, P, SD, SU, U>(st: Stages<SP, P, SD, SU, U>, ps: SP, ds: SD, us: SU)
    ensures AsOne(st).close((ps, (ds, us))).Some? <==> Closing(st, ps, ds, us).1
    ensures Closing(st, ps, ds, us).1 ==> AsOne(st).close((ps, (ds, us))).value.1 == Closing(st, ps, ds, us).0
  {
    match st.provider.close(ps) {
      case None =>
      case Some((_, last)) =>
        AttemptIsFeed(Inner(st), (ds, us), last);
        var end := Attempt(Inner(st), (ds, us), last).1;
        if end.Some? {
          EndingIsClose(st, end.value.0, end.value.1);
        }
    }
  }

  /** A stream that comes to its end emits the complete output of the three stages as one processor. */
  lemma StreamedIsWhole<SP, P, SD, SU, U>(st: Stages<SP, P, SD, SU, U>, events: seq<P>)
    ensures Whole(AsOne(st), (st.ps, (st.ds, st.us)), events).Some? <==> Streamed(st, events).1
    ensures Streamed(st, events).1 ==>
      Whole(AsOne(st), (st.ps, (st.ds, st.us)), events).value.1 == Streamed(st, events).0
  {
    ThenFeeds(st.provider, Inner(st), st.ps, (st.ds, st.us), events);
    AttemptIsFeed(st.provider, st.ps, events);
    var (handed, pend) := Attempt(st.provider, st.ps, events);
    AttemptIsFeed(Inner(st), (st.ds, st.us), handed);
    var end := Attempt(Inner(st), (st.ds, st.us), handed).1;
    if end.Some? && pend.Some? {
      ClosingIsClose(st, pend.value, end.value.0, end.value.1);
    }
  }

  /** Stage by stage: the provider's chain on all events, the decoder on all that puts out, the unified chain on all that. */
  function StageByStage<SP, P, SD, SU, U>(
      provider: seq<Processor<SP, P, P>>, ps: seq<SP>, decoder: Processor<SD, P, U>, ds: SD,
      unified: seq<Processor<SU, U, U>>, us: seq<SU>, events: seq<P>): Option<seq<U>>
    requires |ps| == |provider| && |us| == |unified|
  {
    match Staged(provider, ps, events)
    case None => None
    case Some((_, handed)) =>
      match Whole(decoder, ds, handed)
      case None => None
      case Some((_, decoded)) =>
        match Staged(unified, us, decoded)
        case None => None
        case Some((_, out)) => Some(out)
  }

  /**
   The law of the adapted stream: what it emits, one provider event at a time, is
   what the stages put out when each is run on the complete output of the one
   before; and it ends in an error exactly when one of them fails.
   */
  lemma StreamIsStageByStage<SP, P, SD, SU, U>(
      provider: seq<Processor<SP, P, P>>, ps: seq<SP>, decoder: Processor<SD, P, U>, ds: SD,
      unified: seq<Processor<SU, U, U>>, us: seq<SU>, events: seq<P>)
    requires |ps| == |provider| && |us| == |unified|
    ensures
      var (out, ok) := Streamed(Stages(AsProcessor(provider), decoder, AsProcessor(unified), ps, ds, us), events);
      var staged := StageByStage(provider, ps, decoder, ds, unified, us, events);
      (ok <==> staged.Some?) && (ok ==> staged.value == out)
  {
    var st := Stages(AsProcessor(provider), decoder, AsProcessor(unified), ps, ds, us);
    StreamedIsWhole(st, events);
    ThenIsStaged(st.provider, Inner(st), ps, (ds, us), events);
    EventByEventIsStaged(provider, ps, events);
    match Staged(provider, ps, events) {
      case None =>
      case Some((_, handed)) =>
        ThenIsStaged(decoder, st.unified, ds, us, handed);
        match Whole(decoder, ds, handed) {
          case None =>
          case Some((_, decoded)) => EventByEventIsStaged(unified, us, decoded);
        }
    }
  }

  // ------------------------------------------------------------------
  // The stream as the source has it
  // ------------------------------------------------------------------

  /** What remains of Attempt, in front of it what was put out so far. */
  function Remaining<S, A, B>(p: Processor<S, A, B>, s: S, xs: seq<A>, out: seq<B>): (seq<B>, Option<S>) {
    (out + Attempt(p, s, xs).0, Attempt(p, s, xs).1)
  }

  lemma RemainingEnds<S, A, B>(p: Processor<S, A, B>, s: S, xs: seq<A>, out: seq<B>)
    ensures Remaining(p, s, xs[0..], []) == Attempt(p, s, xs)
    ensures Remaining(p, s, xs[|xs|..], out) == (out, Some(s))
  {
    assert xs[0..] == xs && out + [] == out;
    assert [] + Attempt(p, s, xs).0 == Attempt(p, s, xs).0;
  }

  lemma RemainingFails<S, A, B>(p: Processor<S, A, B>, s: S, xs: seq<A>, k: nat, out: seq<B>)
    requires k < |xs| && p.push(s, xs[k]).None?
    ensures Remaining(p, s, xs[k..], out) == (out, None)
  {
    assert out + [] == out;
  }

  lemma RemainingSteps<S, A, B>(p: Processor<S, A, B>, s: S, xs: seq<A>, k: nat, out: seq<B>, s1: S, more: seq<B>)
    requires k < |xs| && p.push(s, xs[k]) == Some((s1, more))
    ensures Remaining(p, s, xs[k..], out) == Remaining(p, s1, xs[k + 1..], out + more)
  {
    assert xs[k..][1..] == xs[k + 1..];
    assert out + (more + Attempt(p, s1, xs[k + 1..]).0) == (out + more) + Attempt(p, s1, xs[k + 1..]).0;
  }

  class EventDecoder<S, A, B> {
    const machine: Processor<S, A, B>
    var state: S

    constructor (machine: Processor<S, A, B>, state: S)
      ensures this.machine == machine && this.state == state
    {
      this.machine := machine;
      this.state := state;
    }

    method Push(ev: A) returns (r: Option<seq<B>>)
      modifies this
      ensures r.None? <==> machine.push(old(state), ev).None?
      ensures r.Some? ==> machine.push(old(state), ev) == Some((state, r.value))
    {
      match machine.push(state, ev) {
        case None =>
          return None;
        case Some((s, out)) =>
          state := s;
          return Some(out);
      }
    }

    method Close() returns (r: Option<seq<B>>)
      modifies this
      ensures r.None? <==> machine.close(old(state)).None?
      ensures r.Some? ==> machine.close(old(state)) == Some((state, r.value))
    {
      match machine.close(state) {
        case None =>
          return None;
        case Some((s, out)) =>
          state := s;
          return Some(out);
      }
    }
  }

  method PushUnified<S, U>(chain: Chain<S, U>, events: seq<U>) returns (r: Option<seq<U>>)
    requires chain.Valid()
    modifies chain
    ensures chain.Valid()
    ensures r.None? <==> Feed(AsProcessor(chain.processors), old(chain.states), events).None?
    ensures r.Some? ==> Feed(AsProcessor(chain.processors), old(chain.states), events) == Some((chain.states, r.value))
  {
    var out: seq<U> := [];
    ghost var p := AsProcessor(chain.processors);
    RestEnds(p, chain.states, events, out);
    for k := 0 to |events|
      invariant chain.Valid()
      invariant Rest(p, chain.states, events[k..], out) == Feed(p, old(chain.states), events)
    {
      RestStep(p, chain.states, events, k, out);
      var produced := chain.Push(events[k]);
      if produced.None? {
        return None;
      }
      out := out + produced.value;
    }
    RestEnds(p, chain.states, events, out);
    return Some(out);
  }

  /** Provider events decoded one by one, each one's events pushed through the unified chain and emitted. */
  method Deliver<SD, P, SU, U>(decoder: EventDecoder<SD, P, U>, chain: Chain<SU, U>, provided: seq<P>)
    returns (out: seq<U>, ok: bool)
    requires chain.Valid()
    modifies decoder, chain
    ensures chain.Valid()
    ensures Attempt(Then(decoder.machine, AsProcessor(chain.processors)), (old(decoder.state), old(chain.states)), provided)
         == (out, if ok then Some((decoder.state, chain.states)) else None)
  {
    ghost var inner := Then(decoder.machine, AsProcessor(chain.processors));
    out := [];
    RemainingEnds(inner, (decoder.state, chain.states), provided, out);
    for k := 0 to |provided|
      invariant chain.Valid()
      invariant Remaining(inner, (decoder.state, chain.states), provided[k..], out)
             == Attempt(inner, (old(decoder.state), old(chain.states)), provided)
    {
      ghost var before := (decoder.state, chain.states);
      var decoded := decoder.Push(provided[k]);
      if decoded.None? {
        RemainingFails(inner, before, provided, k, out);
        return out, false;
      }
      var processed := PushUnified(chain, decoded.value);
      if processed.None? {
        RemainingFails(inner, before, provided, k, out);
        return out, false;
      }
      RemainingSteps(inner, before, provided, k, out, (decoder.state, chain.states), processed.value);
      out := out + processed.value;
    }
    RemainingEnds(inner, (decoder.state, chain.states), provided, out);
    ok := true;
  }

  /** The end of the input: the decoder closed, then the unified chain. */
  method Finish<SP, P, SD, SU, U>(ghost st: Stages<SP, P, SD, seq<SU>, U>,
      decoder: EventDecoder<SD, P, U>, chain: Chain<SU, U>)
    returns (out: seq<U>, ok: bool)
    requires chain.Valid() && st.decoder == decoder.machine && st.unified == AsProcessor(chain.processors)
    modifies decoder, chain
    ensures (out, ok) == Ending(st, old(decoder.state), old(chain.states))
  {
    var decoded := decoder.Close();
    if decoded.None? {
      return [], false;
    }
    var processed := PushUnified(chain, decoded.value);
    if processed.None? {
      return [], false;
    }
    var flushed := chain.Close();
    if flushed.None? {
      return processed.value, false;
    }
    return processed.value + flushed.value, true;
  }

  /** The end of the input, from the provider's chain on. */
  method CloseStages<SP, P, SD, SU, U>(ghost st: Stages<seq<SP>, P, SD, seq<SU>, U>, provider: Chain<SP, P>,
      decoder: EventDecoder<SD, P, U>, chain: Chain<SU, U>)
    returns (out: seq<U>, ok: bool)
    requires provider.Valid() && chain.Valid() && (provider as object) != (chain as object)
    requires st.provider == AsProcessor(provider.processors) && st.decoder == decoder.machine
    requires st.unified == AsProcessor(chain.processors)
    modifies provider, decoder, chain
    ensures (out, ok) == Closing(st, old(provider.states), old(decoder.state), old(chain.states))
  {
    var flushed := provider.Close();
    if flushed.None? {
      return [], false;
    }
    assert Inner(st) == Then(decoder.machine, AsProcessor(chain.processors));
    out, ok := Deliver(decoder, chain, flushed.value);
    if !ok {
      return out, false;
    }
    var last;
    last, ok := Finish(st, decoder, chain);
    out := out + last;
  }

  /** What the stream will have emitted, from a point between two events on. */
  function StreamedFrom<SP, P, SD, SU, U>(st: Stages<SP, P, SD, SU, U>, events: seq<P>, out: seq<U>): (seq<U>, bool) {
    (out + Streamed(st, events).0, Streamed(st, events).1)
  }

  lemma ProviderFails<SP, P, SD, SU, U>(st: Stages<SP, P, SD, SU, U>, events: seq<P>, n: nat, out: seq<U>)
    requires n < |events| && st.provider.push(st.ps, events[n]).None?
    ensures StreamedFrom(st, events[n..], out) == (out, false)
  {
    assert Attempt(st.provider, st.ps, events[n..]) == ([], None);
    assert out + [] == out;
  }

  /** One event handed on: the stream goes on from the states after it, or ends there. */
  lemma EventStreams<SP, P, SD, SU, U>(st: Stages<SP, P, SD, SU, U>, events: seq<P>, n: nat, out: seq<U>, ps: SP, handed: seq<P>)
    requires n < |events| && st.provider.push(st.ps, events[n]) == Some((ps, handed))
    ensures
      var (more, end) := Attempt(Inner(st), (st.ds, st.us), handed);
      StreamedFrom(st, events[n..], out)
      == if end.None? then (out + more, false)
         else StreamedFrom(st.(ps := ps, ds := end.value.0, us := end.value.1), events[n + 1..], out + more)
  {
    assert events[n..][1..] == events[n + 1..];
    var (rest, pend) := Attempt(st.provider, ps, events[n + 1..]);
    assert Attempt(st.provider, st.ps, events[n..]) == (handed + rest, pend);
    AttemptConcat(Inner(st), (st.ds, st.us), handed, rest);
    var (more, end) := Attempt(Inner(st), (st.ds, st.us), handed);
    if end.Some? {
      var st1 := st.(ps := ps, ds := end.value.0, us := end.value.1);
      var (more2, end2) := Attempt(Inner(st), end.value, rest);
      assert Inner(st1) == Inner(st);
      assert Attempt(Inner(st), (st.ds, st.us), handed + rest) == (more + more2, end2);
      if end2.Some? && pend.Some? {
        var last := Closing(st, pend.value, end2.value.0, end2.value.1).0;
        assert Closing(st1, pend.value, end2.value.0, end2.value.1) == Closing(st, pend.value, end2.value.0, end2.value.1);
        assert out + ((more + more2) + last) == (out + more) + (more2 + last);
      } else {
        assert out + (more + more2) == (out + more) + more2;
      }
    }
  }

  lemma StreamedEnds<SP, P, SD, SU, U>(st: Stages<SP, P, SD, SU, U>, events: seq<P>, out: seq<U>)
    ensures StreamedFrom(st, events[0..], []) == Streamed(st, events)
    ensures StreamedFrom(st, events[|events|..], out)
         == (out + Closing(st, st.ps, st.ds, st.us).0, Closing(st, st.ps, st.ds, st.us).1)
  {
    assert events[0..] == events && [] + Streamed(st, events).0 == Streamed(st, events).0;
    assert events[|events|..] == [];
    var last := Closing(st, st.ps, st.ds, st.us).0;
    assert [] + last == last;
  }

  /** The whole stream: the request's warnings first, then what the events bring; not ok means an error event ends it. */
  method Stream<SP, P, SD, SU, U>(
      provider: seq<Processor<SP, P, P>>, ps: seq<SP>, machine: Processor<SD, P, U>, ds: SD,
      unified: seq<Processor<SU, U, U>>, us: seq<SU>, warnings: seq<U>, events: seq<P>)
    returns (out: seq<U>, ok: bool)
    requires |ps| == |provider| && |us| == |unified|
    ensures
      var st := Stages(AsProcessor(provider), machine, AsProcessor(unified), ps, ds, us);
      out == warnings + Streamed(st, events).0 && ok == Streamed(st, events).1
  {
    ghost var start := Stages(AsProcessor(provider), machine, AsProcessor(unified), ps, ds, us);
    var providerChain := new Chain(provider, ps);
    var unifiedChain := new Chain(unified, us);
    var decoder := new EventDecoder(machine, ds);
    var emitted: seq<U> := [];
    StreamedEnds(start, events, emitted);
    for n := 0 to |events|
      invariant providerChain.Valid() && unifiedChain.Valid()
      invariant StreamedFrom(start.(ps := providerChain.states, ds := decoder.state, us := unifiedChain.states),
                             events[n..], emitted)
             == Streamed(start, events)
    {
      ghost var st := start.(ps := providerChain.states, ds := decoder.state, us := unifiedChain.states);
      var handed := providerChain.Push(events[n]);
      if handed.None? {
        ProviderFails(st, events, n, emitted);
        return warnings + emitted, false;
      }
      EventStreams(st, events, n, emitted, providerChain.states, handed.value);
      var processed;
      processed, ok := Deliver(decoder, unifiedChain, handed.value);
      emitted := emitted + processed;
      if !ok {
        return warnings + emitted, false;
      }
    }
    ghost var st := start.(ps := providerChain.states, ds := decoder.state, us := unifiedChain.states);
    StreamedEnds(st, events, emitted);
    var last;
    last, ok := CloseStages(st, providerChain, decoder, unifiedChain);
    out := warnings + (emitted + last);
  }
}
