/** The processor chain, and that working event by event equals working stage by stage. */
module EventChain {
  import opened Wrappers
  import opened Pipeline

  /** xs through the processors one after the other: all that the last one puts out. */
  function Through<S, E>(procs: seq<Processor<S, E, E>>, states: seq<S>, xs: seq<E>): (r: Option<(seq<S>, seq<E>)>)
    requires |states| == |procs|
    ensures r.Some? ==> |r.value.0| == |procs|
    decreases |procs|
  {
    if procs == [] then Some(([], xs))
    else match Feed(procs[0], states[0], xs)
      case None => None
      case Some((s, ys)) =>
        match Through(procs[1..], states[1..], ys)
        case None => None
        case Some((rest, zs)) => Some(([s] + rest, zs))
  }

  /** The processors closed in turn, what each puts out going through the later ones. */
  function CloseAll<S, E>(procs: seq<Processor<S, E, E>>, states: seq<S>): (r: Option<(seq<S>, seq<E>)>)
    requires |states| == |procs|
    ensures r.Some? ==> |r.value.0| == |procs|
    decreases |procs|
  {
    if procs == [] then Some(([], []))
    else match procs[0].close(states[0])
      case None => None
      case Some((s, ys)) =>
        match Through(procs[1..], states[1..], ys)
        case None => None
        case Some((rest, zs)) =>
          match CloseAll(procs[1..], rest)
          case None => None
          case Some((rest', more)) => Some(([s] + rest', zs + more))
  }

  /** The chain as one processor, as its Push and Close make it. */
  function AsProcessor<S, E>(procs: seq<Processor<S, E, E>>): Processor<seq<S>, E, E> {
    Processor(
      (states: seq<S>, x: E) => if |states| == |procs| then Through(procs, states, [x]) else None,
      (states: seq<S>) => if |states| == |procs| then CloseAll(procs, states) else None)
  }

  /** Stage by stage: each processor's complete output, its close output included, is the next one's input. */
  function Staged<S, E>(procs: seq<Processor<S, E, E>>, states: seq<S>, xs: seq<E>): (r: Option<(seq<S>, seq<E>)>)
    requires |states| == |procs|
    ensures r.Some? ==> |r.value.0| == |procs|
    decreases |procs|
  {
    if procs == [] then Some(([], xs))
    else match Whole(procs[0], states[0], xs)
      case None => None
      case Some((s, ys)) =>
        match Staged(procs[1..], states[1..], ys)
        case None => None
        case Some((rest, zs)) => Some(([s] + rest, zs))
  }

  // ------------------------------------------------------------------
  // The law
  // ------------------------------------------------------------------

  /** First a, then b from where a left off. */
  function ThroughBoth<S, E>(procs: seq<Processor<S, E, E>>, states: seq<S>, a: seq<E>, b: seq<E>): Option<(seq<S>, seq<E>)>
    requires |states| == |procs|
  {
    match Through(procs, states, a)
    case None => None
    case Some((states1, x)) =>
      match Through(procs, states1, b)
      case None => None
      case Some((states2, y)) => Some((states2, x + y))
  }

  lemma {:induction false} ThroughConcat<S, E>(procs: seq<Processor<S, E, E>>, states: seq<S>, a: seq<E>, b: seq<E>)
    requires |states| == |procs|
    ensures Through(procs, states, a + b) == ThroughBoth(procs, states, a, b)
    decreases |procs|
  {
    if procs != [] {
      FeedConcat(procs[0], states[0], a, b);
      match Feed(procs[0], states[0], a) {
        case None =>
        case Some((s1, x)) =>
          match Feed(procs[0], s1, b) {
            case None =>
            case Some((s2, y)) =>
              ThroughConcat(procs[1..], states[1..], x, y);
              match Through(procs[1..], states[1..], x) {
                case None =>
                case Some((rest, z)) => assert ([s1] + rest)[1..] == rest;
              }
          }
          match Through(procs[1..], states[1..], x) {
            case None =>
            case Some((rest, z)) => assert ([s1] + rest)[1..] == rest;
          }
      }
    }
  }

  lemma {:induction false} ThroughNothing<S, E>(procs: seq<Processor<S, E, E>>, states: seq<S>)
    requires |states| == |procs|
    ensures Through(procs, states, []) == Some((states, []))
    decreases |procs|
  {
    if procs != [] {
      ThroughNothing(procs[1..], states[1..]);
      assert [states[0]] + states[1..] == states;
    }
  }

  /** Pushed one by one through the whole chain is the same as all through each processor in turn. */
  lemma {:induction false} FeedIsThrough<S, E>(procs: seq<Processor<S, E, E>>, states: seq<S>, xs: seq<E>)
    requires |states| == |procs|
    ensures Feed(AsProcessor(procs), states, xs) == Through(procs, states, xs)
    decreases |xs|
  {
    if xs == [] {
      ThroughNothing(procs, states);
    } else {
      assert xs == [xs[0]] + xs[1..];
      ThroughConcat(procs, states, [xs[0]], xs[1..]);
      match Through(procs, states, [xs[0]]) {
        case None =>
        case Some((states1, out)) => FeedIsThrough(procs, states1, xs[1..]);
      }
    }
  }

  /** What goes through the chain and then closes it. */
  function ThroughAndClose<S, E>(procs: seq<Processor<S, E, E>>, states: seq<S>, xs: seq<E>): Option<(seq<S>, seq<E>)>
    requires |states| == |procs|
  {
    match Through(procs, states, xs)
    case None => None
    case Some((states1, out)) =>
      match CloseAll(procs, states1)
      case None => None
      case Some((states2, last)) => Some((states2, out + last))
  }

  /** First a; then b and the close. */
  function ThroughThenClose<S, E>(procs: seq<Processor<S, E, E>>, states: seq<S>, a: seq<E>, b: seq<E>): Option<(seq<S>, seq<E>)>
    requires |states| == |procs|
  {
    match Through(procs, states, a)
    case None => None
    case Some((states1, x)) =>
      match ThroughAndClose(procs, states1, b)
      case None => None
      case Some((states2, y)) => Some((states2, x + y))
  }

  /** The first processor done, the rest of the chain gets what it put out and then what its close puts out. */
  lemma CloseAfter<S, E>(procs: seq<Processor<S, E, E>>, states: seq<S>, a: seq<E>, b: seq<E>)
    requires |states| == |procs|
    ensures ThroughAndClose(procs, states, a + b) == ThroughThenClose(procs, states, a, b)
  {
    ThroughConcat(procs, states, a, b);
    match Through(procs, states, a) {
      case None =>
      case Some((states1, x)) =>
        match Through(procs, states1, b) {
          case None =>
          case Some((states2, y)) =>
            match CloseAll(procs, states2) {
              case None =>
              case Some((states3, z)) => assert x + (y + z) == (x + y) + z;
            }
        }
    }
  }

  lemma {:induction false} ThroughAndCloseIsStaged<S, E>(procs: seq<Processor<S, E, E>>, states: seq<S>, xs: seq<E>)
    requires |states| == |procs|
    ensures ThroughAndClose(procs, states, xs) == Staged(procs, states, xs)
    decreases |procs|
  {
    if procs == [] {
      assert xs + [] == xs;
    } else {
      match Feed(procs[0], states[0], xs) {
        case None =>
        case Some((s1, ys)) =>
          FirstThenRest(procs, states, xs, s1, ys);
          match procs[0].close(s1) {
            case None =>
            case Some((s2, last)) =>
              CloseAfter(procs[1..], states[1..], ys, last);
              ThroughAndCloseIsStaged(procs[1..], states[1..], ys + last);
          }
      }
    }
  }

  /** The first processor has put out ys and is then closed, the others following it. */
  function FirstClosed<S, E>(procs: seq<Processor<S, E, E>>, states: seq<S>, s1: S, ys: seq<E>): Option<(seq<S>, seq<E>)>
    requires |states| == |procs| > 0
  {
    match Through(procs[1..], states[1..], ys)
    case None => None
    case Some((rest, out)) =>
      match procs[0].close(s1)
      case None => None
      case Some((s2, last)) =>
        match ThroughAndClose(procs[1..], rest, last)
        case None => None
        case Some((rest', more)) => Some(([s2] + rest', out + more))
  }

  /** The chain's pushes and close, seen from its first processor. */
  lemma FirstThenRest<S, E>(procs: seq<Processor<S, E, E>>, states: seq<S>, xs: seq<E>, s1: S, ys: seq<E>)
    requires |states| == |procs| > 0 && Feed(procs[0], states[0], xs) == Some((s1, ys))
    ensures ThroughAndClose(procs, states, xs) == FirstClosed(procs, states, s1, ys)
  {
    match Through(procs[1..], states[1..], ys) {
      case None =>
      case Some((rest, out)) =>
        assert ([s1] + rest)[1..] == rest;
    }
  }

  /**
   The law of the chain: event by event and then closed it puts out, and ends in the
   same states as, the processors run one after the other on whole streams.  It
   fails exactly when they fail.
   */
  lemma EventByEventIsStaged<S, E>(procs: seq<Processor<S, E, E>>, states: seq<S>, xs: seq<E>)
    requires |states| == |procs|
    ensures Whole(AsProcessor(procs), states, xs) == Staged(procs, states, xs)
  {
    FeedIsThrough(procs, states, xs);
    ThroughAndCloseIsStaged(procs, states, xs);
  }

  // ------------------------------------------------------------------
  // No push after a close
  // ------------------------------------------------------------------

  /** A call of a processor, by its place in the chain. */
  datatype Call = Pushed(i: nat) | Closed(i: nat)

  /** The calls made, up to and with the first that fails. */
  function FeedCalls<S, A, B>(i: nat, p: Processor<S, A, B>, s: S, xs: seq<A>): seq<Call>
    decreases |xs|
  {
    if xs == [] then []
    else [Pushed(i)] + match p.push(s, xs[0]) { case None => [] case Some((s1, _)) => FeedCalls(i, p, s1, xs[1..]) }
  }

  function ThroughCalls<S, E>(i: nat, procs: seq<Processor<S, E, E>>, states: seq<S>, xs: seq<E>): seq<Call>
    requires |states| == |procs|
    decreases |procs|
  {
    if procs == [] then []
    else FeedCalls(i, procs[0], states[0], xs)
         + match Feed(procs[0], states[0], xs)
           case None => []
           case Some((_, ys)) => ThroughCalls(i + 1, procs[1..], states[1..], ys)
  }

  function CloseCalls<S, E>(i: nat, procs: seq<Processor<S, E, E>>, states: seq<S>): seq<Call>
    requires |states| == |procs|
    decreases |procs|
  {
    if procs == [] then []
    else [Closed(i)]
         + match procs[0].close(states[0])
           case None => []
           case Some((_, ys)) =>
             ThroughCalls(i + 1, procs[1..], states[1..], ys)
             + match Through(procs[1..], states[1..], ys)
               case None => []
               case Some((rest, _)) => CloseCalls(i + 1, procs[1..], rest)
  }

  /** A whole run: the events pushed one by one, then the close, unless a push failed. */
  function RunCalls<S, E>(procs: seq<Processor<S, E, E>>, states: seq<S>, xs: seq<E>): seq<Call>
    requires |states| == |procs|
    decreases |xs|
  {
    if xs == [] then CloseCalls(0, procs, states)
    else ThroughCalls(0, procs, states, [xs[0]])
         + match Through(procs, states, [xs[0]])
           case None => []
           case Some((states1, _)) => RunCalls(procs, states1, xs[1..])
  }

  /** After its close a processor is called no more. */
  predicate Orderly(calls: seq<Call>) {
    forall a, b | 0 <= a < b < |calls| && calls[a].Closed? :: calls[b].i != calls[a].i
  }

  /** Pushes of processors from the i-th on, and nothing else. */
  predicate PushesFrom(i: nat, calls: seq<Call>) {
    forall c | c in calls :: c.Pushed? && c.i >= i
  }

  lemma {:induction false} FeedPushes<S, A, B>(i: nat, p: Processor<S, A, B>, s: S, xs: seq<A>)
    ensures PushesFrom(i, FeedCalls(i, p, s, xs))
    decreases |xs|
  {
    if xs != [] {
      match p.push(s, xs[0]) {
        case None =>
        case Some((s1, _)) => FeedPushes(i, p, s1, xs[1..]);
      }
    }
  }

  lemma {:induction false} ThroughPushes<S, E>(i: nat, procs: seq<Processor<S, E, E>>, states: seq<S>, xs: seq<E>)
    requires |states| == |procs|
    ensures PushesFrom(i, ThroughCalls(i, procs, states, xs))
    decreases |procs|
  {
    if procs != [] {
      FeedPushes(i, procs[0], states[0], xs);
      match Feed(procs[0], states[0], xs) {
        case None =>
        case Some((_, ys)) => ThroughPushes(i + 1, procs[1..], states[1..], ys);
      }
    }
  }

  lemma PushesFirst(i: nat, a: seq<Call>, b: seq<Call>)
    requires PushesFrom(i, a) && Orderly(b)
    ensures Orderly(a + b)
  {
    assert forall x | 0 <= x < |a| :: a[x] in a;
  }

  predicate AllFrom(i: nat, calls: seq<Call>) {
    forall c | c in calls :: c.i >= i
  }

  /** A close, then pushes of later processors, then calls of later processors that are orderly. */
  lemma OneClose(i: nat, pushes: seq<Call>, later: seq<Call>)
    requires PushesFrom(i + 1, pushes) && Orderly(later) && AllFrom(i + 1, later)
    ensures Orderly([Closed(i)] + (pushes + later)) && AllFrom(i, [Closed(i)] + (pushes + later))
  {
    PushesFirst(i + 1, pushes, later);
    var b := pushes + later;
    assert AllFrom(i + 1, b);
    assert forall x | 0 <= x < |b| :: b[x] in b;
  }

  /** The processors from the i-th on are closed in turn, and each is called no more after that. */
  lemma {:induction false} ClosesInTurn<S, E>(i: nat, procs: seq<Processor<S, E, E>>, states: seq<S>)
    requires |states| == |procs|
    ensures Orderly(CloseCalls(i, procs, states)) && AllFrom(i, CloseCalls(i, procs, states))
    decreases |procs|
  {
    if procs != [] {
      match procs[0].close(states[0]) {
        case None => OneClose(i, [], []);
        case Some((_, ys)) =>
          ThroughPushes(i + 1, procs[1..], states[1..], ys);
          var pushes := ThroughCalls(i + 1, procs[1..], states[1..], ys);
          match Through(procs[1..], states[1..], ys) {
            case None => OneClose(i, pushes, []);
            case Some((rest, _)) =>
              ClosesInTurn(i + 1, procs[1..], rest);
              OneClose(i, pushes, CloseCalls(i + 1, procs[1..], rest));
          }
      }
    }
  }

  predicate ClosesFrom(i: nat, n: nat, calls: seq<Call>) {
    forall j: nat | i <= j < i + n :: Closed(j) in calls
  }

  lemma OneMoreClosed(i: nat, n: nat, pushes: seq<Call>, later: seq<Call>)
    requires ClosesFrom(i + 1, n, later)
    ensures ClosesFrom(i, n + 1, [Closed(i)] + (pushes + later))
  {
    forall j: nat | i <= j < i + n + 1 ensures Closed(j) in [Closed(i)] + (pushes + later) {
      assert j > i ==> Closed(j) in later;
    }
  }

  lemma {:induction false} AllAreClosed<S, E>(i: nat, procs: seq<Processor<S, E, E>>, states: seq<S>)
    requires |states| == |procs| && CloseAll(procs, states).Some?
    ensures ClosesFrom(i, |procs|, CloseCalls(i, procs, states))
    decreases |procs|
  {
    if procs != [] {
      var ys := procs[0].close(states[0]).value.1;
      var rest := Through(procs[1..], states[1..], ys).value.0;
      AllAreClosed(i + 1, procs[1..], rest);
      OneMoreClosed(i, |procs| - 1, ThroughCalls(i + 1, procs[1..], states[1..], ys), CloseCalls(i + 1, procs[1..], rest));
    }
  }

  /**
   In every run, whether it succeeds or fails: no processor is pushed or closed after
   its own close.  A run that succeeds has closed every processor.
   */
  lemma {:induction false} NoPushAfterClose<S, E>(procs: seq<Processor<S, E, E>>, states: seq<S>, xs: seq<E>)
    requires |states| == |procs|
    ensures Orderly(RunCalls(procs, states, xs))
    ensures Whole(AsProcessor(procs), states, xs).Some? ==> ClosesFrom(0, |procs|, RunCalls(procs, states, xs))
    decreases |xs|
  {
    if xs == [] {
      ClosesInTurn(0, procs, states);
      if CloseAll(procs, states).Some? {
        AllAreClosed(0, procs, states);
      }
    } else {
      ThroughPushes(0, procs, states, [xs[0]]);
      match Through(procs, states, [xs[0]]) {
        case None => PushesFirst(0, ThroughCalls(0, procs, states, [xs[0]]), []);
        case Some((states1, out)) =>
          NoPushAfterClose(procs, states1, xs[1..]);
          PushesFirst(0, ThroughCalls(0, procs, states, [xs[0]]), RunCalls(procs, states1, xs[1..]));
          WholeStep(AsProcessor(procs), states, xs, states1, out);
      }
    }
  }

  // ------------------------------------------------------------------
  // The chain as the source has it
  // ------------------------------------------------------------------

  /** What remains to be done of Feed, in front of it what was put out so far. */
  function Rest<S, A, B>(p: Processor<S, A, B>, s: S, xs: seq<A>, out: seq<B>): Option<(S, seq<B>)> {
    match Feed(p, s, xs) { case None => None case Some((s1, more)) => Some((s1, out + more)) }
  }

  lemma RestEnds<S, A, B>(p: Processor<S, A, B>, s: S, xs: seq<A>, out: seq<B>)
    ensures Rest(p, s, xs[0..], []) == Feed(p, s, xs)
    ensures Rest(p, s, xs[|xs|..], out) == Some((s, out))
  {
    assert xs[0..] == xs && out + [] == out;
    match Feed(p, s, xs) {
      case None =>
      case Some((s1, more)) => assert [] + more == more;
    }
  }

  function RestNext<S, A, B>(p: Processor<S, A, B>, s: S, xs: seq<A>, k: nat, out: seq<B>): Option<(S, seq<B>)>
    requires k < |xs|
  {
    match p.push(s, xs[k])
    case None => None
    case Some((s1, more)) => Rest(p, s1, xs[k + 1..], out + more)
  }

  lemma RestStep<S, A, B>(p: Processor<S, A, B>, s: S, xs: seq<A>, k: nat, out: seq<B>)
    requires k < |xs|
    ensures Rest(p, s, xs[k..], out) == RestNext(p, s, xs, k, out)
  {
    assert xs[k..][1..] == xs[k + 1..];
    match p.push(s, xs[k]) {
      case None =>
      case Some((s1, more)) =>
        match Feed(p, s1, xs[k + 1..]) {
          case None =>
          case Some((s2, rest)) => assert out + (more + rest) == (out + more) + rest;
        }
    }
  }

  /** Values through the processors from number i on; the states of the earlier ones stay. */
  function From<S, E>(procs: seq<Processor<S, E, E>>, states: seq<S>, i: nat, xs: seq<E>): (r: Option<(seq<S>, seq<E>)>)
    requires |states| == |procs| && i <= |procs|
    ensures r.Some? ==> |r.value.0| == |procs|
  {
    match Through(procs[i..], states[i..], xs) { case None => None case Some((rest, out)) => Some((states[..i] + rest, out)) }
  }

  function FromNext<S, E>(procs: seq<Processor<S, E, E>>, states: seq<S>, i: nat, xs: seq<E>): Option<(seq<S>, seq<E>)>
    requires |states| == |procs| && i < |procs|
  {
    match Feed(procs[i], states[i], xs)
    case None => None
    case Some((s, ys)) => From(procs, states[i := s], i + 1, ys)
  }

  lemma FromStep<S, E>(procs: seq<Processor<S, E, E>>, states: seq<S>, i: nat, xs: seq<E>)
    requires |states| == |procs| && i < |procs|
    ensures From(procs, states, i, xs) == FromNext(procs, states, i, xs)
  {
    assert procs[i..][1..] == procs[i + 1..] && states[i..][1..] == states[i + 1..];
    match Feed(procs[i], states[i], xs) {
      case None =>
      case Some((s, ys)) =>
        assert states[i := s][i + 1..] == states[i + 1..];
        match Through(procs[i + 1..], states[i + 1..], ys) {
          case None =>
          case Some((rest, zs)) => assert states[..i] + ([s] + rest) == states[i := s][..i + 1] + rest;
        }
    }
  }

  lemma FromNothing<S, E>(procs: seq<Processor<S, E, E>>, states: seq<S>, i: nat)
    requires |states| == |procs| && i <= |procs|
    ensures From(procs, states, i, []) == Some((states, []))
  {
    ThroughNothing(procs[i..], states[i..]);
    assert states[..i] + states[i..] == states;
  }

  lemma FromEnd<S, E>(procs: seq<Processor<S, E, E>>, states: seq<S>, xs: seq<E>)
    requires |states| == |procs|
    ensures From(procs, states, |procs|, xs) == Some((states, xs))
  {
    assert states[..|procs|] + [] == states;
  }

  class Chain<S, E> {
    const processors: seq<Processor<S, E, E>>
    var states: seq<S>

    predicate Valid()
      reads this
    {
      |states| == |processors|
    }

    constructor (processors: seq<Processor<S, E, E>>, states: seq<S>)
      requires |states| == |processors|
      ensures Valid() && this.processors == processors && this.states == states
    {
      this.processors := processors;
      this.states := states;
    }

    /** One processor pushed with each value in turn. */
    method PushEach(i: nat, values: seq<E>) returns (r: Option<seq<E>>)
      requires Valid() && i < |processors|
      modifies this
      ensures Valid()
      ensures r.None? <==> Feed(processors[i], old(states[i]), values).None?
      ensures r.Some? ==>
        && states == old(states)[i := states[i]]
        && Feed(processors[i], old(states[i]), values) == Some((states[i], r.value))
    {
      var next: seq<E> := [];
      RestEnds(processors[i], states[i], values, next);
      for k := 0 to |values|
        invariant Valid() && states == old(states)[i := states[i]]
        invariant Rest(processors[i], states[i], values[k..], next) == Feed(processors[i], old(states[i]), values)
      {
        RestStep(processors[i], states[i], values, k, next);
        match processors[i].push(states[i], values[k]) {
          case None =>
            return None;
          case Some((s, produced)) =>
            states := states[i := s];
            next := next + produced;
        }
      }
      RestEnds(processors[i], states[i], values, next);
      return Some(next);
    }

    method PushThrough(values: seq<E>, start: nat) returns (r: Option<seq<E>>)
      requires Valid() && start <= |processors|
      modifies this
      ensures Valid()
      ensures r.None? <==> From(processors, old(states), start, values).None?
      ensures r.Some? ==> From(processors, old(states), start, values) == Some((states, r.value))
    {
      var current := values;
      var i := start;
      while i < |processors|
        invariant start <= i <= |processors| && Valid()
        invariant From(processors, states, i, current) == From(processors, old(states), start, values)
      {
        FromStep(processors, states, i, current);
        var next := PushEach(i, current);
        if next.None? {
          return None;
        }
        current := next.value;
        i := i + 1;
        if |current| == 0 {
          FromNothing(processors, states, i);
          break;
        }
      }
      if i == |processors| {
        FromEnd(processors, states, current);
      }
      return Some(current);
    }

    method Push(ev: E) returns (r: Option<seq<E>>)
      requires Valid()
      modifies this
      ensures Valid()
      ensures r.None? <==> AsProcessor(processors).push(old(states), ev).None?
      ensures r.Some? ==> AsProcessor(processors).push(old(states), ev) == Some((states, r.value))
    {
      r := PushThrough([ev], 0);
      FromZero(processors, old(states), [ev]);
    }

    method Close() returns (r: Option<seq<E>>)
      requires Valid()
      modifies this
      ensures Valid()
      ensures r.None? <==> AsProcessor(processors).close(old(states)).None?
      ensures r.Some? ==> AsProcessor(processors).close(old(states)) == Some((states, r.value))
    {
      var out: seq<E> := [];
      ClosingStart(processors, states);
      for i := 0 to |processors|
        invariant Valid()
        invariant ClosingFrom(processors, states, i, out) == CloseAll(processors, old(states))
      {
        ClosingStep(processors, states, i, out);
        match processors[i].close(states[i]) {
          case None =>
            return None;
          case Some((s, produced)) =>
            states := states[i := s];
            var cascaded := PushThrough(produced, i + 1);
            if cascaded.None? {
              return None;
            }
            out := out + cascaded.value;
        }
      }
      assert states[..|processors|] + [] == states && out + [] == out;
      return Some(out);
    }
  }

  lemma FromZero<S, E>(procs: seq<Processor<S, E, E>>, states: seq<S>, xs: seq<E>)
    requires |states| == |procs|
    ensures From(procs, states, 0, xs) == Through(procs, states, xs)
  {
    assert procs[0..] == procs && states[0..] == states;
    match Through(procs, states, xs) {
      case None =>
      case Some((rest, out)) => assert states[..0] + rest == rest;
    }
  }

  /** The processors from number i on closed, in front of it what was put out so far. */
  function ClosingFrom<S, E>(procs: seq<Processor<S, E, E>>, states: seq<S>, i: nat, out: seq<E>): Option<(seq<S>, seq<E>)>
    requires |states| == |procs| && i <= |procs|
  {
    match CloseAll(procs[i..], states[i..])
    case None => None
    case Some((rest, more)) => Some((states[..i] + rest, out + more))
  }

  lemma ClosingStart<S, E>(procs: seq<Processor<S, E, E>>, states: seq<S>)
    requires |states| == |procs|
    ensures ClosingFrom(procs, states, 0, []) == CloseAll(procs, states)
  {
    assert procs[0..] == procs && states[0..] == states;
    match CloseAll(procs, states) {
      case None =>
      case Some((rest, more)) => assert states[..0] + rest == rest && [] + more == more;
    }
  }

  function ClosingNext<S, E>(procs: seq<Processor<S, E, E>>, states: seq<S>, i: nat, out: seq<E>): Option<(seq<S>, seq<E>)>
    requires |states| == |procs| && i < |procs|
  {
    match procs[i].close(states[i])
    case None => None
    case Some((s, ys)) =>
      match From(procs, states[i := s], i + 1, ys)
      case None => None
      case Some((states1, zs)) => ClosingFrom(procs, states1, i + 1, out + zs)
  }

  lemma ClosingStep<S, E>(procs: seq<Processor<S, E, E>>, states: seq<S>, i: nat, out: seq<E>)
    requires |states| == |procs| && i < |procs|
    ensures ClosingFrom(procs, states, i, out) == ClosingNext(procs, states, i, out)
  {
    assert procs[i..][1..] == procs[i + 1..] && states[i..][1..] == states[i + 1..];
    match procs[i].close(states[i]) {
      case None =>
      case Some((s, ys)) =>
        var states0 := states[i := s];
        assert states0[i + 1..] == states[i + 1..];
        match Through(procs[i + 1..], states[i + 1..], ys) {
          case None =>
          case Some((rest, zs)) =>
            var states1 := states0[..i + 1] + rest;
            assert states1[i + 1..] == rest;
            match CloseAll(procs[i + 1..], rest) {
              case None =>
              case Some((rest', more)) =>
                assert states[..i] + ([s] + rest') == states1[..i + 1] + rest';
                assert out + (zs + more) == (out + zs) + more;
            }
        }
    }
  }
}
