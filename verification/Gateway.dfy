/** The gateway: routes tried in order of health, one response body. */
module Gateway {
  import opened Wrappers

  datatype Route = Route(provider: string, api: string, nativeModel: string, publicModel: string)

  function RouteKey(r: Route): string {
    r.provider + "/" + r.api + "/" + FirstNonEmpty(r.nativeModel, r.publicModel)
  }

  // ------------------------------------------------------------------
  // Health
  // ------------------------------------------------------------------

  type Failures = map<string, int>

  predicate Cooling(failures: Failures, cooldown: int, key: string, now: int) {
    cooldown > 0 && key in failures && now - failures[key] < cooldown
  }

  /** What happens to a tracker: a failure at some time, a success, a question at some time. */
  datatype Mark = Failed(key: string, at: int) | Succeeded(key: string) | Asked(key: string, now: int)

  function Apply(failures: Failures, cooldown: int, mark: Mark): Failures {
    match mark
    case Failed(key, at) => if cooldown <= 0 then failures else failures[key := at]
    case Succeeded(key) => failures - {key}
    case Asked(key, now) => if cooldown > 0 && !Cooling(failures, cooldown, key, now) then failures - {key} else failures
  }

  function ApplyAll(cooldown: int, marks: seq<Mark>): Failures {
    if marks == [] then map[] else Apply(ApplyAll(cooldown, marks[..|marks| - 1]), cooldown, marks[|marks| - 1])
  }

  /** When the route with this key last failed, if it has not succeeded since. */
  function LastFailure(marks: seq<Mark>, key: string): Option<int> {
    if marks == [] then None
    else match marks[|marks| - 1]
      case Failed(k, at) => if k == key then Some(at) else LastFailure(marks[..|marks| - 1], key)
      case Succeeded(k) => if k == key then None else LastFailure(marks[..|marks| - 1], key)
      case Asked(_, _) => LastFailure(marks[..|marks| - 1], key)
  }

  /** Times do not run backwards, up to now. */
  predicate InTime(marks: seq<Mark>, now: int) {
    if marks == [] then true
    else match marks[|marks| - 1]
      case Failed(_, at) => at <= now && InTime(marks[..|marks| - 1], at)
      case Succeeded(_) => InTime(marks[..|marks| - 1], now)
      case Asked(_, at) => at <= now && InTime(marks[..|marks| - 1], at)
  }

  lemma {:induction false} Later(marks: seq<Mark>, t: int, now: int)
    requires InTime(marks, t) && t <= now
    ensures InTime(marks, now)
  {
    if marks != [] && marks[|marks| - 1].Succeeded? {
      Later(marks[..|marks| - 1], t, now);
    }
  }

  /**
   Whatever was marked and asked before, in any order over any routes, a route is
   cooling exactly when its last mark is a failure less than the cooldown ago: the
   entries that questions remove are never missed.
   */
  lemma {:induction false} CoolingIsLastFailure(cooldown: int, marks: seq<Mark>, key: string, now: int)
    requires InTime(marks, now)
    ensures Cooling(ApplyAll(cooldown, marks), cooldown, key, now)
        <==> cooldown > 0 && LastFailure(marks, key).Some? && now - LastFailure(marks, key).value < cooldown
    ensures cooldown <= 0 ==> key !in ApplyAll(cooldown, marks)
    ensures key in ApplyAll(cooldown, marks) ==> LastFailure(marks, key) == Some(ApplyAll(cooldown, marks)[key])
  {
    if marks != [] {
      var front := marks[..|marks| - 1];
      match marks[|marks| - 1] {
        case Failed(k, at) =>
          Later(front, at, now);
          CoolingIsLastFailure(cooldown, front, key, now);
        case Succeeded(k) =>
          CoolingIsLastFailure(cooldown, front, key, now);
        case Asked(k, at) =>
          CoolingIsLastFailure(cooldown, front, key, at);
          Later(front, at, now);
          CoolingIsLastFailure(cooldown, front, key, now);
      }
    }
  }

  class HealthTracker {
    const cooldown: int
    var failures: Failures

    constructor (cooldown: int)
      ensures this.cooldown == cooldown && failures == map[]
    {
      this.cooldown := cooldown;
      failures := map[];
    }

    method MarkFailure(route: Route, now: int)
      modifies this
      ensures failures == Apply(old(failures), cooldown, Failed(RouteKey(route), now))
    {
      if cooldown <= 0 {
        return;
      }
      failures := failures[RouteKey(route) := now];
    }

    method MarkSuccess(route: Route)
      modifies this
      ensures failures == Apply(old(failures), cooldown, Succeeded(RouteKey(route)))
    {
      failures := failures - {RouteKey(route)};
    }

    method Unhealthy(route: Route, now: int) returns (r: bool)
      modifies this
      ensures r == Cooling(old(failures), cooldown, RouteKey(route), now)
      ensures failures == Apply(old(failures), cooldown, Asked(RouteKey(route), now))
    {
      if cooldown <= 0 {
        return false;
      }
      if RouteKey(route) !in failures {
        assert failures - {RouteKey(route)} == failures;
        return false;
      }
      if now - failures[RouteKey(route)] >= cooldown {
        failures := failures - {RouteKey(route)};
        return false;
      }
      return true;
    }
  }

  // ------------------------------------------------------------------
  // Order
  // ------------------------------------------------------------------

  /** The routes that are cooling, or those that are not, in router order. */
  function Those(routes: seq<Route>, failures: Failures, cooldown: int, now: int, cooling: bool): seq<Route> {
    if routes == [] then []
    else
      Those(routes[..|routes| - 1], failures, cooldown, now, cooling)
      + if Cooling(failures, cooldown, RouteKey(routes[|routes| - 1]), now) == cooling then [routes[|routes| - 1]] else []
  }

  function Ordered(routes: seq<Route>, failures: Failures, cooldown: int, now: int): seq<Route> {
    Those(routes, failures, cooldown, now, false) + Those(routes, failures, cooldown, now, true)
  }

  lemma {:induction false} ThoseAre(routes: seq<Route>, failures: Failures, cooldown: int, now: int, cooling: bool)
    ensures forall r | r in Those(routes, failures, cooldown, now, cooling) ::
              Cooling(failures, cooldown, RouteKey(r), now) == cooling
  {
    if routes != [] {
      ThoseAre(routes[..|routes| - 1], failures, cooldown, now, cooling);
    }
  }

  lemma {:induction false} OrderedPermutes(routes: seq<Route>, failures: Failures, cooldown: int, now: int)
    ensures multiset(Ordered(routes, failures, cooldown, now)) == multiset(routes)
  {
    if routes != [] {
      var front := routes[..|routes| - 1];
      OrderedPermutes(front, failures, cooldown, now);
      assert routes == front + [routes[|routes| - 1]];
    }
  }

  /** The order tried is a permutation of the router's, healthy routes before cooling ones. */
  lemma HealthyFirst(routes: seq<Route>, failures: Failures, cooldown: int, now: int, i: nat, j: nat)
    requires i < j < |Ordered(routes, failures, cooldown, now)|
    ensures multiset(Ordered(routes, failures, cooldown, now)) == multiset(routes)
    ensures
      var ordered := Ordered(routes, failures, cooldown, now);
      Cooling(failures, cooldown, RouteKey(ordered[i]), now) ==> Cooling(failures, cooldown, RouteKey(ordered[j]), now)
  {
    OrderedPermutes(routes, failures, cooldown, now);
    ThoseAre(routes, failures, cooldown, now, false);
    ThoseAre(routes, failures, cooldown, now, true);
    var healthy := Those(routes, failures, cooldown, now, false);
    var cooling := Those(routes, failures, cooldown, now, true);
    if i < |healthy| {
      assert Ordered(routes, failures, cooldown, now)[i] == healthy[i] && healthy[i] in healthy;
    } else {
      assert Ordered(routes, failures, cooldown, now)[j] == cooling[j - |healthy|];
      assert cooling[j - |healthy|] in cooling;
    }
  }

  /** Questions about other routes, or repeated ones, do not change an answer. */
  lemma AskingIsHarmless(failures: Failures, cooldown: int, asked: string, key: string, now: int)
    ensures Cooling(Apply(failures, cooldown, Asked(asked, now)), cooldown, key, now) == Cooling(failures, cooldown, key, now)
  {
  }

  /** The tracker after it was asked about the routes in turn. */
  function AskedAll(failures: Failures, cooldown: int, routes: seq<Route>, now: int): Failures {
    if routes == [] then failures
    else Apply(AskedAll(failures, cooldown, routes[..|routes| - 1], now), cooldown, Asked(RouteKey(routes[|routes| - 1]), now))
  }

  lemma {:induction false} AskingAllIsHarmless(failures: Failures, cooldown: int, routes: seq<Route>, key: string, now: int)
    ensures Cooling(AskedAll(failures, cooldown, routes, now), cooldown, key, now) == Cooling(failures, cooldown, key, now)
  {
    if routes != [] {
      var front := routes[..|routes| - 1];
      AskingAllIsHarmless(failures, cooldown, front, key, now);
      AskingIsHarmless(AskedAll(failures, cooldown, front, now), cooldown, RouteKey(routes[|routes| - 1]), key, now);
    }
  }

  /**
   The routes of `routes`, each once: ordered[i] is the one at position at[i].  Healthy
   ones come before cooling ones, and among each the router's order is kept.
   */
  ghost predicate InHealthOrder(routes: seq<Route>, ordered: seq<Route>, at: seq<nat>, failures: Failures, cooldown: int, now: int) {
    && |ordered| == |at| == |routes|
    && (forall i | 0 <= i < |at| :: at[i] < |routes| && ordered[i] == routes[at[i]])
    && (forall i, j | 0 <= i < j < |at| :: at[i] != at[j])
    && (forall i, j | 0 <= i < j < |at| :: Sick(ordered[i], failures, cooldown, now) ==> Sick(ordered[j], failures, cooldown, now))
    && (forall i, j | 0 <= i < j < |at| && Sick(ordered[i], failures, cooldown, now) == Sick(ordered[j], failures, cooldown, now) ::
          at[i] < at[j])
  }

  predicate Sick(r: Route, failures: Failures, cooldown: int, now: int) {
    Cooling(failures, cooldown, RouteKey(r), now)
  }

  /** Where Those come from. */
  ghost predicate Picks(routes: seq<Route>, those: seq<Route>, at: seq<nat>, failures: Failures, cooldown: int, now: int, cooling: bool) {
    && |those| == |at|
    && (forall i | 0 <= i < |at| :: at[i] < |routes| && those[i] == routes[at[i]] && Sick(those[i], failures, cooldown, now) == cooling)
    && (forall i, j | 0 <= i < j < |at| :: at[i] < at[j])
  }

  lemma {:induction false} ThoseArePicked(routes: seq<Route>, failures: Failures, cooldown: int, now: int, cooling: bool) returns (at: seq<nat>)
    ensures Picks(routes, Those(routes, failures, cooldown, now, cooling), at, failures, cooldown, now, cooling)
  {
    at := [];
    if routes != [] {
      at := ThoseArePicked(routes[..|routes| - 1], failures, cooldown, now, cooling);
      if Sick(routes[|routes| - 1], failures, cooldown, now) == cooling {
        at := at + [|routes| - 1];
      }
    }
  }

  /** The order tried keeps the router's order on both sides. */
  lemma OrderedKeepsOrder(routes: seq<Route>, failures: Failures, cooldown: int, now: int) returns (at: seq<nat>)
    ensures InHealthOrder(routes, Ordered(routes, failures, cooldown, now), at, failures, cooldown, now)
  {
    var healthy := ThoseArePicked(routes, failures, cooldown, now, false);
    var cooling := ThoseArePicked(routes, failures, cooldown, now, true);
    OrderedPermutes(routes, failures, cooldown, now);
    assert |Ordered(routes, failures, cooldown, now)| == |multiset(routes)| == |routes|;
    at := healthy + cooling;
    PicksJoin(routes, Those(routes, failures, cooldown, now, false), healthy, Those(routes, failures, cooldown, now, true), cooling,
              failures, cooldown, now);
  }

  lemma PicksJoin(routes: seq<Route>, a: seq<Route>, atA: seq<nat>, b: seq<Route>, atB: seq<nat>, failures: Failures, cooldown: int, now: int)
    requires Picks(routes, a, atA, failures, cooldown, now, false) && Picks(routes, b, atB, failures, cooldown, now, true)
    requires |a + b| == |routes|
    ensures InHealthOrder(routes, a + b, atA + atB, failures, cooldown, now)
  {
    var ordered, at := a + b, atA + atB;
    forall i | 0 <= i < |at| ensures at[i] < |routes| && ordered[i] == routes[at[i]] && (Sick(ordered[i], failures, cooldown, now) <==> i >= |a|) {
      if i < |a| {
        assert ordered[i] == a[i] && at[i] == atA[i];
      } else {
        assert ordered[i] == b[i - |a|] && at[i] == atB[i - |a|];
      }
    }
  }

  method OrderByHealth(routes: seq<Route>, health: HealthTracker?, now: int) returns (r: seq<Route>)
    modifies health
    ensures health != null ==> exists at :: InHealthOrder(routes, r, at, old(health.failures), health.cooldown, now)
    ensures r == if health == null || |routes| < 2 then routes else Ordered(routes, old(health.failures), health.cooldown, now)
    ensures health != null ==>
      health.failures == if |routes| < 2 then old(health.failures)
                         else AskedAll(old(health.failures), health.cooldown, routes, now)
  {
    if health == null || |routes| < 2 {
      ghost var same: seq<nat> := seq(|routes|, i => i);
      assert health != null ==> InHealthOrder(routes, routes, same, health.failures, health.cooldown, now);
      return routes;
    }
    ghost var failures := health.failures;
    var ordered: seq<Route> := [];
    var unhealthy: seq<Route> := [];
    for k := 0 to |routes|
      invariant ordered == Those(routes[..k], failures, health.cooldown, now, false)
      invariant unhealthy == Those(routes[..k], failures, health.cooldown, now, true)
      invariant health.failures == AskedAll(failures, health.cooldown, routes[..k], now)
    {
      assert routes[..k + 1][..k] == routes[..k];
      AskingAllIsHarmless(failures, health.cooldown, routes[..k], RouteKey(routes[k]), now);
      var sick := health.Unhealthy(routes[k], now);
      if sick {
        unhealthy := unhealthy + [routes[k]];
      } else {
        ordered := ordered + [routes[k]];
      }
    }
    assert routes[..|routes|] == routes;
    ghost var at := OrderedKeepsOrder(routes, failures, health.cooldown, now);
    return ordered + unhealthy;
  }

  // ------------------------------------------------------------------
  // Attempts
  // ------------------------------------------------------------------

  /**
   How an attempt may go: the client refuses, or the endpoint writes some chunks and
   then succeeds or fails.  A chunk is one call of Write or WriteHeader.
   */
  datatype Try =
    | Refused(retryable: bool)
    | Written(chunks: nat)
    | Broken(chunks: nat, retryable: bool)

  /** Where a chunk of the response body comes from: an attempt, by its number, or the error message. */
  datatype Origin = FromAttempt(k: nat) | FromError

  predicate Stops(t: Try) {
    t.Written? || (t.Broken? && t.chunks > 0) || !t.retryable
  }

  predicate ReachedMaxAttempts(attempts: int, most: int) { most > 0 && attempts >= most }

  /** Attempts made with n routes: up to the first that stops, the limit, or the last route. */
  function Attempts(n: nat, most: int, outcome: nat -> Try, k: nat): (r: nat)
    requires k <= n
    ensures k <= r <= n
    ensures most > 0 && k <= most ==> r <= most
    decreases n - k
  {
    if k == n || ReachedMaxAttempts(k, most) then k
    else if Stops(outcome(k)) then k + 1
    else Attempts(n, most, outcome, k + 1)
  }

  /** The answer is a route's: the last attempt succeeded, or wrote something before it broke. */
  predicate Answered(outcome: nat -> Try, tried: nat) {
    tried > 0 && (outcome(tried - 1).Written? || (outcome(tried - 1).Broken? && outcome(tried - 1).chunks > 0))
  }

  function Chunks(origin: Origin, n: nat): (r: seq<Origin>)
    ensures |r| == n && forall k | 0 <= k < n :: r[k] == origin
  {
    seq(n, k => origin)
  }

  /** What an attempt means for the loop: the answer is given, the next route is tried, or no other is. */
  datatype Verdict = Done | Again | Fatal

  /** After a break it matters whether anything was written, by whichever attempt. */
  function VerdictOf(wrote: bool, t: Try): Verdict {
    if t.Written? || (t.Broken? && (wrote || t.chunks > 0)) then Done else if t.retryable then Again else Fatal
  }

  function ChunksOf(t: Try, k: nat): seq<Origin> {
    if t.Refused? then [] else Chunks(FromAttempt(k), t.chunks)
  }

  /** All that the first n attempts write, to the one writer they share. */
  function AllChunks(outcome: nat -> Try, n: nat): seq<Origin> {
    if n == 0 then [] else AllChunks(outcome, n - 1) + ChunksOf(outcome(n - 1), n - 1)
  }

  function MarkOf(t: Try, route: Route, at: int): Mark {
    if t.Written? then Succeeded(RouteKey(route)) else Failed(RouteKey(route), at)
  }

  /** The tracker after the first n attempts. */
  function MarkedAll(failures: Failures, cooldown: int, routes: seq<Route>, n: nat, outcome: nat -> Try,
      clock: nat -> int): Failures
    requires n <= |routes|
  {
    if n == 0 then failures
    else Apply(MarkedAll(failures, cooldown, routes, n - 1, outcome, clock), cooldown,
               MarkOf(outcome(n - 1), routes[n - 1], clock(n - 1)))
  }

  /** One route tried: its client asked, its events written after what is there, its health marked. */
  method Attempt(health: HealthTracker?, route: Route, t: Try, k: nat, at: int, written: seq<Origin>)
    returns (body: seq<Origin>, next: Verdict)
    modifies health
    ensures body == written + ChunksOf(t, k) && next == VerdictOf(written != [], t)
    ensures health != null ==> health.failures == Apply(old(health.failures), health.cooldown, MarkOf(t, route, at))
  {
    body := written;
    if t.Refused? {
      if health != null {
        health.MarkFailure(route, at);
      }
      return body, if t.retryable then Again else Fatal;
    }
    body := body + Chunks(FromAttempt(k), t.chunks);
    if t.Broken? {
      if health != null {
        health.MarkFailure(route, at);
      }
      var wrote := |body| > 0;
      if wrote {
        return body, Done;
      }
      return body, if t.retryable then Again else Fatal;
    }
    if health != null {
      health.MarkSuccess(route);
    }
    next := Done;
  }

  predicate NoneStopped(outcome: nat -> Try, n: nat) {
    n == 0 || (!Stops(outcome(n - 1)) && NoneStopped(outcome, n - 1))
  }

  /** Attempts that do not stop the loop write nothing. */
  lemma {:induction false} SilentSoFar(outcome: nat -> Try, n: nat)
    requires NoneStopped(outcome, n)
    ensures AllChunks(outcome, n) == []
  {
    if n > 0 {
      SilentSoFar(outcome, n - 1);
    }
  }

  lemma {:induction false} NoneStoppedAt(outcome: nat -> Try, n: nat, k: nat)
    requires NoneStopped(outcome, n) && k < n
    ensures !Stops(outcome(k))
  {
    if k < n - 1 {
      NoneStoppedAt(outcome, n - 1, k);
    }
  }

  /** r attempts are made: none before the last stops the loop, and after r there is a reason to end. */
  predicate Makes(n: nat, most: int, outcome: nat -> Try, r: nat) {
    && r <= n
    && (r > 0 ==> NoneStopped(outcome, r - 1) && !ReachedMaxAttempts(r - 1, most))
    && (r == n || ReachedMaxAttempts(r, most) || (r > 0 && Stops(outcome(r - 1))))
  }

  lemma {:induction false} MakesAttempts(n: nat, most: int, outcome: nat -> Try, k: nat, r: nat)
    requires k <= r && Makes(n, most, outcome, r)
    requires k == r ==> k == n || ReachedMaxAttempts(r, most)
    ensures Attempts(n, most, outcome, k) == r
    decreases r - k
  {
    if k + 1 < r {
      NoneStoppedAt(outcome, r - 1, k);
      MakesAttempts(n, most, outcome, k + 1, r);
    }
  }

  lemma OneMoreAttempt(outcome: nat -> Try, k: nat)
    requires NoneStopped(outcome, k)
    ensures AllChunks(outcome, k) == [] && AllChunks(outcome, k + 1) == ChunksOf(outcome(k), k)
    ensures NoneStopped(outcome, k + 1) <==> VerdictOf(false, outcome(k)) == Again
    ensures Answered(outcome, k + 1) <==> VerdictOf(false, outcome(k)) == Done
    ensures VerdictOf(false, outcome(k)) != Done ==> ChunksOf(outcome(k), k) == []
  {
    SilentSoFar(outcome, k);
  }

  /** The loop over the routes. */
  method TryRoutes(ordered: seq<Route>, health: HealthTracker?, maxAttempts: int, outcome: nat -> Try, clock: nat -> int)
    returns (body: seq<Origin>, attempts: nat, answered: bool)
    modifies health
    ensures Makes(|ordered|, maxAttempts, outcome, attempts)
    ensures answered == Answered(outcome, attempts)
    ensures body == AllChunks(outcome, attempts)
    ensures health != null ==>
      health.failures == MarkedAll(old(health.failures), health.cooldown, ordered, attempts, outcome, clock)
  {
    body, attempts, answered := [], 0, false;
    while attempts < |ordered|
      invariant attempts <= |ordered| && body == AllChunks(outcome, attempts) && !answered
      invariant NoneStopped(outcome, attempts)
      invariant attempts > 0 ==> !ReachedMaxAttempts(attempts - 1, maxAttempts)
      invariant health != null ==>
        health.failures == MarkedAll(old(health.failures), health.cooldown, ordered, attempts, outcome, clock)
      decreases |ordered| - attempts
    {
      OneMoreAttempt(outcome, attempts);
      if ReachedMaxAttempts(attempts, maxAttempts) {
        break;
      }
      var k := attempts;
      attempts := attempts + 1;
      var next;
      body, next := Attempt(health, ordered[k], outcome(k), k, clock(k), body);
      if next == Done {
        return body, attempts, true;
      }
      if next == Fatal {
        break;
      }
    }
  }

  /** Whether an error is written after the attempts made, and all that is written. */
  predicate Errs(outcome: nat -> Try, tried: nat) { tried > 0 && !Answered(outcome, tried) }

  function Body(outcome: nat -> Try, tried: nat, errorChunks: nat): seq<Origin> {
    AllChunks(outcome, tried) + if Errs(outcome, tried) then Chunks(FromError, errorChunks) else []
  }

  lemma MarkedPrefix(failures: Failures, cooldown: int, routes: seq<Route>, n: nat, outcome: nat -> Try,
      clock: nat -> int)
    requires n <= |routes|
    ensures MarkedAll(failures, cooldown, routes[..n], n, outcome, clock) == MarkedAll(failures, cooldown, routes, n, outcome, clock)
  {
    MarkedOnly(failures, cooldown, routes, routes[..n], n, outcome, clock);
  }

  lemma {:induction false} MarkedOnly(failures: Failures, cooldown: int, a: seq<Route>, b: seq<Route>, n: nat, outcome: nat -> Try,
      clock: nat -> int)
    requires n <= |a| && n <= |b| && forall k | 0 <= k < n :: a[k] == b[k]
    ensures MarkedAll(failures, cooldown, a, n, outcome, clock) == MarkedAll(failures, cooldown, b, n, outcome, clock)
  {
    if n > 0 {
      MarkedOnly(failures, cooldown, a, b, n - 1, outcome, clock);
    }
  }

  /**
   The handler.  decoded says whether the request could be read, routes are the
   router's candidates unless it failed, outcome says how the k-th attempt goes and
   clock when it ends, errorChunks how much an error message writes.
   */
  method ServeHTTP(decoded: bool, routes: Option<seq<Route>>, health: HealthTracker?, maxAttempts: int,
      outcome: nat -> Try, now: int, clock: nat -> int, errorChunks: nat)
    returns (body: seq<Origin>, tried: seq<Route>, errors: nat)
    modifies health
    ensures !decoded || routes.None? ==> tried == [] && errors == 1 && body == Chunks(FromError, errorChunks)
    ensures decoded && routes.Some? ==>
      var ordered := if health == null || |routes.value| < 2 then routes.value
                     else Ordered(routes.value, old(health.failures), health.cooldown, now);
      && tried == ordered[..Attempts(|ordered|, maxAttempts, outcome, 0)]
      && errors == (if Errs(outcome, |tried|) then 1 else 0)
      && body == Body(outcome, |tried|, errorChunks)
    ensures decoded && routes.Some? && health != null ==>
      var asked := if |routes.value| < 2 then old(health.failures)
                   else AskedAll(old(health.failures), health.cooldown, routes.value, now);
      health.failures == MarkedAll(asked, health.cooldown, tried, |tried|, outcome, clock)
  {
    if !decoded || routes.None? {
      return Chunks(FromError, errorChunks), [], 1;
    }
    var ordered := OrderByHealth(routes.value, health, now);
    ghost var asked := if health == null then map[] else health.failures;
    var attempts, answered;
    body, attempts, answered := TryRoutes(ordered, health, maxAttempts, outcome, clock);
    MakesAttempts(|ordered|, maxAttempts, outcome, 0, attempts);
    if health != null {
      MarkedPrefix(asked, health.cooldown, ordered, attempts, outcome, clock);
    }
    tried := ordered[..attempts];
    errors := 0;
    if !answered && attempts > 0 {
      body := body + Chunks(FromError, errorChunks);
      errors := 1;
    }
  }

  /** Only the last attempt may stop the loop. */
  lemma {:induction false} AttemptsGoOn(n: nat, most: int, outcome: nat -> Try, k: nat)
    requires k <= n && NoneStopped(outcome, k)
    ensures
      var r := Attempts(n, most, outcome, k);
      r > 0 ==> NoneStopped(outcome, r - 1)
    decreases n - k
  {
    if k < n && !ReachedMaxAttempts(k, most) && !Stops(outcome(k)) {
      AttemptsGoOn(n, most, outcome, k + 1);
    }
  }

  /** Nothing an earlier attempt did reaches the client: it neither succeeded nor wrote before the next was tried. */
  lemma EarlierAttemptsAreSilent(n: nat, most: int, outcome: nat -> Try, k: nat)
    requires k + 1 < Attempts(n, most, outcome, 0)
    ensures ChunksOf(outcome(k), k) == [] && !outcome(k).Written?
  {
    AttemptsGoOn(n, most, outcome, 0);
    NoneStoppedAt(outcome, Attempts(n, most, outcome, 0) - 1, k);
  }

  /** So what all attempts write is what the last one writes. */
  lemma OnlyTheLastWrites(n: nat, most: int, outcome: nat -> Try)
    ensures
      var tried := Attempts(n, most, outcome, 0);
      AllChunks(outcome, tried) == if tried == 0 then [] else ChunksOf(outcome(tried - 1), tried - 1)
  {
    var tried := Attempts(n, most, outcome, 0);
    if tried > 0 {
      AttemptsGoOn(n, most, outcome, 0);
      OneMoreAttempt(outcome, tried - 1);
    }
  }

  /**
   Whatever the clients do, any two chunks of the body come from the same attempt, or
   both from the one error; with an error no attempt has written anything; and no
   more attempts are made than a positive limit allows.
   */
  lemma OneSource(n: nat, most: int, outcome: nat -> Try, errorChunks: nat, i: nat, j: nat)
    requires
      var body := Body(outcome, Attempts(n, most, outcome, 0), errorChunks);
      i < |body| && j < |body|
    ensures
      var tried := Attempts(n, most, outcome, 0);
      var body := Body(outcome, tried, errorChunks);
      && body[i] == body[j] && (most > 0 ==> tried <= most)
      && (body[i] == FromError <==> Errs(outcome, tried))
  {
    OnlyTheLastWrites(n, most, outcome);
  }

  /** The attempt left nothing to the client and another route may do better. */
  predicate MayBeRepeated(t: Try) {
    (t.Refused? && t.retryable) || (t.Broken? && t.chunks == 0 && t.retryable)
  }

  /**
   The handler goes on as long as it may: every attempt but the last could be repeated,
   and after the last either it could not, or the limit is reached, or no route is left.
   */
  lemma HandlerGoesOn(n: nat, most: int, outcome: nat -> Try)
    ensures
      var r := Attempts(n, most, outcome, 0);
      && (r == 0 <==> n == 0) && (most > 0 ==> r <= most)
      && (forall k: nat | k + 1 < r :: MayBeRepeated(outcome(k)))
      && (0 < r < n && (most <= 0 || r < most) ==> !MayBeRepeated(outcome(r - 1)))
  {
    var r := Attempts(n, most, outcome, 0);
    AttemptsGoOn(n, most, outcome, 0);
    forall k: nat | k + 1 < r ensures MayBeRepeated(outcome(k)) {
      NoneStoppedAt(outcome, r - 1, k);
    }
    AttemptsEnd(n, most, outcome, 0);
  }

  lemma {:induction false} AttemptsEnd(n: nat, most: int, outcome: nat -> Try, k: nat)
    requires k <= n
    ensures
      var r := Attempts(n, most, outcome, k);
      k < r < n && !ReachedMaxAttempts(r, most) ==> Stops(outcome(r - 1))
    ensures k < n && !ReachedMaxAttempts(k, most) ==> k < Attempts(n, most, outcome, k)
    decreases n - k
  {
    if k < n && !ReachedMaxAttempts(k, most) && !Stops(outcome(k)) {
      AttemptsEnd(n, most, outcome, k + 1);
    }
  }

  /** Attempts on other routes leave what is known of a route alone. */
  lemma {:induction false} UntriedAreKept(failures: Failures, cooldown: int, routes: seq<Route>, n: nat, outcome: nat -> Try,
      clock: nat -> int, key: string)
    requires n <= |routes| && forall k | 0 <= k < n :: RouteKey(routes[k]) != key
    ensures
      var marked := MarkedAll(failures, cooldown, routes, n, outcome, clock);
      (key in marked <==> key in failures) && (key in failures ==> marked[key] == failures[key])
  {
    if n > 0 {
      UntriedAreKept(failures, cooldown, routes, n - 1, outcome, clock, key);
    }
  }

  /** After n attempts the tracker remembers of a route how the last attempt on it went: a failure and its time, or nothing. */
  lemma {:induction false} MarksAreOutcomes(failures: Failures, cooldown: int, routes: seq<Route>, n: nat, outcome: nat -> Try,
      clock: nat -> int, k: nat)
    requires k < n <= |routes| && cooldown > 0
    requires forall j | k < j < n :: RouteKey(routes[j]) != RouteKey(routes[k])
    ensures
      var marked := MarkedAll(failures, cooldown, routes, n, outcome, clock);
      var key := RouteKey(routes[k]);
      (key in marked <==> !outcome(k).Written?) && (key in marked ==> marked[key] == clock(k))
  {
    if k < n - 1 {
      MarksAreOutcomes(failures, cooldown, routes, n - 1, outcome, clock, k);
    }
  }
}
