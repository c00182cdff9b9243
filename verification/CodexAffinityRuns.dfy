/**
 Runs in which a shortened input is sent on a websocket that never had the response
 it continues, one for each part of the discipline of CodexAffinity that is given up.
 */
module CodexAffinityRuns {
  import opened Wrappers
  import opened Continuation
  import opened ResponsesSession
  import opened RecoveryStages
  import opened CodexProtocol
  import opened CodexProtocolProofs
  import opened CodexTheorems
  import opened CodexAffinity

  // ------------------------------------------------------------------
  // Turns
  // ------------------------------------------------------------------

  /** A request of this session, branch and body. */
  datatype Query = Query(r: nat, session: string, branch: string, body: Body)

  function KeyOf(k: Query): Key { Key(k.session, k.branch) }

  /** The lock is free and the request may arrive. */
  ghost predicate Ready(s: State, k: Query) {
    Inv(s) && s.holder.None? && k.r !in s.reqs && k.session != "" && k.branch != "" && FingerprintOf(k.body).Some?
  }

  function Offered(s: State, k: Query): Decision { Prepared(s.table, k.session, k.branch, k.body) }

  /** The websocket the body goes out on. */
  function Place(s: State, session: string, write: WriteResult): nat {
    if write.Written? && s.pool.Some? && s.pool.value.session == session then s.pool.value.conn else |s.conns|
  }

  /** A request that has arrived with decision d. */
  function Waiting(k: Query, d: Decision): Req {
    Req(k.session, k.branch, k.body, d, Arrived, 0, FreshWebSocket, false, false, None, false, false, 0)
  }

  /** Request k, which was offered d, streams from websocket c, and its entry is the last of the log. */
  ghost predicate Streams(s: State, t: State, k: Query, d: Decision, c: nat) {
    && t.holder == Some(k.r)
    && t.pool == Some(PooledStream(c, k.session)) && t.table == s.table
    && OneMore(s.log, t.log, d.previousResponseID, c)
    && |t.conns| == (if c < |s.conns| then |s.conns| else c + 1)
    && t.reqs == s.reqs[k.r := Stream(Waiting(k, d), c, FreshWebSocket)]
    && c < |t.conns| && t.conns[c].turns != [] && t.conns[c].turns[|t.conns[c].turns| - 1] == |s.log|
  }

  function Sending(k: Query, write: WriteResult, output: seq<Item>): seq<Action> {
    [Acquire(k.r), FirstSend(k.r, Dial(write, true), output)]
  }

  /** What a send does, when a websocket is found or opened, to all but the log and the websockets' turns. */
  lemma SendPools(s: State, r: nat, q: Req, out: Outgoing, write: WriteResult, output: seq<Item>)
    requires Sane(s) && q.session != "" && !write.WriteFailed?
    ensures
      var (t, got) := Send(s, r, q, out, Dial(write, true), output);
      && got == Some(Place(s, q.session, write)) && t.pool == Some(PooledStream(got.value, q.session))
      && t.table == s.table && t.reqs == s.reqs && t.holder == s.holder
      && |t.conns| == (if got.value < |s.conns| then |s.conns| else got.value + 1)
      && t.conns[got.value].turns != [] && t.conns[got.value].turns[|t.conns[got.value].turns| - 1] == |s.log|
  {
  }

  lemma FirstSendStreams(s: State, k: Query, d: Decision, write: WriteResult, output: seq<Item>)
    requires Inv(s) && s.holder == Some(k.r) && k.r in s.reqs && !write.WriteFailed?
    requires s.reqs[k.r] == Waiting(k, d).(phase := Acquired)
    ensures Streams(s, FirstSendStep(s, k.r, Dial(write, true), output), k, d, Place(s, k.session, write))
  {
    var q := s.reqs[k.r];
    assert ReqOk(s.log, k.r, q);
    SendLogs(s, k.r, q, SentBody(q, true), Dial(write, true), output);
    SendPools(s, k.r, q, SentBody(q, true), write, output);
  }

  /** A request that waits takes the lock and sends its body. */
  lemma SendRuns(s: State, k: Query, d: Decision, write: WriteResult, output: seq<Item>)
    requires Inv(s) && s.holder.None? && k.r in s.reqs && s.reqs[k.r] == Waiting(k, d) && !write.WriteFailed?
    ensures ValidRun(s, Sending(k, write, output))
    ensures Streams(s, RunAll(s, Sending(k, write, output)), k, d, Place(s, k.session, write))
    ensures Inv(RunAll(s, Sending(k, write, output)))
  {
    var acts := Sending(k, write, output);
    var s1 := Apply(s, acts[0]);
    StepKeepsInv(s, acts[0]);
    StepKeepsInv(s1, acts[1]);
    TwoSteps(s, acts[0], acts[1]);
    FirstSendStreams(s1, k, d, write, output);
    SameUpdate(s.reqs, k.r, s1.reqs[k.r], Stream(Waiting(k, d), Place(s, k.session, write), FreshWebSocket));
  }

  lemma SameUpdate<V>(m: map<nat, V>, k: nat, a: V, b: V)
    ensures m[k := a][k := b] == m[k := b]
  {
  }

  /** Request k is over, the lock free and every other request as it was. */
  ghost predicate Over(s: State, t: State, k: Query) {
    && Inv(t) && t.holder.None? && t.log == s.log && |t.conns| == |s.conns|
    && t.reqs.Keys == s.reqs.Keys && k.r in t.reqs && t.reqs[k.r].phase.Finished?
    && forall x | x in s.reqs && x != k.r :: t.reqs[x] == s.reqs[x]
  }

  /** A request whose stream is being read, since it was sent as the last entry of the log. */
  ghost predicate Reading(s: State, k: Query, d: Decision, c: nat) {
    && Inv(s) && s.holder == Some(k.r) && s.pool == Some(PooledStream(c, k.session)) && |s.log| > 0
    && FingerprintOf(k.body).Some?
    && k.r in s.reqs && s.reqs[k.r] == Stream(Waiting(k, d), c, FreshWebSocket)
    && c < |s.conns| && s.conns[c].turns != [] && s.conns[c].turns[|s.conns[c].turns| - 1] == |s.log| - 1
  }

  function Completing(k: Query): seq<Action> {
    [Receive(k.r, Part(true, true, true)), CloseStream(k.r)]
  }

  lemma CompletionReceived(s: State, k: Query, d: Decision, c: nat)
    requires Reading(s, k, d, c)
    ensures
      var a := Receive(k.r, Part(true, true, true));
      && Enabled(s, a) && |Apply(s, a).conns| == |s.conns|
      && Apply(s, a).(conns := s.conns)
         == Update(s, k.r, s.reqs[k.r].(lastId := Some(|s.log| - 1), completed := true, started := true))
  {
    var q := s.reqs[k.r];
    assert Holding(q) && HolderOk(s, k.r, q);
  }

  lemma CommitIsOwn(s: State, k: Query, d: Decision, c: nat)
    requires Reading(s, k, d, c)
    ensures s.reqs[k.r].decision.commit == Some(Commit(KeyOf(k), FingerprintOf(k.body).value))
  {
    assert ReqOk(s.log, k.r, s.reqs[k.r]);
  }

  /** Its response completes, and is remembered. */
  lemma CompletionRuns(s: State, k: Query, d: Decision, c: nat)
    requires Reading(s, k, d, c)
    ensures ValidRun(s, Completing(k))
    ensures
      var t := RunAll(s, Completing(k));
      && Over(s, t, k) && t.pool == s.pool
      && t.table == Committed(s.table, KeyOf(k), FingerprintOf(k.body).value, Some(|s.log| - 1), "")
  {
    var acts := Completing(k);
    var q := s.reqs[k.r];
    CompletionReceived(s, k, d, c);
    CommitIsOwn(s, k, d, c);
    StepKeepsInv(s, acts[0]);
    var s1 := Apply(s, acts[0]);
    CloseStepShape(s1, k.r);
    StepKeepsInv(s1, acts[1]);
    TwoSteps(s, acts[0], acts[1]);
  }

  function Failing(k: Query): seq<Action> {
    [StreamFails(k.r, false, Dial(Written, false), [], false), CloseStream(k.r)]
  }

  /** Its stream fails, and nothing recovers it. */
  lemma FailureRuns(s: State, k: Query, d: Decision, c: nat)
    requires Reading(s, k, d, c)
    ensures ValidRun(s, Failing(k))
    ensures
      var t := RunAll(s, Failing(k));
      Over(s, t, k) && t.pool.None? && t.table == Invalidated(s.table, k.session, k.branch)
  {
    var acts := Failing(k);
    var q := s.reqs[k.r];
    assert ReqOk(s.log, k.r, q);
    StepKeepsInv(s, acts[0]);
    var s1 := Apply(s, acts[0]);
    assert s1 == Update(FailSession(s, k.r, q), k.r, q.(failArmed := false, phase := Broken));
    CloseStepShape(s1, k.r);
    StepKeepsInv(s1, acts[1]);
    TwoSteps(s, acts[0], acts[1]);
  }

  // ------------------------------------------------------------------
  // Whole turns
  // ------------------------------------------------------------------

  function Arrival(k: Query): Action { Arrive(k.r, k.session, k.branch, k.body) }

  /** A turn: it arrives, sends over a websocket that can be written to, and ends in one way or the other. */
  function Turn(k: Query, output: seq<Item>, completes: bool): seq<Action> {
    [Arrival(k)] + (Sending(k, Written, output) + End(k, completes))
  }

  function TableAfter(s: State, k: Query, completes: bool): Table
    requires FingerprintOf(k.body).Some?
  {
    if completes then Committed(s.table, KeyOf(k), FingerprintOf(k.body).value, Some(|s.log|), "")
    else Invalidated(s.table, k.session, k.branch)
  }

  /** What a turn leaves: one more entry, and the websocket and the continuation, or neither. */
  ghost predicate Turned(s: State, t: State, k: Query, completes: bool)
    requires FingerprintOf(k.body).Some?
  {
    var c := Place(s, k.session, Written);
    && Inv(t) && t.holder.None? && OneMore(s.log, t.log, Offered(s, k).previousResponseID, c)
    && |t.conns| == (if c < |s.conns| then |s.conns| else c + 1)
    && t.pool == (if completes then Some(PooledStream(c, k.session)) else None)
    && t.table == TableAfter(s, k, completes)
    && OneFinished(s.reqs, t.reqs, k.r)
  }

  lemma ArrivalRuns(s: State, k: Query)
    requires Ready(s, k)
    ensures Sane(s) && Enabled(s, Arrival(k)) && Inv(Apply(s, Arrival(k)))
    ensures Apply(s, Arrival(k)) == Update(s, k.r, Waiting(k, Offered(s, k)))
  {
    StepKeepsInv(s, Arrival(k));
  }

  function End(k: Query, completes: bool): seq<Action> { if completes then Completing(k) else Failing(k) }

  /** How a turn ends: its websocket and its response are kept, or neither. */
  ghost predicate Ended(s: State, t: State, k: Query, completes: bool)
    requires FingerprintOf(k.body).Some?
  {
    && Over(s, t, k) && |s.log| > 0
    && t.pool == (if completes then s.pool else None)
    && t.table == (if completes then Committed(s.table, KeyOf(k), FingerprintOf(k.body).value, Some(|s.log| - 1), "")
                   else Invalidated(s.table, k.session, k.branch))
  }

  lemma EndRuns(s: State, k: Query, d: Decision, c: nat, completes: bool)
    requires Reading(s, k, d, c)
    ensures ValidRun(s, End(k, completes)) && Ended(s, RunAll(s, End(k, completes)), k, completes)
  {
    if completes {
      CompletionRuns(s, k, d, c);
    } else {
      FailureRuns(s, k, d, c);
    }
  }

  lemma StreamsIsReading(s: State, t: State, k: Query, d: Decision, c: nat)
    requires Inv(t) && Streams(s, t, k, d, c) && FingerprintOf(k.body).Some?
    ensures Reading(t, k, d, c)
  {
  }

  /** Only request r was added, and is finished. */
  predicate OneFinished(reqs: map<nat, Req>, reqs1: map<nat, Req>, r: nat) {
    && reqs1.Keys == reqs.Keys + {r} && reqs1[r].phase.Finished?
    && forall x | x in reqs && x != r :: reqs1[x] == reqs[x]
  }

  lemma OneIsFinished(reqs: map<nat, Req>, r: nat, a: Req, b: Req, reqs1: map<nat, Req>)
    requires r !in reqs && reqs1.Keys == reqs[r := a][r := b].Keys && reqs1[r].phase.Finished?
    requires forall x | x in reqs[r := a][r := b] && x != r :: reqs1[x] == reqs[r := a][r := b][x]
    ensures OneFinished(reqs, reqs1, r)
  {
  }

  lemma EndedTurns(s: State, s2: State, t: State, k: Query, completes: bool)
    requires FingerprintOf(k.body).Some? && k.r !in s.reqs
    requires Streams(Update(s, k.r, Waiting(k, Offered(s, k))), s2, k, Offered(s, k), Place(s, k.session, Written))
    requires Ended(s2, t, k, completes)
    ensures Turned(s, t, k, completes)
  {
    var d, c := Offered(s, k), Place(s, k.session, Written);
    OneIsFinished(s.reqs, k.r, Waiting(k, d), Stream(Waiting(k, d), c, FreshWebSocket), t.reqs);
  }

  lemma TurnRuns(s: State, k: Query, output: seq<Item>, completes: bool)
    requires Ready(s, k)
    ensures ValidRun(s, Turn(k, output, completes)) && Turned(s, RunAll(s, Turn(k, output, completes)), k, completes)
  {
    var d, c := Offered(s, k), Place(s, k.session, Written);
    ArrivalRuns(s, k);
    var s1 := Apply(s, Arrival(k));
    SendRuns(s1, k, d, Written, output);
    var s2 := RunAll(s1, Sending(k, Written, output));
    StreamsIsReading(s1, s2, k, d, c);
    EndRuns(s2, k, d, c, completes);
    RunsCompose(s1, Sending(k, Written, output), End(k, completes));
    EndedTurns(s, s2, RunAll(s2, End(k, completes)), k, completes);
    assert Turn(k, output, completes)[1..] == Sending(k, Written, output) + End(k, completes);
  }

  // ------------------------------------------------------------------
  // The parts of the discipline
  // ------------------------------------------------------------------

  predicate NoArrivals(acts: seq<Action>) {
    forall a | a in acts :: !a.Arrive?
  }

  lemma {:induction false} NoArrivalsSerial(s: State, acts: seq<Action>)
    requires ValidRun(s, acts) && NoArrivals(acts)
    ensures Serial(s, acts)
    decreases |acts|
  {
    if acts != [] {
      assert acts[0] in acts && forall a | a in acts[1..] :: a in acts;
      NoArrivalsSerial(Apply(s, acts[0]), acts[1..]);
    }
  }

  lemma {:induction false} SerialCompose(s: State, a: seq<Action>, b: seq<Action>)
    requires ValidRun(s, a) && ValidRun(RunAll(s, a), b) && Serial(s, a) && Serial(RunAll(s, a), b)
    ensures ValidRun(s, a + b) && Serial(s, a + b)
    decreases |a|
  {
    RunsCompose(s, a, b);
    if a == [] {
      assert a + b == b;
    } else {
      assert (a + b)[1..] == a[1..] + b;
      SerialCompose(Apply(s, a[0]), a[1..], b);
    }
  }

  lemma ThenSerial(a: seq<Action>, s: State, b: seq<Action>, t: State)
    requires ValidRun(INIT, a) && RunAll(INIT, a) == s && Serial(INIT, a)
    requires ValidRun(s, b) && RunAll(s, b) == t && Serial(s, b)
    ensures ValidRun(INIT, a + b) && RunAll(INIT, a + b) == t && Serial(INIT, a + b)
  {
    RunsCompose(INIT, a, b);
    SerialCompose(INIT, a, b);
  }

  lemma ActionsOf(a: seq<Action>, b: seq<Action>, key: Key)
    ensures OneBranch(a + b, key) <==> OneBranch(a, key) && OneBranch(b, key)
    ensures Writers(a + b) <==> Writers(a) && Writers(b)
    ensures Committing(a + b) <==> Committing(a) && Committing(b)
  {
    assert forall x :: x in a + b <==> x in a || x in b;
  }

  /** What a turn's actions are like. */
  lemma TurnIsOrderly(k: Query, output: seq<Item>, completes: bool)
    ensures Writers(Turn(k, output, completes)) && Committing(Turn(k, output, completes))
    ensures OneBranch(Turn(k, output, completes), KeyOf(k)) && NoArrivals(Turn(k, output, completes)[1..])
  {
    var acts := Turn(k, output, completes);
    assert acts[1..] == Sending(k, Written, output) + End(k, completes);
  }

  /** A turn that starts when all requests are finished is serial, and leaves them finished. */
  lemma TurnIsSerial(s: State, k: Query, output: seq<Item>, completes: bool)
    requires Ready(s, k) && Quiet(s)
    ensures ValidRun(s, Turn(k, output, completes)) && Serial(s, Turn(k, output, completes))
    ensures Quiet(RunAll(s, Turn(k, output, completes)))
  {
    var acts := Turn(k, output, completes);
    TurnRuns(s, k, output, completes);
    TurnIsOrderly(k, output, completes);
    NoArrivalsSerial(Apply(s, acts[0]), acts[1..]);
  }

  /** A run of turns one after the other, over writers and with completions that commit, and where it ends. */
  ghost predicate Turns(acts: seq<Action>, s: State) {
    && ValidRun(INIT, acts) && RunAll(INIT, acts) == s && Inv(s) && s.holder.None? && Quiet(s)
    && Serial(INIT, acts) && Writers(acts) && Committing(acts)
  }

  lemma NoTurns()
    ensures Turns([], INIT)
  {
    Reachable([]);
  }

  lemma AnotherTurn(acts: seq<Action>, s: State, k: Query, output: seq<Item>, completes: bool) returns (t: State)
    requires Turns(acts, s) && Ready(s, k)
    ensures Turns(acts + Turn(k, output, completes), t) && Turned(s, t, k, completes)
  {
    var turn := Turn(k, output, completes);
    TurnRuns(s, k, output, completes);
    TurnIsOrderly(k, output, completes);
    TurnIsSerial(s, k, output, completes);
    t := RunAll(s, turn);
    ThenSerial(acts, s, turn, t);
  }

  // ------------------------------------------------------------------
  // Where a continuation goes astray
  // ------------------------------------------------------------------

  /** The body continues the other: a longer conversation with the same model and instructions. */
  predicate Extends(last: Body, body: Body) {
    && FingerprintOf(last).Some? && FingerprintOf(body).Some?
    && last.model == body.model && last.instructions == body.instructions && last.input <= body.input && last != body
  }

  /** The last response of the log was sent on another websocket than the one it continues. */
  predicate Moved(log: seq<Entry>) {
    log != [] && !AffineAt(log, |log| - 1)
  }

  lemma MovedIsNotAffine(log: seq<Entry>)
    requires Moved(log)
    ensures !Affine(log)
  {
  }

  /** After a completed turn of a branch its next longer body is offered the response. */
  lemma RememberedIsOffered(table: Table, k: Query, id: nat, next: Query)
    requires KeyOf(k) == KeyOf(next) && k.session != "" && k.branch != "" && Extends(k.body, next.body)
    ensures
      var remembered := Committed(table, KeyOf(k), FingerprintOf(k.body).value, Some(id), "");
      Prepared(remembered, next.session, next.branch, next.body).previousResponseID == Some(id)
  {
    OfferedExactlyForExtensions(table, k.session, k.branch, k.body, id, next.body);
  }

  /** The first turn of all: response 0 on websocket 0, remembered for its branch. */
  lemma FirstTurn(k: Query, output: seq<Item>) returns (t: State)
    requires Ready(INIT, k)
    ensures Turns(Turn(k, output, true), t) && |t.log| == 1 && t.log[0].conn == 0 && |t.conns| == 1
    ensures t.pool == Some(PooledStream(0, k.session)) && t.reqs.Keys == {k.r}
    ensures t.table == Committed(map[], KeyOf(k), FingerprintOf(k.body).value, Some(0), "")
  {
    NoTurns();
    assert [] + Turn(k, output, true) == Turn(k, output, true);
    t := AnotherTurn([], INIT, k, output, true);
  }

  lemma InitIsReady(k: Query)
    requires k.session != "" && k.branch != "" && FingerprintOf(k.body).Some?
    ensures Ready(INIT, k)
  {
    Reachable([]);
  }

  /** Then a turn of another session or branch: the first one is still remembered. */
  lemma SecondTurn(first: Query, other: Query, next: Query, a: seq<Item>, b: seq<Item>, completes: bool) returns (t: State)
    requires Ready(INIT, first) && Ready(INIT, other) && KeyOf(other) != KeyOf(first)
    requires KeyOf(next) == KeyOf(first) && Extends(first.body, next.body)
    requires first.r != other.r && next.r != first.r && next.r != other.r
    ensures Turns(Turn(first, a, true) + Turn(other, b, completes), t) && Ready(t, next)
    ensures |t.log| == 2 && t.log[0].conn == 0 && Offered(t, next).previousResponseID == Some(0)
    ensures |t.conns| == (if other.session == first.session then 1 else 2)
    ensures t.pool == if completes then Some(PooledStream(|t.conns| - 1, other.session)) else None
  {
    var s1 := FirstTurn(first, a);
    t := AnotherTurn(Turn(first, a, true), s1, other, b, completes);
    StillOffered(s1, t, first, other, next, completes);
    SecondLog(s1, t, other, completes);
  }

  lemma SecondLog(s1: State, t: State, other: Query, completes: bool)
    requires |s1.log| == 1 && s1.log[0].conn == 0 && |s1.conns| == 1 && s1.pool.Some? && s1.pool.value.conn == 0
    requires FingerprintOf(other.body).Some? && Turned(s1, t, other, completes)
    ensures |t.log| == 2 && t.log[0].conn == 0
    ensures |t.conns| == (if other.session == s1.pool.value.session then 1 else 2)
    ensures t.pool == if completes then Some(PooledStream(|t.conns| - 1, other.session)) else None
  {
    assert t.log[0] == t.log[..1][0];
  }

  /** A turn of another key does not change what the next body of this one is offered. */
  lemma StillOffered(s1: State, t: State, first: Query, other: Query, next: Query, completes: bool)
    requires KeyOf(other) != KeyOf(first) && FingerprintOf(other.body).Some?
    requires first.session != "" && first.branch != "" && KeyOf(next) == KeyOf(first) && Extends(first.body, next.body)
    requires s1.table == Committed(map[], KeyOf(first), FingerprintOf(first.body).value, Some(0), "")
    requires t.table == TableAfter(s1, other, completes)
    ensures Offered(t, next).previousResponseID == Some(0)
  {
    RememberedIsOffered(map[], first, 0, next);
    BranchesAreIndependent(s1.table, KeyOf(other), next.session, next.branch, next.body, FingerprintOf(other.body).value,
                           Some(|s1.log|), "");
  }

  /**
   Two sessions: between two turns of one there is a turn of the other.  The second
   continues the first on a websocket that never had it.
   */
  lemma AnotherSessionMoves(first: Query, other: Query, next: Query, a: seq<Item>, b: seq<Item>, c: seq<Item>)
    returns (acts: seq<Action>, t: State)
    requires Ready(INIT, first) && Ready(INIT, other) && other.session != first.session
    requires KeyOf(next) == KeyOf(first) && Extends(first.body, next.body)
    requires first.r != other.r && next.r != first.r && next.r != other.r
    ensures acts == Turn(first, a, true) + Turn(other, b, true) + Turn(next, c, true)
    ensures Turns(acts, t) && |t.log| == 3 && t.log[0].conn == 0 && t.log[2].previous == Some(0) && t.log[2].conn == 2
  {
    var s2 := SecondTurn(first, other, next, a, b, true);
    t := AnotherTurn(Turn(first, a, true) + Turn(other, b, true), s2, next, c, true);
    acts := Turn(first, a, true) + Turn(other, b, true) + Turn(next, c, true);
    assert t.log[0] == t.log[..2][0];
  }

  /**
   One session, two branches: a turn of the other branch fails.  The websocket is
   dropped but the first branch keeps its continuation.
   */
  lemma AnotherBranchMoves(first: Query, other: Query, next: Query, a: seq<Item>, b: seq<Item>, c: seq<Item>)
    returns (acts: seq<Action>, t: State)
    requires Ready(INIT, first) && Ready(INIT, other) && other.session == first.session && other.branch != first.branch
    requires KeyOf(next) == KeyOf(first) && Extends(first.body, next.body)
    requires first.r != other.r && next.r != first.r && next.r != other.r
    ensures acts == Turn(first, a, true) + Turn(other, b, false) + Turn(next, c, true)
    ensures Turns(acts, t) && |t.log| == 3 && t.log[0].conn == 0 && t.log[2].previous == Some(0) && t.log[2].conn == 1
  {
    var s2 := SecondTurn(first, other, next, a, b, false);
    t := AnotherTurn(Turn(first, a, true) + Turn(other, b, false), s2, next, c, true);
    acts := Turn(first, a, true) + Turn(other, b, false) + Turn(next, c, true);
    assert t.log[0] == t.log[..2][0];
  }

  /** Two requests of one branch at once: the one that waits was offered what the other one loses. */
  lemma AnotherRequestMoves(first: Query, other: Query, next: Query, a: seq<Item>, b: seq<Item>, c: seq<Item>)
    returns (acts: seq<Action>, t: State)
    requires Ready(INIT, first) && Ready(INIT, other) && KeyOf(other) == KeyOf(first) == KeyOf(next)
    requires Extends(first.body, next.body)
    requires first.r != other.r && next.r != first.r && next.r != other.r
    ensures acts == Turn(first, a, true) + ([Arrival(next)] + (Turn(other, b, false) + Sending(next, Written, c)))
    ensures ValidRun(INIT, acts) && RunAll(INIT, acts) == t
    ensures |t.log| == 3 && t.log[0].conn == 0 && t.log[2].previous == Some(0) && t.log[2].conn == 1
  {
    var s1 := FirstTurn(first, a);
    RememberedIsOffered(map[], first, 0, next);
    ArrivalRuns(s1, next);
    var s2 := Apply(s1, Arrival(next));
    var d := Offered(s1, next);
    TurnRuns(s2, other, b, false);
    var s3 := RunAll(s2, Turn(other, b, false));
    SendRuns(s3, next, d, Written, c);
    t := RunAll(s3, Sending(next, Written, c));
    FourParts(s1, s2, s3, Turn(first, a, true), Arrival(next), Turn(other, b, false), Sending(next, Written, c));
    acts := Turn(first, a, true) + ([Arrival(next)] + (Turn(other, b, false) + Sending(next, Written, c)));
    WaitedLog(s1, s3, t, other, next, d);
  }

  /** The log after a request waited while another one failed. */
  lemma WaitedLog(s1: State, s3: State, t: State, other: Query, next: Query, d: Decision)
    requires |s1.log| == 1 && s1.log[0].conn == 0 && |s1.conns| == 1 && s1.pool == Some(PooledStream(0, other.session))
    requires d.previousResponseID == Some(0) && FingerprintOf(other.body).Some?
    requires Turned(Update(s1, next.r, Waiting(next, d)), s3, other, false)
    requires Streams(s3, t, next, d, Place(s3, next.session, Written))
    ensures |t.log| == 3 && t.log[0].conn == 0 && t.log[2].previous == Some(0) && t.log[2].conn == 1
  {
    assert t.log[0] == t.log[..2][0] && s3.log[0] == s3.log[..1][0];
  }

  lemma FourParts(s1: State, s2: State, s3: State, a: seq<Action>, x: Action, b: seq<Action>, c: seq<Action>)
    requires ValidRun(INIT, a) && s1 == RunAll(INIT, a) && Sane(s1) && Enabled(s1, x) && s2 == Apply(s1, x)
    requires ValidRun(s2, b) && s3 == RunAll(s2, b) && ValidRun(s3, c)
    ensures ValidRun(INIT, a + ([x] + (b + c))) && RunAll(INIT, a + ([x] + (b + c))) == RunAll(s3, c)
  {
    RunsCompose(s2, b, c);
    assert ([x] + (b + c))[1..] == b + c;
    RunsCompose(INIT, a, [x] + (b + c));
  }

  /** A pooled websocket that cannot be written to is replaced, with the continuation sent on the new one. */
  lemma NoWriterMoves(first: Query, next: Query, a: seq<Item>, b: seq<Item>) returns (acts: seq<Action>, t: State)
    requires Ready(INIT, first) && KeyOf(next) == KeyOf(first) && Extends(first.body, next.body) && next.r != first.r
    ensures acts == Turn(first, a, true) + ([Arrival(next)] + Sending(next, NotAWriter, b))
    ensures ValidRun(INIT, acts) && RunAll(INIT, acts) == t && Serial(INIT, acts)
    ensures |t.log| == 2 && t.log[0].conn == 0 && t.log[1].previous == Some(0) && t.log[1].conn == 1
  {
    var s1 := FirstTurn(first, a);
    RememberedIsOffered(map[], first, 0, next);
    ArrivalRuns(s1, next);
    var s2 := Apply(s1, Arrival(next));
    SendRuns(s2, next, Offered(s1, next), NotAWriter, b);
    t := RunAll(s2, Sending(next, NotAWriter, b));
    var rest := [Arrival(next)] + Sending(next, NotAWriter, b);
    assert rest[1..] == Sending(next, NotAWriter, b);
    NoArrivalsSerial(s2, rest[1..]);
    ThenSerial(Turn(first, a, true), s1, rest, t);
    acts := Turn(first, a, true) + rest;
    assert t.log[0] == t.log[..1][0];
  }

  // ------------------------------------------------------------------
  // Completions that are no commit frames
  // ------------------------------------------------------------------

  /** The response completes with a frame that commits nothing, and then its websocket fails. */
  function Quitting(k: Query): seq<Action> {
    [Receive(k.r, Part(true, true, false)), StreamFails(k.r, true, Dial(Written, true), [], false)]
  }

  /** Request k reads websocket c at this stage, and its entry is the last of the log. */
  ghost predicate ReadsAt(s: State, k: Query, q: Req, c: nat, stage: Stage) {
    && Inv(s) && s.holder == Some(k.r) && s.pool == Some(PooledStream(c, k.session)) && |s.log| > 0
    && k.r in s.reqs && q.session == k.session && q.branch == k.branch && s.reqs[k.r] == Stream(q, c, stage)
    && c < |s.conns| && s.conns[c].turns != [] && s.conns[c].turns[|s.conns[c].turns| - 1] == |s.log| - 1
  }

  lemma QuietlyReceived(s: State, k: Query, q: Req, c: nat, stage: Stage)
    requires ReadsAt(s, k, q, c, stage)
    ensures
      var a := Receive(k.r, Part(true, true, false));
      && Enabled(s, a) && |Apply(s, a).conns| == |s.conns|
      && Apply(s, a).(conns := s.conns) == Update(s, k.r, s.reqs[k.r].(lastId := Some(|s.log| - 1), completed := true))
  {
    assert Holding(s.reqs[k.r]) && HolderOk(s, k.r, s.reqs[k.r]);
  }

  /** The failed stream of request k, whose response completed without a commit. */
  function Quit(q: Req, c: nat, stage: Stage, id: nat): Req {
    Stream(q, c, stage).(lastId := Some(id), completed := true, phase := Broken)
  }

  /** The first time a fresh websocket is found, the body replayed on it and the continuation forgotten. */
  lemma QuitRecovers(s: State, k: Query, q: Req, c: nat, id: nat)
    requires Sane(s) && k.r in s.reqs && s.reqs[k.r] == Quit(q, c, FreshWebSocket, id)
    requires q.session == k.session && q.branch == k.branch && k.session != ""
    ensures
      var t := Recover(s, k.r, Dial(Written, true), [], false);
      && OneMore(s.log, t.log, None, |s.conns|) && |t.conns| == |s.conns| + 1
      && t.pool == Some(PooledStream(|s.conns|, k.session)) && t.holder == s.holder
      && t.table == Invalidated(s.table, k.session, k.branch)
      && t.reqs == s.reqs[k.r := Stream(q, |s.conns|, HttpSse)]
      && t.conns[|s.conns|].turns == [|s.log|]
  {
    var q1 := s.reqs[k.r];
    var s1 := FailSession(s, k.r, q1);
    SendLogs(s1, k.r, q1, Replay(q1), Dial(Written, true), []);
    SendPools(s1, k.r, q1, Replay(q1), Written, []);
    assert Stream(q1, |s.conns|, HttpSse) == Stream(q, |s.conns|, HttpSse);
    assert [] + [|s.log|] == [|s.log|];
  }

  /** The state in which the recovery of request k starts. */
  function QuitState(s: State, k: Query, q: Req, c: nat, stage: Stage): State
    requires k.r in s.reqs && |s.log| > 0
  {
    Update(s, k.r, Quit(q, c, stage, |s.log| - 1))
  }

  /** Up to the recovery, all that changes is how far the websocket was read and what the request knows. */
  lemma QuittingRuns(s: State, k: Query, q: Req, c: nat, stage: Stage)
    requires ReadsAt(s, k, q, c, stage)
    ensures ValidRun(s, Quitting(k)) && Inv(RunAll(s, Quitting(k)))
    ensures
      var conns := Apply(s, Quitting(k)[0]).conns;
      && |conns| == |s.conns|
      && RunAll(s, Quitting(k)) == Recover(QuitState(s.(conns := conns), k, q, c, stage), k.r, Dial(Written, true), [], false)
  {
    var acts := Quitting(k);
    QuietlyReceived(s, k, q, c, stage);
    StepKeepsInv(s, acts[0]);
    var s1 := Apply(s, acts[0]);
    StepKeepsInv(s1, acts[1]);
    TwoSteps(s, acts[0], acts[1]);
    SameUpdate(s.reqs, k.r, s1.reqs[k.r], Quit(q, c, stage, |s.log| - 1));
    assert Update(s1, k.r, s1.reqs[k.r].(phase := Broken)) == QuitState(s.(conns := s1.conns), k, q, c, stage);
  }

  /** What the first recovery leaves. */
  ghost predicate Replayed(s: State, t: State, k: Query, q: Req) {
    && t.holder == s.holder && t.pool == Some(PooledStream(|s.conns|, k.session))
    && OneMore(s.log, t.log, None, |s.conns|) && |t.conns| == |s.conns| + 1 && t.conns[|s.conns|].turns == [|s.log|]
    && t.table == Invalidated(s.table, k.session, k.branch)
    && t.reqs == s.reqs[k.r := Stream(q, |s.conns|, HttpSse)]
  }

  lemma ReplayedAfter(s: State, conns: seq<Conn>, k: Query, q: Req, c: nat)
    requires k.r in s.reqs && |s.log| > 0 && |conns| == |s.conns| && Sane(s)
    requires q.session == k.session && q.branch == k.branch && k.session != ""
    ensures Replayed(s, Recover(QuitState(s.(conns := conns), k, q, c, FreshWebSocket), k.r, Dial(Written, true), [], false), k, q)
  {
    var s2 := QuitState(s.(conns := conns), k, q, c, FreshWebSocket);
    QuitRecovers(s2, k, q, c, |s.log| - 1);
    SameUpdate(s.reqs, k.r, s2.reqs[k.r], Stream(q, |s.conns|, HttpSse));
  }

  lemma QuitsToReplay(s: State, k: Query, q: Req, c: nat)
    requires ReadsAt(s, k, q, c, FreshWebSocket) && k.session != ""
    ensures ValidRun(s, Quitting(k)) && Inv(RunAll(s, Quitting(k))) && Replayed(s, RunAll(s, Quitting(k)), k, q)
  {
    QuittingRuns(s, k, q, c, FreshWebSocket);
    ReplayedAfter(s, Apply(s, Quitting(k)[0]).conns, k, q, c);
  }

  lemma ReplayedReads(s: State, t: State, k: Query, q: Req)
    requires Inv(t) && Replayed(s, t, k, q) && s.holder == Some(k.r) && q.session == k.session && q.branch == k.branch
    ensures ReadsAt(t, k, q, |s.conns|, HttpSse)
  {
  }

  /** The second time there is nothing left but HTTP, which does not open either. */
  lemma QuitEnds(s: State, k: Query, q: Req, c: nat, id: nat)
    requires k.r in s.reqs && s.reqs[k.r] == Quit(q, c, HttpSse, id) && q.releases == 0
    ensures
      var t := Recover(s, k.r, Dial(Written, true), [], false);
      && t.log == s.log && |t.conns| == |s.conns| && t.pool.None? && t.holder.None? && t.table == s.table
      && t.reqs == s.reqs[k.r := Quit(q, c, RecoveryDone, id).(releases := 1)]
  {
    var q1 := Quit(q, c, RecoveryDone, id).(releases := 1);
    SameUpdate(s.reqs, k.r, s.reqs[k.r].(releases := 1), q1);
  }

  /** What the last recovery leaves. */
  ghost predicate GivenUp(s: State, t: State, k: Query, q: Req, c: nat) {
    && |s.log| > 0 && t.holder.None? && t.pool.None? && t.log == s.log && |t.conns| == |s.conns| && t.table == s.table
    && t.reqs == s.reqs[k.r := Quit(q, c, RecoveryDone, |s.log| - 1).(releases := 1)]
  }

  lemma GivenUpAfter(s: State, conns: seq<Conn>, k: Query, q: Req, c: nat)
    requires k.r in s.reqs && |s.log| > 0 && |conns| == |s.conns| && q.releases == 0
    ensures GivenUp(s, Recover(QuitState(s.(conns := conns), k, q, c, HttpSse), k.r, Dial(Written, true), [], false), k, q, c)
  {
    var s2 := QuitState(s.(conns := conns), k, q, c, HttpSse);
    QuitEnds(s2, k, q, c, |s.log| - 1);
    SameUpdate(s.reqs, k.r, s2.reqs[k.r], Quit(q, c, RecoveryDone, |s.log| - 1).(releases := 1));
  }

  lemma QuitsForGood(s: State, k: Query, q: Req, c: nat)
    requires ReadsAt(s, k, q, c, HttpSse) && q.releases == 0
    ensures ValidRun(s, Quitting(k)) && Inv(RunAll(s, Quitting(k))) && GivenUp(s, RunAll(s, Quitting(k)), k, q, c)
  {
    QuittingRuns(s, k, q, c, HttpSse);
    GivenUpAfter(s, Apply(s, Quitting(k)[0]).conns, k, q, c);
  }

  /** When such a request closes, the response of the websocket it lost is remembered. */
  lemma QuitCommits(s: State, k: Query, q: Req, c: nat, id: nat)
    requires Inv(s) && k.r in s.reqs && s.reqs[k.r] == Quit(q, c, RecoveryDone, id).(releases := 1)
    requires FingerprintOf(k.body).Some? && q.decision.commit == Some(Commit(KeyOf(k), FingerprintOf(k.body).value))
    ensures Enabled(s, CloseStream(k.r)) && Sane(s)
    ensures
      var t := Apply(s, CloseStream(k.r));
      && Inv(t) && t.log == s.log && |t.conns| == |s.conns| && t.pool == s.pool && t.holder == s.holder
      && t.table == Committed(s.table, KeyOf(k), FingerprintOf(k.body).value, Some(id), "")
      && OneFinished(s.reqs, t.reqs, k.r)
  {
    StepKeepsInv(s, CloseStream(k.r));
    CloseStepShape(s, k.r);
  }

  /** A turn that completes twice without a commit frame and loses both websockets. */
  function QuietTurn(k: Query, output: seq<Item>): seq<Action> {
    [Arrival(k)] + (Sending(k, Written, output) + (Quitting(k) + (Quitting(k) + [CloseStream(k.r)])))
  }

  lemma ReadingIsReadsAt(s: State, k: Query, d: Decision, c: nat)
    requires Reading(s, k, d, c)
    ensures ReadsAt(s, k, Waiting(k, d), c, FreshWebSocket)
  {
  }

  /** From its first frame on: two responses, the second of which is remembered though its websocket is gone. */
  ghost predicate HasQuit(s: State, t: State, k: Query)
    requires FingerprintOf(k.body).Some?
  {
    && Inv(t) && t.holder.None? && t.pool.None? && OneMore(s.log, t.log, None, |s.conns|)
    && |t.conns| == |s.conns| + 1 && OneFinished(s.reqs, t.reqs, k.r)
    && t.table == Committed(Invalidated(s.table, k.session, k.branch), KeyOf(k), FingerprintOf(k.body).value, Some(|s.log|), "")
  }

  lemma StillOneFinished(reqs: map<nat, Req>, r: nat, a: Req, b: Req, reqs1: map<nat, Req>)
    requires r in reqs && OneFinished(reqs[r := a][r := b], reqs1, r)
    ensures OneFinished(reqs, reqs1, r)
  {
  }

  lemma QuitRuns(s: State, k: Query, d: Decision, c: nat) returns (t: State)
    requires Reading(s, k, d, c) && k.session != ""
    requires d.commit == Some(Commit(KeyOf(k), FingerprintOf(k.body).value))
    ensures ValidRun(s, Quitting(k) + (Quitting(k) + [CloseStream(k.r)]))
    ensures t == RunAll(s, Quitting(k) + (Quitting(k) + [CloseStream(k.r)])) && HasQuit(s, t, k)
  {
    var q := Waiting(k, d);
    ReadingIsReadsAt(s, k, d, c);
    QuitsToReplay(s, k, q, c);
    var s1 := RunAll(s, Quitting(k));
    ReplayedReads(s, s1, k, q);
    QuitsForGood(s1, k, q, |s.conns|);
    var s2 := RunAll(s1, Quitting(k));
    QuitCommits(s2, k, q, |s.conns|, |s.log|);
    t := Apply(s2, CloseStream(k.r));
    ThreeParts(s, s1, s2, Quitting(k), Quitting(k), CloseStream(k.r));
    StillOneFinished(s.reqs, k.r, Stream(q, |s.conns|, HttpSse), Quit(q, |s.conns|, RecoveryDone, |s.log|).(releases := 1), t.reqs);
  }

  lemma ThreeParts(s: State, s1: State, s2: State, a: seq<Action>, b: seq<Action>, c: Action)
    requires ValidRun(s, a) && s1 == RunAll(s, a) && ValidRun(s1, b) && s2 == RunAll(s1, b) && Sane(s2) && Enabled(s2, c)
    ensures ValidRun(s, a + (b + [c])) && RunAll(s, a + (b + [c])) == Apply(s2, c)
  {
    OneStep(s2, c);
    RunsCompose(s1, b, [c]);
    RunsCompose(s, a, b + [c]);
  }

  lemma OneStep(s: State, a: Action)
    requires Sane(s) && Enabled(s, a)
    ensures ValidRun(s, [a]) && RunAll(s, [a]) == Apply(s, a)
  {
    assert [a][1..] == [];
  }

  lemma QuitFromNothing(s1: State, s2: State, t: State, k: Query, d: Decision)
    requires s1 == Update(INIT, k.r, Waiting(k, d)) && Streams(s1, s2, k, d, 0) && FingerprintOf(k.body).Some?
    requires HasQuit(s2, t, k)
    ensures t.holder.None? && t.pool.None? && |t.log| == 2 && t.log[1].conn == 1 && |t.conns| == 2
    ensures t.reqs.Keys == {k.r} && t.reqs[k.r].phase.Finished?
    ensures t.table == Committed(Invalidated(map[], k.session, k.branch), KeyOf(k), FingerprintOf(k.body).value, Some(1), "")
  {
  }

  /** The first turn of all, without a commit frame: responses 0 and 1 on websockets 0 and 1, the second remembered. */
  lemma QuietTurnRuns(k: Query, output: seq<Item>) returns (t: State)
    requires Ready(INIT, k)
    ensures ValidRun(INIT, QuietTurn(k, output)) && t == RunAll(INIT, QuietTurn(k, output))
    ensures Inv(t) && t.holder.None? && t.pool.None? && |t.log| == 2 && t.log[1].conn == 1 && |t.conns| == 2
    ensures t.reqs.Keys == {k.r} && t.reqs[k.r].phase.Finished?
    ensures t.table == Committed(Invalidated(map[], k.session, k.branch), KeyOf(k), FingerprintOf(k.body).value, Some(1), "")
  {
    var d := Offered(INIT, k);
    ArrivalRuns(INIT, k);
    var s1 := Apply(INIT, Arrival(k));
    SendRuns(s1, k, d, Written, output);
    var s2 := RunAll(s1, Sending(k, Written, output));
    StreamsIsReading(s1, s2, k, d, 0);
    var rest := Quitting(k) + (Quitting(k) + [CloseStream(k.r)]);
    t := QuitRuns(s2, k, d, 0);
    RunsCompose(s1, Sending(k, Written, output), rest);
    assert QuietTurn(k, output)[1..] == Sending(k, Written, output) + rest;
    QuitFromNothing(s1, s2, t, k, d);
  }

  lemma QuietTurnIsOrderly(k: Query, output: seq<Item>)
    ensures Writers(QuietTurn(k, output)) && OneBranch(QuietTurn(k, output), KeyOf(k)) && NoArrivals(QuietTurn(k, output)[1..])
  {
    var end := Quitting(k) + [CloseStream(k.r)];
    var rest := Sending(k, Written, output) + (Quitting(k) + end);
    assert QuietTurn(k, output)[1..] == rest;
    ActionsOf(Quitting(k), [CloseStream(k.r)], KeyOf(k));
    ActionsOf(Quitting(k), end, KeyOf(k));
    ActionsOf(Sending(k, Written, output), Quitting(k) + end, KeyOf(k));
    ActionsOf([Arrival(k)], rest, KeyOf(k));
    forall a | a in rest ensures !a.Arrive? {
      assert a in Sending(k, Written, output) || a in Quitting(k) || a in [CloseStream(k.r)];
    }
  }

  lemma QuietTurnIsSerial(k: Query, output: seq<Item>)
    requires ValidRun(INIT, QuietTurn(k, output))
    ensures Serial(INIT, QuietTurn(k, output))
  {
    QuietTurnIsOrderly(k, output);
    NoArrivalsSerial(Apply(INIT, QuietTurn(k, output)[0]), QuietTurn(k, output)[1..]);
  }

  /** A completion that commits nothing is followed by a recovery, and the last websocket it lost is remembered. */
  lemma NoCommitMoves(first: Query, next: Query, a: seq<Item>, b: seq<Item>) returns (acts: seq<Action>, t: State)
    requires Ready(INIT, first) && KeyOf(next) == KeyOf(first) && Extends(first.body, next.body) && next.r != first.r
    ensures acts == QuietTurn(first, a) + Turn(next, b, true)
    ensures ValidRun(INIT, acts) && RunAll(INIT, acts) == t && Serial(INIT, acts)
    ensures |t.log| == 3 && t.log[1].conn == 1 && t.log[2].previous == Some(1) && t.log[2].conn == 2
  {
    var s1 := QuietTurnRuns(first, a);
    RememberedIsOffered(Invalidated(map[], first.session, first.branch), first, 1, next);
    TurnRuns(s1, next, b, true);
    t := RunAll(s1, Turn(next, b, true));
    QuietTurnIsSerial(first, a);
    TurnIsSerial(s1, next, b, true);
    ThenSerial(QuietTurn(first, a), s1, Turn(next, b, true), t);
    acts := QuietTurn(first, a) + Turn(next, b, true);
    assert t.log[1] == t.log[..2][1];
  }

  // ------------------------------------------------------------------
  // The discipline is exact
  // ------------------------------------------------------------------

  /** Which parts of the discipline are kept. */
  datatype Discipline = Discipline(oneBranch: bool, serial: bool, writers: bool, committing: bool)

  ghost predicate Keeps(d: Discipline, acts: seq<Action>)
    requires ValidRun(INIT, acts)
  {
    && (d.oneBranch ==> exists key :: OneBranch(acts, key))
    && (d.serial ==> Serial(INIT, acts)) && (d.writers ==> Writers(acts)) && (d.committing ==> Committing(acts))
  }

  ghost predicate AlwaysAffine(d: Discipline) {
    forall acts | ValidRun(INIT, acts) && Keeps(d, acts) :: Affine(RunAll(INIT, acts).log)
  }

  const HELLO := Item("user", "hello")
  const AGAIN := Item("user", "again")

  /** A request of a short or, to continue it, a longer conversation. */
  function Talk(r: nat, branch: string, more: bool): Query {
    Query(r, "session", branch, Body("model", "", if more then [HELLO, AGAIN] else [HELLO], ""))
  }

  lemma TalksExtend(branch: string, other: string)
    requires branch != "" && other != ""
    ensures Ready(INIT, Talk(0, branch, false)) && Ready(INIT, Talk(1, other, false))
    ensures Extends(Talk(0, branch, false).body, Talk(2, branch, true).body)
  {
    InitIsReady(Talk(0, branch, false));
    InitIsReady(Talk(1, other, false));
    assert [HELLO] <= [HELLO, AGAIN];
    assert |[HELLO]| != |[HELLO, AGAIN]|;
  }

  lemma BranchesMatter(d: Discipline)
    requires !d.oneBranch
    ensures !AlwaysAffine(d)
  {
    TalksExtend("main", "side");
    var acts, t := AnotherBranchMoves(Talk(0, "main", false), Talk(1, "side", false), Talk(2, "main", true), [], [], []);
    assert Moved(t.log);
    MovedIsNotAffine(t.log);
    assert Keeps(d, acts);
  }

  /** A request that waits while others act is as orderly as they are. */
  lemma WaitingIsOrderly(k: Query, others: seq<Action>)
    requires Writers(others) && Committing(others) && OneBranch(others, KeyOf(k))
    ensures
      var acts := [Arrival(k)] + (others + Sending(k, Written, []));
      Writers(acts) && Committing(acts) && OneBranch(acts, KeyOf(k))
  {
    ActionsOf(others, Sending(k, Written, []), KeyOf(k));
    ActionsOf([Arrival(k)], others + Sending(k, Written, []), KeyOf(k));
  }

  lemma OrderMatters(d: Discipline)
    requires !d.serial
    ensures !AlwaysAffine(d)
  {
    TalksExtend("main", "main");
    var first, other, next := Talk(0, "main", false), Talk(1, "main", false), Talk(2, "main", true);
    var acts, t := AnotherRequestMoves(first, other, next, [], [], []);
    assert Moved(t.log);
    MovedIsNotAffine(t.log);
    var key := KeyOf(first);
    TurnIsOrderly(first, [], true);
    TurnIsOrderly(other, [], false);
    var waits := [Arrival(next)] + (Turn(other, [], false) + Sending(next, Written, []));
    WaitingIsOrderly(next, Turn(other, [], false));
    ActionsOf(Turn(first, [], true), waits, key);
    assert OneBranch(acts, key) && Keeps(d, acts);
  }

  lemma WritersMatter(d: Discipline)
    requires !d.writers
    ensures !AlwaysAffine(d)
  {
    TalksExtend("main", "main");
    var first, next := Talk(0, "main", false), Talk(2, "main", true);
    var acts, t := NoWriterMoves(first, next, [], []);
    assert Moved(t.log);
    MovedIsNotAffine(t.log);
    var key := KeyOf(first);
    TurnIsOrderly(first, [], true);
    ActionsOf([Arrival(next)], Sending(next, NotAWriter, []), key);
    ActionsOf(Turn(first, [], true), [Arrival(next)] + Sending(next, NotAWriter, []), key);
    assert OneBranch(acts, key) && Keeps(d, acts);
  }

  lemma CommitsMatter(d: Discipline)
    requires !d.committing
    ensures !AlwaysAffine(d)
  {
    TalksExtend("main", "main");
    var first, next := Talk(0, "main", false), Talk(2, "main", true);
    var acts, t := NoCommitMoves(first, next, [], []);
    assert Moved(t.log);
    MovedIsNotAffine(t.log);
    var key := KeyOf(first);
    QuietTurnIsOrderly(first, []);
    TurnIsOrderly(next, [], true);
    ActionsOf(QuietTurn(first, []), Turn(next, [], true), key);
    assert OneBranch(acts, key) && Keeps(d, acts);
  }

  /**
   Every shortened input goes where it belongs, in all runs that keep these parts of
   the discipline, if and only if all four are kept.
   */
  lemma DisciplineIsExact(d: Discipline)
    ensures AlwaysAffine(d) <==> d.oneBranch && d.serial && d.writers && d.committing
  {
    if !d.oneBranch {
      BranchesMatter(d);
    } else if !d.serial {
      OrderMatters(d);
    } else if !d.writers {
      WritersMatter(d);
    } else if !d.committing {
      CommitsMatter(d);
    } else {
      forall acts | ValidRun(INIT, acts) && Keeps(d, acts) ensures Affine(RunAll(INIT, acts).log) {
        var key :| OneBranch(acts, key);
        DisciplineKeepsAffinity(acts, key);
      }
    }
  }
}
