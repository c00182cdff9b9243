/**
 Connection affinity: is a shortened input sent on the websocket that had the
 response it continues?  When a step keeps that, and what a caller can do to be sure
 of it.
 */
module CodexAffinity {
  import opened Wrappers
  import opened Continuation
  import opened ResponsesSession
  import opened RecoveryStages
  import opened CodexProtocol
  import opened CodexProtocolProofs
  import opened CodexTheorems

  /** A response that continues another was asked for on the same websocket. */
  predicate AffineAt(log: seq<Entry>, i: nat)
    requires i < |log|
  {
    log[i].previous.Some? ==> log[i].previous.value < |log| && log[log[i].previous.value].conn == log[i].conn
  }

  ghost predicate Affine(log: seq<Entry>) {
    forall i | 0 <= i < |log| :: AffineAt(log, i)
  }

  // ------------------------------------------------------------------
  // One step, and so every run
  // ------------------------------------------------------------------

  /** The websocket that has response p is pooled for this session and takes the body. */
  predicate GoesWhereItWas(s: State, session: string, p: nat, dial: Dial)
    requires p < |s.log|
  {
    dial.write.Written? && s.pool == Some(PooledStream(s.log[p].conn, session))
  }

  /** A websocket is found or opened for the body. */
  predicate Opens(s: State, q: Req, dial: Dial) {
    var access := AccessOf(if s.pool.Some? then Some(s.pool.value.session) else None, q.session, dial);
    access.Reused? || access.Opened?
  }

  /** The step sends no shortened input to another websocket than the one it belongs to. */
  predicate Stays(s: State, a: Action)
    requires Enabled(s, a)
  {
    a.FirstSend? ==>
      var q := s.reqs[a.r];
      var p := q.decision.previousResponseID;
      p.Some? && Opens(s, q, a.dial) ==> p.value < |s.log| && GoesWhereItWas(s, q.session, p.value, a.dial)
  }

  /** The log as it was, and one more entry. */
  predicate OneMore(log: seq<Entry>, log1: seq<Entry>, previous: Option<nat>, conn: nat) {
    |log1| == |log| + 1 && log1[..|log|] == log && log1[|log|].previous == previous && log1[|log|].conn == conn
  }

  /** Where a send puts its entry: on the pooled websocket, or on a new one. */
  lemma SendLogs(s: State, r: nat, q: Req, out: Outgoing, dial: Dial, output: seq<Item>)
    requires Sane(s) && q.session != ""
    ensures
      var (t, got) := Send(s, r, q, out, dial, output);
      && (got.Some? <==> Opens(s, q, dial)) && (got.None? ==> t.log == s.log)
      && (got.Some? ==> OneMore(s.log, t.log, out.previous, got.value))
      && (got.Some? ==>
           got.value == if dial.write.Written? && s.pool.Some? && s.pool.value.session == q.session then s.pool.value.conn
                        else |s.conns|)
  {
  }

  lemma OneMoreAffine(log: seq<Entry>, log1: seq<Entry>, previous: Option<nat>, conn: nat)
    requires LogOk(log) && OneMore(log, log1, previous, conn) && (previous.Some? ==> previous.value < |log|)
    ensures Affine(log1) <==> Affine(log) && (previous.Some? ==> log[previous.value].conn == conn)
  {
    forall i | 0 <= i < |log| ensures AffineAt(log1, i) <==> AffineAt(log, i) {
      assert log1[i] == log1[..|log|][i] && EntryOk(log, i);
      if log[i].previous.Some? {
        assert log1[log[i].previous.value] == log1[..|log|][log[i].previous.value];
      }
    }
    if previous.Some? {
      assert log1[previous.value] == log1[..|log|][previous.value];
    }
    assert AffineAt(log1, |log|) <==> (previous.Some? ==> log[previous.value].conn == conn);
  }

  /** A continued send keeps affinity exactly when it goes where the previous response was. */
  lemma FirstSendAffine(s: State, r: nat, dial: Dial, output: seq<Item>)
    requires Inv(s) && Enabled(s, FirstSend(r, dial, output))
    ensures Affine(FirstSendStep(s, r, dial, output).log) <==> Affine(s.log) && Stays(s, FirstSend(r, dial, output))
  {
    var q := s.reqs[r];
    assert ReqOk(s.log, r, q);
    var out := SentBody(q, true);
    SendLogs(s, r, q, out, dial, output);
    var (t, got) := Send(s, r, q, out, dial, output);
    if got.Some? {
      OneMoreAffine(s.log, t.log, out.previous, got.value);
    }
  }

  /** A replay continues nothing, so it is affine wherever it goes. */
  lemma ReplayAffine(s: State, r: nat, q: Req, dial: Dial, output: seq<Item>)
    requires LogOk(s.log) && Sane(s) && q.session != ""
    ensures Affine(Send(s, r, q, Replay(q), dial, output).0.log) <==> Affine(s.log)
  {
    SendLogs(s, r, q, Replay(q), dial, output);
    var (t, got) := Send(s, r, q, Replay(q), dial, output);
    if got.Some? {
      OneMoreAffine(s.log, t.log, None, got.value);
    }
  }

  lemma RecoverAffine(s: State, r: nat, dial: Dial, output: seq<Item>, httpOk: bool)
    requires LogOk(s.log) && Sane(s) && r in s.reqs && s.reqs[r].session != ""
    ensures Affine(Recover(s, r, dial, output, httpOk).log) <==> Affine(s.log)
  {
    if s.reqs[r].stage.FreshWebSocket? {
      ReplayAffine(FailSession(s, r, s.reqs[r]), r, s.reqs[r], dial, output);
    }
  }

  /** In every state a run can reach a step keeps affinity if and only if it stays. */
  lemma StepAffine(s: State, a: Action)
    requires Inv(s) && Enabled(s, a)
    ensures Affine(Apply(s, a).log) <==> Affine(s.log) && Stays(s, a)
  {
    match a
    case FirstSend(r, dial, output) => FirstSendAffine(s, r, dial, output);
    case ReplaySend(r, dial, output) =>
      assert ReqOk(s.log, r, s.reqs[r]);
      ReplayAffine(FailSession(s, r, s.reqs[r]), r, s.reqs[r], dial, output);
    case StreamFails(r, recoverable, dial, output, httpOk) =>
      assert ReqOk(s.log, r, s.reqs[r]);
      RecoverAffine(BrokenState(s, r), r, dial, output, httpOk);
    case _ =>
  }

  /** Every step of the run stays. */
  ghost predicate AllStay(s: State, acts: seq<Action>)
    requires ValidRun(s, acts)
    decreases |acts|
  {
    acts == [] || (Stays(s, acts[0]) && AllStay(Apply(s, acts[0]), acts[1..]))
  }

  lemma {:induction false} RunAffine(s: State, acts: seq<Action>)
    requires Inv(s) && ValidRun(s, acts)
    ensures Affine(RunAll(s, acts).log) <==> Affine(s.log) && AllStay(s, acts)
    decreases |acts|
  {
    if acts != [] {
      StepAffine(s, acts[0]);
      StepKeepsInv(s, acts[0]);
      RunAffine(Apply(s, acts[0]), acts[1..]);
    }
  }

  /**
   For every run: each shortened input went to the websocket that had the response it
   continues, if and only if each time a websocket was found or opened for one, the
   pooled websocket was that one, belonged to the session, and took the body.
   */
  lemma AffineIff(acts: seq<Action>)
    requires ValidRun(INIT, acts)
    ensures Affine(RunAll(INIT, acts).log) <==> AllStay(INIT, acts)
  {
    RunAffine(INIT, acts);
  }

  /** For one send after any run, by its entry in the log. */
  lemma ContinuesInPlaceIff(acts: seq<Action>, r: nat, dial: Dial, output: seq<Item>)
    requires ValidRun(INIT, acts) && Enabled(RunAll(INIT, acts), FirstSend(r, dial, output))
    requires var s := RunAll(INIT, acts); s.reqs[r].decision.previousResponseID.Some? && Opens(s, s.reqs[r], dial)
    ensures Sane(RunAll(INIT, acts))
    ensures
      var s := RunAll(INIT, acts);
      var p := s.reqs[r].decision.previousResponseID.value;
      var t := Apply(s, FirstSend(r, dial, output));
      && p < |s.log| && |t.log| == |s.log| + 1 && t.log[|s.log|].previous == Some(p) && t.log[p] == s.log[p]
      && (t.log[|s.log|].conn == t.log[p].conn <==> GoesWhereItWas(s, s.reqs[r].session, p, dial))
  {
    Reachable(acts);
    var s := RunAll(INIT, acts);
    var q := s.reqs[r];
    assert ReqOk(s.log, r, q);
    var out := SentBody(q, true);
    SendLogs(s, r, q, out, dial, output);
    var t := Send(s, r, q, out, dial, output).0;
    var p := q.decision.previousResponseID.value;
    assert t.log[p] == t.log[..|s.log|][p];
  }

  // ------------------------------------------------------------------
  // A discipline that keeps affinity
  // ------------------------------------------------------------------

  /** The caller has one session and branch. */
  predicate OneBranch(acts: seq<Action>, key: Key) {
    forall a | a in acts && a.Arrive? :: Key(a.session, a.branch) == key
  }

  predicate Quiet(s: State) {
    forall r | r in s.reqs :: s.reqs[r].phase.Finished?
  }

  /** No request arrives while another is unfinished. */
  ghost predicate Serial(s: State, acts: seq<Action>)
    requires ValidRun(s, acts)
    decreases |acts|
  {
    acts == [] || ((acts[0].Arrive? ==> Quiet(s)) && Serial(Apply(s, acts[0]), acts[1..]))
  }

  /** The websockets of the run can be written to. */
  predicate Writes(a: Action) {
    a.FirstSend? || a.ReplaySend? || a.StreamFails? ==> !a.dial.write.NotAWriter?
  }

  predicate Writers(acts: seq<Action>) {
    forall a | a in acts :: Writes(a)
  }

  /** A completion is a commit frame. */
  predicate Commits(a: Action) {
    a.Receive? && a.frame.Part? && a.frame.completes ==> a.frame.commits
  }

  predicate Committing(acts: seq<Action>) {
    forall a | a in acts :: Commits(a)
  }

  /** The responses asked for on a websocket are logged with it. */
  ghost predicate TurnsOk(s: State) {
    forall c, k | 0 <= c < |s.conns| && 0 <= k < |s.conns[c].turns| ::
      s.conns[c].turns[k] < |s.log| && s.log[s.conns[c].turns[k]].conn == c
  }

  /** The pooled websocket is the one of response p. */
  predicate PooledFor(s: State, p: nat, session: string) {
    p < |s.log| && s.pool == Some(PooledStream(s.log[p].conn, session))
  }

  /** What the table remembers of the branch is on the pooled websocket. */
  predicate Remembered(s: State, key: Key) {
    var id := Lookup(s.table, key).lastResponseID;
    id.Some? ==> PooledFor(s, id.value, key.session)
  }

  /** The websocket a request reads, or read to the completion, is the pooled one. */
  predicate Reads(s: State, q: Req) {
    && s.pool == Some(PooledStream(q.active, q.session))
    && (q.lastId.Some? ==> q.lastId.value < |s.log| && s.log[q.lastId.value].conn == q.active)
    && (q.completed ==> q.started)
  }

  predicate PhaseOk(s: State, q: Req, key: Key) {
    match q.phase
    case Arrived => q.decision.previousResponseID.Some? ==> PooledFor(s, q.decision.previousResponseID.value, key.session)
    case Acquired => q.decision.previousResponseID.Some? ==> PooledFor(s, q.decision.previousResponseID.value, key.session)
    case Streaming => Reads(s, q)
    case Broken => q.completed ==> Reads(s, q)
    case _ => true
  }

  /** The requests of one branch, one after the other. */
  ghost predicate Queued(s: State, key: Key) {
    && (forall r | r in s.reqs :: Key(s.reqs[r].session, s.reqs[r].branch) == key && PhaseOk(s, s.reqs[r], key))
    && (forall r, x | r in s.reqs && x in s.reqs && !s.reqs[r].phase.Finished? && !s.reqs[x].phase.Finished? :: r == x)
    && ((forall r | r in s.reqs :: !s.reqs[r].phase.Lost?) ==> Remembered(s, key))
    && (s.pool.Some? ==> s.pool.value.session == key.session)
  }

  ghost predicate Orderly(s: State, key: Key) {
    Inv(s) && TurnsOk(s) && Queued(s, key)
  }

  /** Request r is the one unfinished request. */
  ghost predicate Alone(s: State, r: nat) {
    r in s.reqs && forall x | x in s.reqs && x != r :: s.reqs[x].phase.Finished?
  }

  /** The one unfinished request moves on, over a new shared state. */
  lemma MovesOn(s: State, s1: State, r: nat, q: Req, key: Key)
    requires Queued(s, key) && Alone(s, r) && s1.reqs.Keys == s.reqs.Keys
    requires forall x | x in s.reqs && x != r :: s1.reqs[x] == s.reqs[x]
    requires Key(q.session, q.branch) == key
    requires PhaseOk(Update(s1, r, q), q, key)
    requires q.phase.Lost? || Remembered(s1, key)
    requires s1.pool.Some? ==> s1.pool.value.session == key.session
    ensures Queued(Update(s1, r, q), key)
  {
    var t := Update(s1, r, q);
    assert r in t.reqs;
  }

  lemma AloneWhile(s: State, r: nat, key: Key)
    requires Queued(s, key) && r in s.reqs && !s.reqs[r].phase.Finished?
    ensures Alone(s, r)
  {
  }

  /** The entries and websockets of a state, for the next ones. */
  lemma AskTurns(s: State, r: nat, q: Req, c: nat, out: Outgoing, output: seq<Item>)
    requires TurnsOk(s) && c < |s.conns|
    ensures TurnsOk(Ask(s, r, q, c, out, output))
  {
    var t := Ask(s, r, q, c, out, output);
    forall d, k | 0 <= d < |t.conns| && 0 <= k < |t.conns[d].turns|
      ensures t.conns[d].turns[k] < |t.log| && t.log[t.conns[d].turns[k]].conn == d
    {
      if d != c || k < |s.conns[c].turns| {
        assert t.conns[d].turns[k] == s.conns[d].turns[k];
      }
    }
  }

  lemma CloseTurns(s: State, r: nat)
    requires TurnsOk(s)
    ensures TurnsOk(CloseLocked(s, r))
  {
    forall c | 0 <= c < |s.conns| ensures CloseLocked(s, r).conns[c].turns == s.conns[c].turns {
    }
  }

  lemma SendTurns(s: State, r: nat, q: Req, out: Outgoing, dial: Dial, output: seq<Item>)
    requires TurnsOk(s) && Sane(s)
    ensures TurnsOk(Send(s, r, q, out, dial, output).0)
  {
    CloseTurns(s, r);
    match AccessOf(if s.pool.Some? then Some(s.pool.value.session) else None, q.session, dial)
    case Reused => AskTurns(s, r, q, s.pool.value.conn, out, output);
    case Opened =>
      var s1 := if s.pool.Some? then CloseLocked(s, r) else s;
      var c := |s1.conns|;
      var s2 := s1.(conns := s1.conns + [Conn(true, [], 0)], pool := Some(PooledStream(c, q.session)));
      assert TurnsOk(s2);
      AskTurns(s2, r, q, c, out, output);
    case _ =>
  }

  lemma StepTurns(s: State, a: Action)
    requires Inv(s) && TurnsOk(s) && Enabled(s, a)
    ensures TurnsOk(Apply(s, a))
  {
    match a
    case FirstSend(r, dial, output) => SendTurns(s, r, s.reqs[r], SentBody(s.reqs[r], true), dial, output);
    case ReplaySend(r, dial, output) => ReplayTurns(s, r, dial, output);
    case StreamFails(r, recoverable, dial, output, httpOk) => FailTurns(s, r, recoverable, dial, output, httpOk);
    case CloseStream(r) => CloseStepTurns(s, r);
    case Receive(r, frame) => ReceiveTurns(s, r, frame);
    case _ =>
  }

  lemma FailTurns(s: State, r: nat, recoverable: bool, dial: Dial, output: seq<Item>, httpOk: bool)
    requires TurnsOk(s) && Sane(s) && r in s.reqs
    ensures TurnsOk(StreamFailsStep(s, r, recoverable, dial, output, httpOk))
  {
    CloseTurns(s, r);
    RecoverTurns(BrokenState(s, r), r, dial, output, httpOk);
  }

  lemma CloseStepTurns(s: State, r: nat)
    requires TurnsOk(s) && r in s.reqs
    ensures TurnsOk(CloseStep(s, r))
  {
    CloseTurns(s, r);
  }

  lemma ReplayTurns(s: State, r: nat, dial: Dial, output: seq<Item>)
    requires TurnsOk(s) && Sane(s) && r in s.reqs
    ensures TurnsOk(ReplaySendStep(s, r, dial, output))
  {
    CloseTurns(s, r);
    SendTurns(FailSession(s, r, s.reqs[r]), r, s.reqs[r], Replay(s.reqs[r]), dial, output);
  }

  lemma ReceiveTurns(s: State, r: nat, frame: Frame)
    requires TurnsOk(s) && r in s.reqs && s.reqs[r].active < |s.conns|
    ensures TurnsOk(ReceiveStep(s, r, frame))
  {
    forall c | 0 <= c < |s.conns| ensures ReceiveStep(s, r, frame).conns[c].turns == s.conns[c].turns {
    }
  }

  lemma RecoverTurns(s: State, r: nat, dial: Dial, output: seq<Item>, httpOk: bool)
    requires TurnsOk(s) && Sane(s) && r in s.reqs
    ensures TurnsOk(Recover(s, r, dial, output, httpOk))
  {
    CloseTurns(s, r);
    if s.reqs[r].stage.FreshWebSocket? {
      var s1 := FailSession(s, r, s.reqs[r]);
      SendTurns(s1, r, s.reqs[r], Replay(s.reqs[r]), dial, output);
      CloseTurns(Send(s1, r, s.reqs[r], Replay(s.reqs[r]), dial, output).0, r);
    }
  }

  // ------------------------------------------------------------------
  // The discipline, step by step
  // ------------------------------------------------------------------

  /** A request that arrives while all others are finished is offered what is on the pooled websocket. */
  lemma ArriveQueues(s: State, r: nat, body: Body, key: Key)
    requires Orderly(s, key) && Quiet(s) && Enabled(s, Arrive(r, key.session, key.branch, body))
    ensures Queued(Apply(s, Arrive(r, key.session, key.branch, body)), key)
  {
    var t := Apply(s, Arrive(r, key.session, key.branch, body));
    assert Remembered(s, key);
    assert Remembered(t, key) && r in t.reqs;
    forall x | x in t.reqs ensures Key(t.reqs[x].session, t.reqs[x].branch) == key && PhaseOk(t, t.reqs[x], key) {
      if x != r {
        assert t.reqs[x] == s.reqs[x];
      }
    }
  }

  lemma AcquireQueues(s: State, r: nat, key: Key)
    requires Orderly(s, key) && Enabled(s, Acquire(r))
    ensures Queued(Apply(s, Acquire(r)), key)
  {
    AloneWhile(s, r, key);
    MovesOn(s, s.(holder := Some(r)), r, s.reqs[r].(phase := Acquired), key);
  }

  /** What a request finds when it is alone, holds the lock and its websockets are writers. */
  lemma SendFinds(s: State, r: nat, q: Req, out: Outgoing, dial: Dial, output: seq<Item>, key: Key)
    requires Sane(s) && q.session == key.session != "" && !dial.write.NotAWriter?
    requires s.pool.Some? ==> s.pool.value.session == key.session
    requires Remembered(s, key)
    ensures
      var (t, got) := Send(s, r, q, out, dial, output);
      && t.reqs == s.reqs && t.table == s.table
      && (got.None? ==> t.pool.None? && (s.pool.None? ==> Remembered(t, key)))
      && (got.Some? ==> t.pool == Some(PooledStream(got.value, key.session)) && Remembered(t, key))
  {
  }

  lemma FirstSendQueues(s: State, r: nat, dial: Dial, output: seq<Item>, key: Key)
    requires Orderly(s, key) && Enabled(s, FirstSend(r, dial, output)) && !dial.write.NotAWriter?
    ensures Queued(Apply(s, FirstSend(r, dial, output)), key)
  {
    var q := s.reqs[r];
    assert ReqOk(s.log, r, q);
    AloneWhile(s, r, key);
    assert Remembered(s, key);
    var out := SentBody(q, true);
    SendFinds(s, r, q, out, dial, output, key);
    var (t, got) := Send(s, r, q, out, dial, output);
    MovesOn(s, t, r, if got.Some? then Stream(q, got.value, FreshWebSocket) else q.(phase := Lost), key);
  }

  /** With a pool for the branch that is the previous response's, or none, a first send stays. */
  lemma FirstSendStays(s: State, r: nat, dial: Dial, output: seq<Item>, key: Key)
    requires Orderly(s, key) && Enabled(s, FirstSend(r, dial, output)) && !dial.write.NotAWriter?
    ensures Stays(s, FirstSend(r, dial, output))
  {
    var q := s.reqs[r];
    assert ReqOk(s.log, r, q);
    assert PhaseOk(s, q, key);
  }

  /** The session is dropped and the continuation with it. */
  lemma FailForgets(s: State, r: nat, q: Req, key: Key)
    requires Key(q.session, q.branch) == key && key.session != "" && key.branch != ""
    ensures Remembered(FailSession(s, r, q), key) && FailSession(s, r, q).pool.None?
  {
  }

  /** A replay on the way back from a failure: on a new websocket, or on none. */
  lemma ReplayFinds(s: State, r: nat, dial: Dial, output: seq<Item>, key: Key)
    requires r in s.reqs && Key(s.reqs[r].session, s.reqs[r].branch) == key && key.session != "" && key.branch != ""
    requires !dial.write.NotAWriter?
    ensures
      var q := s.reqs[r];
      var (t, got) := Send(FailSession(s, r, q), r, q, Replay(q), dial, output);
      && t.reqs == s.reqs && Remembered(t, key)
      && (got.None? ==> t.pool.None?) && (got.Some? ==> t.pool == Some(PooledStream(got.value, key.session)))
  {
    var q := s.reqs[r];
    FailForgets(s, r, q, key);
    SendFinds(FailSession(s, r, q), r, q, Replay(q), dial, output, key);
  }

  lemma ReplaySendQueues(s: State, r: nat, dial: Dial, output: seq<Item>, key: Key)
    requires Orderly(s, key) && Enabled(s, ReplaySend(r, dial, output)) && !dial.write.NotAWriter?
    ensures Queued(Apply(s, ReplaySend(r, dial, output)), key)
  {
    var q := s.reqs[r];
    assert ReqOk(s.log, r, q);
    AloneWhile(s, r, key);
    ReplayFinds(s, r, dial, output, key);
    var (t, got) := Send(FailSession(s, r, q), r, q, Replay(q), dial, output);
    if got.Some? {
      MovesOn(s, t, r, Stream(q, got.value, HttpSse), key);
    } else {
      var q1 := q.(phase := HttpPending, releases := 1);
      MovesOn(s, t.(holder := None), r, q1, key);
      assert t.reqs[r := q.(phase := HttpPending)][r := q1] == t.reqs[r := q1];
    }
  }

  lemma OpenHttpQueues(s: State, r: nat, ok: bool, key: Key)
    requires Orderly(s, key) && Enabled(s, OpenHttp(r, ok))
    ensures Queued(Apply(s, OpenHttp(r, ok)), key)
  {
    AloneWhile(s, r, key);
    MovesOn(s, s, r, s.reqs[r].(phase := if ok then OverHttp else Finished), key);
  }

  lemma ReceiveQueues(s: State, r: nat, frame: Frame, key: Key)
    requires Orderly(s, key) && Enabled(s, Receive(r, frame)) && Commits(Receive(r, frame))
    ensures Queued(Apply(s, Receive(r, frame)), key)
  {
    if frame.Part? {
      AloneWhile(s, r, key);
      var q := s.reqs[r];
      assert PhaseOk(s, q, key);
      var t := Apply(s, Receive(r, frame));
      MovesOn(s, s.(conns := t.conns), r, t.reqs[r], key);
      assert t == Update(s.(conns := t.conns), r, t.reqs[r]);
    }
  }

  /** The fields of a request that is taken to HTTP. */
  function OnHttp(q: Req, httpOk: bool): Req {
    q.(releases := if q.releases > 0 then q.releases else 1, stage := RecoveryDone,
       phase := if httpOk then OverHttp else Broken, started := q.started || httpOk)
  }

  lemma HttpShape(s: State, r: nat, httpOk: bool)
    requires r in s.reqs
    ensures RecoverHttp(s, r, httpOk) == Update(Release(CloseLocked(s, r), r), r, OnHttp(s.reqs[r], httpOk))
  {
  }

  /** A request alone goes to HTTP, or ends without a stream: nothing is pooled and nothing remembered. */
  lemma HttpQueues(s: State, s1: State, r: nat, httpOk: bool, key: Key)
    requires Queued(s, key) && Alone(s, r) && s1.reqs.Keys == s.reqs.Keys
    requires forall x | x in s.reqs && x != r :: s1.reqs[x] == s.reqs[x]
    requires Key(s1.reqs[r].session, s1.reqs[r].branch) == key && !s1.reqs[r].completed
    requires Lookup(s1.table, key).lastResponseID.None?
    ensures Queued(RecoverHttp(s1, r, httpOk), key)
  {
    var s2 := Release(CloseLocked(s1, r), r);
    HttpShape(s1, r, httpOk);
    MovesOn(s, s2, r, OnHttp(s1.reqs[r], httpOk), key);
  }

  /** The stream of a request alone breaks, before its response completed. */
  lemma BrokenForgets(s: State, r: nat, key: Key)
    requires Orderly(s, key) && r in s.reqs && s.reqs[r].phase.Streaming? && !s.reqs[r].completed
    ensures
      var s1 := BrokenState(s, r);
      && Queued(s1, key) && Alone(s1, r) && Lookup(s1.table, key).lastResponseID.None?
      && s1.reqs[r].phase.Broken? && !s1.reqs[r].completed && Key(s1.reqs[r].session, s1.reqs[r].branch) == key
  {
    var q := s.reqs[r];
    assert ReqOk(s.log, r, q);
    AloneWhile(s, r, key);
    FailForgets(s, r, q, key);
    MovesOn(s, FailSession(s, r, q), r, q.(failArmed := false, phase := Broken), key);
  }

  lemma RecoverQueues(s: State, r: nat, dial: Dial, output: seq<Item>, httpOk: bool, key: Key)
    requires Queued(s, key) && Alone(s, r) && Lookup(s.table, key).lastResponseID.None?
    requires s.reqs[r].phase.Broken? && !s.reqs[r].completed && key.session != "" && key.branch != ""
    requires Key(s.reqs[r].session, s.reqs[r].branch) == key && !dial.write.NotAWriter?
    ensures Queued(Recover(s, r, dial, output, httpOk), key)
  {
    var q := s.reqs[r];
    match q.stage
    case FreshWebSocket =>
      ReplayFinds(s, r, dial, output, key);
      var (t, got) := Send(FailSession(s, r, q), r, q, Replay(q), dial, output);
      if got.Some? {
        MovesOn(s, t, r, Stream(q, got.value, HttpSse), key);
      } else {
        HttpQueues(s, t, r, httpOk, key);
      }
    case HttpSse => HttpQueues(s, s, r, httpOk, key);
    case RecoveryDone =>
  }

  lemma StreamFailsQueues(s: State, a: Action, key: Key)
    requires Orderly(s, key) && Enabled(s, a) && a.StreamFails? && Writes(a)
    ensures Queued(Apply(s, a), key)
  {
    var r, q := a.r, s.reqs[a.r];
    assert ReqOk(s.log, r, q) && PhaseOk(s, q, key);
    AloneWhile(s, r, key);
    if q.completed {
      MovesOn(s, s, r, q.(phase := Broken), key);
    } else {
      BrokenForgets(s, r, key);
      if !q.started && a.recoverable {
        RecoverQueues(BrokenState(s, r), r, a.dial, a.output, a.httpOk, key);
      }
    }
  }

  /** What the closing request leaves of table and websockets. */
  function LeftBehind(s: State, r: nat): State
    requires r in s.reqs
  {
    var q := s.reqs[r];
    var commits := q.completed && q.commitArmed && q.decision.commit.Some?;
    var s0 := if commits then s.(table := CommitTable(s, q)) else if q.failArmed then FailSession(s, r, q) else s;
    if q.releases > 0 then s0 else s0.(holder := None)
  }

  lemma LeftRemembered(s: State, r: nat, key: Key)
    requires Orderly(s, key) && Enabled(s, CloseStream(r)) && !s.reqs[r].phase.OverHttp?
    ensures Remembered(LeftBehind(s, r), key)
    ensures LeftBehind(s, r).pool.Some? ==> LeftBehind(s, r).pool.value.session == key.session
    ensures LeftBehind(s, r).reqs == s.reqs
  {
    var q := s.reqs[r];
    assert ReqOk(s.log, r, q) && PhaseOk(s, q, key);
    AloneWhile(s, r, key);
    assert Remembered(s, key);
    if q.completed && q.commitArmed && q.decision.commit.Some? {
      assert q.decision.commit.value.key == key;
    } else if q.failArmed {
      FailForgets(s, r, q, key);
    }
  }

  lemma CloseHttpQueues(s: State, r: nat, key: Key)
    requires Orderly(s, key) && Enabled(s, CloseStream(r)) && s.reqs[r].phase.OverHttp?
    ensures Queued(CloseStep(s, r), key)
  {
    AloneWhile(s, r, key);
    MovesOn(s, s, r, s.reqs[r].(phase := Finished), key);
  }

  lemma CloseWebSocketQueues(s: State, r: nat, key: Key)
    requires Orderly(s, key) && Enabled(s, CloseStream(r)) && !s.reqs[r].phase.OverHttp?
    ensures Queued(Update(LeftBehind(s, r), r, Closed(s.reqs[r])), key)
  {
    AloneWhile(s, r, key);
    LeftRemembered(s, r, key);
    MovesOn(s, LeftBehind(s, r), r, Closed(s.reqs[r]), key);
  }

  lemma CloseStreamQueues(s: State, r: nat, key: Key)
    requires Orderly(s, key) && Enabled(s, CloseStream(r))
    ensures Queued(Apply(s, CloseStream(r)), key)
  {
    if s.reqs[r].phase.OverHttp? {
      CloseHttpQueues(s, r, key);
    } else {
      CloseStepShape(s, r);
      CloseWebSocketQueues(s, r, key);
    }
  }

  /** Other goroutines cannot make the table remember a response. */
  lemma TableStepQueues(s: State, a: Action, key: Key)
    requires Orderly(s, key) && (a.SetTurnState? || a.Invalidate?)
    ensures Queued(Apply(s, a), key)
  {
    var t := Apply(s, a);
    assert t.reqs == s.reqs && t.pool == s.pool && t.log == s.log;
    assert Remembered(s, key) ==> Remembered(t, key);
  }

  /** An action of the discipline. */
  predicate Allowed(s: State, a: Action, key: Key) {
    && (a.Arrive? ==> Key(a.session, a.branch) == key && Quiet(s))
    && Writes(a) && Commits(a)
  }

  lemma StepQueues(s: State, a: Action, key: Key)
    requires Orderly(s, key) && Enabled(s, a) && Allowed(s, a, key)
    ensures Orderly(Apply(s, a), key) && Stays(s, a)
  {
    StepKeepsInv(s, a);
    StepTurns(s, a);
    match a
    case Arrive(r, session, branch, body) => ArriveQueues(s, r, body, key);
    case Acquire(r) => AcquireQueues(s, r, key);
    case FirstSend(r, dial, output) =>
      FirstSendQueues(s, r, dial, output, key);
      FirstSendStays(s, r, dial, output, key);
    case ReplaySend(r, dial, output) => ReplaySendQueues(s, r, dial, output, key);
    case OpenHttp(r, ok) => OpenHttpQueues(s, r, ok, key);
    case Receive(r, frame) => ReceiveQueues(s, r, frame, key);
    case StreamFails(_, _, _, _, _) => StreamFailsQueues(s, a, key);
    case CloseStream(r) => CloseStreamQueues(s, r, key);
    case SetTurnState(_, _, _) => TableStepQueues(s, a, key);
    case Invalidate(_, _) => TableStepQueues(s, a, key);
  }

  lemma {:induction false} DisciplineStays(s: State, acts: seq<Action>, key: Key)
    requires Orderly(s, key) && ValidRun(s, acts)
    requires OneBranch(acts, key) && Serial(s, acts) && Writers(acts) && Committing(acts)
    ensures AllStay(s, acts)
    decreases |acts|
  {
    if acts != [] {
      assert acts[0] in acts && forall a | a in acts[1..] :: a in acts;
      StepQueues(s, acts[0], key);
      DisciplineStays(Apply(s, acts[0]), acts[1..], key);
    }
  }

  /**
   A caller with one session and branch that sends no request while another is
   unfinished, over websockets that can be written to and with completions that are
   commit frames, has every shortened input sent where it belongs.
   */
  lemma DisciplineKeepsAffinity(acts: seq<Action>, key: Key)
    requires ValidRun(INIT, acts)
    requires OneBranch(acts, key) && Serial(INIT, acts) && Writers(acts) && Committing(acts)
    ensures Affine(RunAll(INIT, acts).log)
  {
    DisciplineStays(INIT, acts, key);
    AffineIff(acts);
  }
}
