/**
 What each step of a request does in every run, said by what the network and the server
 do: when the body is sent and where, when the request goes over to HTTP, and what its
 end leaves.  And so every request can be brought to its end.
 */
module CodexRecovery {
  import opened Wrappers
  import opened Continuation
  import opened RecoveryStages
  import opened ResponsesSession
  import opened CodexProtocol
  import opened CodexProtocolProofs
  import opened CodexTheorems

  // ------------------------------------------------------------------
  // What can be seen of a step
  // ------------------------------------------------------------------

  /** Other websockets were asked for nothing. */
  ghost predicate OthersAsked(s: State, t: State, c: nat) {
    && |s.conns| <= |t.conns|
    && forall d | 0 <= d < |s.conns| && d != c :: t.conns[d].turns == s.conns[d].turns && t.conns[d].consumed == s.conns[d].consumed
  }

  /** The server is asked once more: for r's own request, on websocket c, as an exact replay or a continuation. */
  ghost predicate AskedOnce(s: State, t: State, r: nat, c: nat, previous: Option<nat>, output: seq<Item>)
    requires r in s.reqs
  {
    var q := s.reqs[r];
    && |t.log| == |s.log| + 1 && t.log[..|s.log|] == s.log
    && var e := t.log[|s.log|];
    && e.owner == r && e.conn == c && e.previous == previous && e.full == InputOf(q.body) && e.output == output
    && EntryOk(t.log, |s.log|)
    && OthersAsked(s, t, c) && c < |t.conns| && t.conns[c].open
    && t.conns[c].turns == (if c < |s.conns| then s.conns[c].turns else []) + [|s.log|]
  }

  /** Request r has the lock and is about to read the answer from websocket c, which is pooled. */
  ghost predicate ReadsFrom(t: State, r: nat, session: string, c: nat, stage: Stage) {
    && t.holder == Some(r) && t.pool == Some(PooledStream(c, session))
    && r in t.reqs && t.reqs[r].phase.Streaming? && t.reqs[r].active == c && t.reqs[r].stage == stage
    && !t.reqs[r].started && !t.reqs[r].completed && t.reqs[r].lastId.None?
  }

  /** The continuation of request r is forgotten, and no other. */
  ghost predicate Forgot(s: State, t: State, q: Req) {
    t.table == s.table - {Key(q.session, q.branch)}
  }

  /** Request r sent its whole input to a new websocket, with HTTP as the only recovery left. */
  ghost predicate Replayed(s: State, t: State, r: nat, output: seq<Item>)
    requires r in s.reqs
  {
    var q := s.reqs[r];
    && AskedOnce(s, t, r, |s.conns|, None, output) && t.log[|s.log|].sent == InputOf(q.body)
    && ReadsFrom(t, r, q.session, |s.conns|, HttpSse) && Forgot(s, t, q)
  }

  /** Request r gave up on websockets and gave the lock back. */
  ghost predicate Leaves(s: State, t: State, r: nat, phase: Phase) {
    && t.log == s.log && t.pool.None? && t.holder.None? && OthersAsked(s, t, |s.conns|) && |t.conns| == |s.conns|
    && r in t.reqs && t.reqs[r].phase == phase && t.reqs[r].releases == 1
  }

  // ------------------------------------------------------------------
  // Sending
  // ------------------------------------------------------------------

  /** What asking adds, on a websocket of a state that has the websockets of s. */
  lemma AskAdds(s: State, s1: State, r: nat, q: Req, c: nat, continues: bool, output: seq<Item>)
    requires r in s.reqs && DecisionOk(s.log, q) && InputOf(q.body) == InputOf(s.reqs[r].body)
    requires s1.log == s.log && OthersAsked(s, s1, |s.conns|) && c < |s1.conns| && s1.conns[c].open
    requires s1.conns[c].turns == if c < |s.conns| then s.conns[c].turns else []
    ensures
      var t := Ask(s1, r, q, c, SentBody(q, continues), output);
      && AskedOnce(s, t, r, c, if continues then q.decision.previousResponseID else None, output)
      && (!continues ==> t.log[|s.log|].sent == InputOf(q.body))
  {
    var out := SentBody(q, continues);
    var e := Entry(r, c, out.previous, InputOf(out.body), InputOf(q.body), output);
    EntryIsLinked(s, q, e, continues);
    var t := Ask(s1, r, q, c, out, output);
    assert t.log == s.log + [e];
    assert t.log[..|s.log|] == s.log;
  }

  /** Is the pooled websocket one of this session? */
  predicate Mine(s: State, session: string) {
    s.pool.Some? && s.pool.value.session == session
  }

  /** Is there a websocket for a body of this session: the pooled one takes it, or a new one opens? */
  predicate Finds(s: State, session: string, dial: Dial) {
    (Mine(s, session) && dial.write.Written?) || (!(Mine(s, session) && dial.write.WriteFailed?) && dial.opens)
  }

  /** Which one? */
  function Where(s: State, session: string, dial: Dial): nat {
    if Mine(s, session) && dial.write.Written? then s.pool.value.conn else |s.conns|
  }

  /** A send: whether the body goes out, where to, and what the server is then asked. */
  lemma SendAsks(s: State, r: nat, q: Req, continues: bool, dial: Dial, output: seq<Item>)
    requires r in s.reqs && q.session != "" && DecisionOk(s.log, q) && PoolOk(s)
    requires InputOf(q.body) == InputOf(s.reqs[r].body)
    ensures
      var (t, got) := Send(s, r, q, SentBody(q, continues), dial, output);
      && t.table == s.table && t.holder == s.holder && t.reqs == s.reqs
      && got == (if Finds(s, q.session, dial) then Some(Where(s, q.session, dial)) else None)
      && (got.None? ==> t.log == s.log && t.pool.None? && |t.conns| == |s.conns| && OthersAsked(s, t, |s.conns|))
      && (got.Some? ==>
           && t.pool == Some(PooledStream(got.value, q.session))
           && AskedOnce(s, t, r, got.value, if continues then q.decision.previousResponseID else None, output)
           && (!continues ==> t.log[|s.log|].sent == InputOf(q.body)))
  {
    var pooled := if s.pool.Some? then Some(s.pool.value.session) else None;
    match AccessOf(pooled, q.session, dial)
    case LostOnWrite =>
    case DialFailed =>
    case Reused => AskAdds(s, s, r, q, s.pool.value.conn, continues, output);
    case Opened =>
      var s1 := if s.pool.Some? then CloseLocked(s, r) else s;
      var c := |s1.conns|;
      var s2 := s1.(conns := s1.conns + [Conn(true, [], 0)], pool := Some(PooledStream(c, q.session)));
      AskAdds(s, s2, r, q, c, continues, output);
  }

  /**
   In every run: the first send goes to the pooled websocket when that is one of the
   session and takes the body, to a new one when one is opened, and asks the server
   for the continuation decided on arrival.  Otherwise nothing is sent, no websocket is
   pooled, and the request keeps the lock.
   */
  lemma FirstSendAsks(acts: seq<Action>, r: nat, dial: Dial, output: seq<Item>)
    requires ValidRun(INIT, acts) && Enabled(RunAll(INIT, acts), FirstSend(r, dial, output))
    ensures Sane(RunAll(INIT, acts))
    ensures
      var s := RunAll(INIT, acts);
      var q := s.reqs[r];
      var t := Apply(s, FirstSend(r, dial, output));
      && t.table == s.table
      && if Finds(s, q.session, dial) then
           && AskedOnce(s, t, r, Where(s, q.session, dial), q.decision.previousResponseID, output)
           && ReadsFrom(t, r, q.session, Where(s, q.session, dial), FreshWebSocket)
         else
           && t.log == s.log && t.pool.None? && t.holder == Some(r)
           && r in t.reqs && t.reqs[r].phase.Lost? && OthersAsked(s, t, |s.conns|)
  {
    Reachable(acts);
    var s := RunAll(INIT, acts);
    assert ReqOk(s.log, r, s.reqs[r]) && Holding(s.reqs[r]);
    SendAsks(s, r, s.reqs[r], true, dial, output);
  }

  lemma FailSessionShape(s: State, r: nat, q: Req)
    requires Base(s) && q.session != "" && q.branch != ""
    ensures
      var t := FailSession(s, r, q);
      && t.log == s.log && t.pool.None? && t.holder == s.holder && t.reqs == s.reqs && Forgot(s, t, q)
      && |t.conns| == |s.conns| && OthersAsked(s, t, |s.conns|) && Base(t)
  {
    FailSessionKeepsBase(s, r, q);
  }

  /** A replay from a state in which nothing of the log and of the websockets' turns has changed since s. */
  lemma ReplayAsks(s: State, s1: State, r: nat, dial: Dial, output: seq<Item>)
    requires Inv(s) && s.holder == Some(r) && r in s.reqs && r in s1.reqs && Base(s1)
    requires s1.holder == s.holder && s1.log == s.log && s1.pool.None? && Forgot(s, s1, s.reqs[r])
    requires |s1.conns| == |s.conns| && OthersAsked(s, s1, |s.conns|)
    requires s1.reqs[r].session == s.reqs[r].session && s1.reqs[r].body == s.reqs[r].body
    ensures
      var q := s1.reqs[r];
      var (t, got) := Send(s1, r, q, Replay(q), dial, output);
      && (got.Some? <==> dial.opens)
      && (got.Some? ==> Replayed(s, Update(t, r, Stream(q, got.value, HttpSse)), r, output))
      && (got.None? ==> t.log == s.log && t.pool.None? && t.holder == Some(r) && t.reqs == s1.reqs && Forgot(s, t, s.reqs[r])
                        && |t.conns| == |s.conns| && OthersAsked(s, t, |s.conns|))
  {
    assert ReqOk(s.log, r, s.reqs[r]) && ReqOk(s1.log, r, s1.reqs[r]);
    SendAsks(s1, r, s1.reqs[r], false, dial, output);
  }

  /**
   In every run: a request whose first send was lost sends its whole input on a new
   websocket if one opens, and the server is asked just that once more.  Otherwise the
   request gives the lock back and turns to HTTP.  Its continuation is forgotten.
   */
  lemma LostRequestsReplay(acts: seq<Action>, r: nat, dial: Dial, output: seq<Item>)
    requires ValidRun(INIT, acts) && Enabled(RunAll(INIT, acts), ReplaySend(r, dial, output))
    ensures Sane(RunAll(INIT, acts))
    ensures
      var s := RunAll(INIT, acts);
      var t := Apply(s, ReplaySend(r, dial, output));
      && Forgot(s, t, s.reqs[r])
      && if dial.opens then Replayed(s, t, r, output) else Leaves(s, t, r, HttpPending)
  {
    Reachable(acts);
    var s := RunAll(INIT, acts);
    assert ReqOk(s.log, r, s.reqs[r]) && Holding(s.reqs[r]);
    FailSessionShape(s, r, s.reqs[r]);
    ReplayAsks(s, FailSession(s, r, s.reqs[r]), r, dial, output);
  }

  /** In every run: such a request is over HTTP if and only if that opens, and finished otherwise; nothing else changes. */
  lemma PendingRequestsOpenHttp(acts: seq<Action>, r: nat, ok: bool)
    requires ValidRun(INIT, acts) && Enabled(RunAll(INIT, acts), OpenHttp(r, ok))
    ensures Sane(RunAll(INIT, acts))
    ensures
      var s := RunAll(INIT, acts);
      var t := Apply(s, OpenHttp(r, ok));
      && t.(reqs := s.reqs) == s && TouchesOne(s, t, OpenHttp(r, ok)) && r in t.reqs
      && (t.reqs[r].phase.OverHttp? <==> ok) && (t.reqs[r].phase.Finished? <==> !ok)
  {
    Reachable(acts);
    StepTouchesOneRequest(RunAll(INIT, acts), OpenHttp(r, ok));
  }

  // ------------------------------------------------------------------
  // Recovery
  // ------------------------------------------------------------------

  /** A request that reads a websocket has a recovery left. */
  ghost predicate CanRecover(s: State) {
    forall r | r in s.reqs && s.reqs[r].phase.Streaming? :: !s.reqs[r].stage.RecoveryDone?
  }

  lemma StepCanRecover(s: State, a: Action)
    requires Sane(s) && Enabled(s, a) && CanRecover(s)
    ensures CanRecover(Apply(s, a))
  {
    var t := Apply(s, a);
    StepTouchesOneRequest(s, a);
    forall r | r in t.reqs && t.reqs[r].phase.Streaming? ensures !t.reqs[r].stage.RecoveryDone? {
      if ActsFor(a, r) {
        OwnStepCanRecover(s, a);
      }
    }
  }

  lemma FailingCanRecover(s: State, r: nat, recoverable: bool, dial: Dial, output: seq<Item>, httpOk: bool)
    requires Sane(s) && r in s.reqs
    ensures
      var t := StreamFailsStep(s, r, recoverable, dial, output, httpOk);
      r in t.reqs && (t.reqs[r].phase.Streaming? ==> t.reqs[r].stage.HttpSse?)
  {
    var s1 := BrokenState(s, r);
    if s1.reqs[r].stage.FreshWebSocket? {
      SendTouchesNoRequest(FailSession(s1, r, s1.reqs[r]), r, s1.reqs[r], Replay(s1.reqs[r]), dial, output);
    }
  }

  lemma OwnStepCanRecover(s: State, a: Action)
    requires Sane(s) && Enabled(s, a) && CanRecover(s) && !a.SetTurnState? && !a.Invalidate?
    ensures a.r in Apply(s, a).reqs
    ensures Apply(s, a).reqs[a.r].phase.Streaming? ==> !Apply(s, a).reqs[a.r].stage.RecoveryDone?
  {
    match a
    case StreamFails(r, recoverable, dial, output, httpOk) => FailingCanRecover(s, r, recoverable, dial, output, httpOk);
    case ReplaySend(r, dial, output) =>
      SendTouchesNoRequest(FailSession(s, r, s.reqs[r]), r, s.reqs[r], Replay(s.reqs[r]), dial, output);
    case _ =>
  }

  lemma {:induction false} RunCanRecover(s: State, acts: seq<Action>)
    requires ValidRun(s, acts) && CanRecover(s)
    ensures CanRecover(RunAll(s, acts))
    decreases |acts|
  {
    if acts != [] {
      StepCanRecover(s, acts[0]);
      RunCanRecover(Apply(s, acts[0]), acts[1..]);
    }
  }

  /** Does a request whose stream fails like this look for another stream? */
  predicate Recovers(q: Req, recoverable: bool) {
    !q.started && recoverable
  }

  /** Does it find a fresh websocket? */
  predicate RecoversByWebSocket(q: Req, recoverable: bool, dial: Dial) {
    Recovers(q, recoverable) && q.stage.FreshWebSocket? && dial.opens
  }

  lemma BrokenShape(s: State, r: nat)
    requires Inv(s) && r in s.reqs && s.reqs[r].phase.Streaming?
    ensures
      var q, t := s.reqs[r], BrokenState(s, r);
      && t.log == s.log && t.holder == Some(r) && r in t.reqs && Base(t)
      && |t.conns| == |s.conns| && OthersAsked(s, t, |s.conns|)
      && t.pool == (if q.completed then s.pool else None)
      && (if q.completed then t.table == s.table else Forgot(s, t, q))
      && t.reqs[r] == q.(failArmed := q.completed, phase := Broken)
  {
    var q := s.reqs[r];
    assert ReqOk(s.log, r, q) && Holding(q);
    FailSessionShape(s, r, q);
    StreamBreaksKeepsInv(s, r);
  }

  /** What the recovery at stage HttpSse leaves. */
  lemma HttpShape(s: State, s1: State, r: nat, httpOk: bool)
    requires r in s1.reqs && s1.reqs[r].releases == 0 && s1.log == s.log && Sane(s1)
    requires |s1.conns| == |s.conns| && OthersAsked(s, s1, |s.conns|)
    ensures
      var t := RecoverHttp(s1, r, httpOk);
      Leaves(s, t, r, if httpOk then OverHttp else Broken) && t.table == s1.table
  {
  }

  /** Recovery by a fresh websocket, or by HTTP when none opens. */
  lemma FreshRecovers(s: State, r: nat, dial: Dial, output: seq<Item>, httpOk: bool)
    requires Inv(s) && r in s.reqs && s.reqs[r].phase.Streaming? && s.reqs[r].stage.FreshWebSocket?
    ensures
      var t := Recover(BrokenState(s, r), r, dial, output, httpOk);
      && Forgot(s, t, s.reqs[r])
      && if dial.opens then Replayed(s, t, r, output) else Leaves(s, t, r, if httpOk then OverHttp else Broken)
  {
    BrokenShape(s, r);
    assert ReqOk(s.log, r, s.reqs[r]);
    var s0 := BrokenState(s, r);
    FailSessionShape(s0, r, s0.reqs[r]);
    var s1 := FailSession(s0, r, s0.reqs[r]);
    ReplayAsks(s, s1, r, dial, output);
    var s2 := Send(s1, r, s1.reqs[r], Replay(s1.reqs[r]), dial, output).0;
    if !dial.opens {
      HttpShape(s, s2, r, httpOk);
    }
  }

  lemma HttpRecovers(s: State, r: nat, dial: Dial, output: seq<Item>, httpOk: bool)
    requires Inv(s) && r in s.reqs && s.reqs[r].phase.Streaming? && s.reqs[r].stage.HttpSse?
    ensures
      var t := Recover(BrokenState(s, r), r, dial, output, httpOk);
      && Leaves(s, t, r, if httpOk then OverHttp else Broken)
      && if s.reqs[r].completed then t.table == s.table else Forgot(s, t, s.reqs[r])
  {
    BrokenShape(s, r);
    assert ReqOk(s.log, r, s.reqs[r]);
    HttpShape(s, BrokenState(s, r), r, httpOk);
  }

  /**
   In every run, when a stream fails: nothing is recovered if something visible was
   delivered or the failure is of another kind.  Otherwise the first time the whole
   input is sent on a fresh websocket, if one opens.  If none opens, or the second
   time, the request gives the lock back and is over HTTP if and only if that opens.
   */
  lemma FailedStreamsRecover(acts: seq<Action>, r: nat, recoverable: bool, dial: Dial, output: seq<Item>, httpOk: bool)
    requires ValidRun(INIT, acts) && Enabled(RunAll(INIT, acts), StreamFails(r, recoverable, dial, output, httpOk))
    ensures Sane(RunAll(INIT, acts))
    ensures
      var s := RunAll(INIT, acts);
      var q := s.reqs[r];
      var t := Apply(s, StreamFails(r, recoverable, dial, output, httpOk));
      if RecoversByWebSocket(q, recoverable, dial) then Replayed(s, t, r, output)
      else
        && (if Recovers(q, recoverable) then Leaves(s, t, r, if httpOk then OverHttp else Broken)
            else t.log == s.log && t.holder == Some(r) && t.pool == (if q.completed then s.pool else None)
                 && r in t.reqs && t.reqs[r].phase.Broken?)
        && if q.completed && !(Recovers(q, recoverable) && q.stage.FreshWebSocket?) then t.table == s.table
           else Forgot(s, t, q)
  {
    Reachable(acts);
    RunCanRecover(INIT, acts);
    var s := RunAll(INIT, acts);
    BrokenShape(s, r);
    if Recovers(s.reqs[r], recoverable) {
      if s.reqs[r].stage.FreshWebSocket? {
        FreshRecovers(s, r, dial, output, httpOk);
      } else {
        HttpRecovers(s, r, dial, output, httpOk);
      }
    }
  }

  // ------------------------------------------------------------------
  // Reading and closing
  // ------------------------------------------------------------------

  /** In every run: a frame tells the reader its own response, whether that is complete and whether it can be seen. */
  lemma FramesAreNoted(acts: seq<Action>, r: nat, named: bool, completes: bool, commits: bool)
    requires ValidRun(INIT, acts) && Enabled(RunAll(INIT, acts), Receive(r, Part(named, completes, commits)))
    ensures Sane(RunAll(INIT, acts))
    ensures
      var s := RunAll(INIT, acts);
      var q := s.reqs[r];
      var t := Apply(s, Receive(r, Part(named, completes, commits)));
      var turns := s.conns[q.active].turns;
      && |turns| > 0 && turns[|turns| - 1] < |s.log| && s.log[turns[|turns| - 1]].owner == r
      && t.(reqs := s.reqs, conns := s.conns) == s && TouchesOne(s, t, Receive(r, Part(named, completes, commits)))
      && r in t.reqs && t.reqs[r].phase.Streaming? && t.reqs[r].active == q.active < |t.conns|
      && t.reqs[r].lastId == (if named then Some(turns[|turns| - 1]) else q.lastId)
      && (t.reqs[r].completed <==> q.completed || completes) && (t.reqs[r].started <==> q.started || commits)
      && (Drained(t.conns[q.active]) <==> completes) && t.conns[q.active].turns == turns
  {
    NoForeignFrames(acts, r, Part(named, completes, commits));
    Reachable(acts);
    StepTouchesOneRequest(RunAll(INIT, acts), Receive(r, Part(named, completes, commits)));
  }

  /** What was remembered of last is offered, as a continuation of response id, to just those bodies that extend it. */
  ghost predicate OffersExactly(table: Table, q: Req, id: nat) {
    forall body | FingerprintOf(body).Some? ::
      Prepared(table, q.session, q.branch, body).previousResponseID
      == if q.body.Body? && q.body.model == body.model && q.body.instructions == body.instructions
            && q.body.input <= body.input && q.body != body
         then Some(id) else None
  }

  lemma CommitOffers(table: Table, q: Req, id: nat)
    requires q.session != "" && q.branch != "" && FingerprintOf(q.body).Some?
    ensures OffersExactly(Committed(table, Key(q.session, q.branch), FingerprintOf(q.body).value, Some(id), ""), q, id)
  {
    forall body | FingerprintOf(body).Some? {
      OfferedExactlyForExtensions(table, q.session, q.branch, q.body, id, body);
    }
  }

  /** Only what is remembered of request r's session and branch may differ. */
  ghost predicate OnlyOwn(s: State, t: State, q: Req) {
    forall key | key != Key(q.session, q.branch) :: Lookup(t.table, key) == Lookup(s.table, key)
  }

  /** Request r closed: what became of the lock, of the websocket and of the continuation. */
  ghost predicate Closes(s: State, t: State, r: nat)
    requires r in s.reqs
  {
    var q := s.reqs[r];
    && t.log == s.log && r in t.reqs && t.reqs[r].phase.Finished? && t.reqs[r].releases == 1
    && t.holder == (if s.holder == Some(r) then None else s.holder)
    && OnlyOwn(s, t, q) && Remembered(s, t, q)
  }

  /**
   A completed response that was named is offered to those who extend its request; one
   that did not complete takes the websocket and the continuation with it, unless its
   stream already failed.
   */
  ghost predicate Remembered(s: State, t: State, q: Req) {
    if q.phase.OverHttp? then t.table == s.table && t.pool == s.pool
    else if q.completed && FingerprintOf(q.body).Some? then
      t.pool == s.pool && if q.lastId.Some? then OffersExactly(t.table, q, q.lastId.value) else t.table == s.table
    else if q.failArmed then t.pool.None? && Forgot(s, t, q)
    else t.pool == s.pool && t.table == s.table
  }

  lemma CloseShows(s: State, r: nat)
    requires Inv(s) && Enabled(s, CloseStream(r)) && !s.reqs[r].phase.OverHttp?
    ensures
      var q, t := s.reqs[r], CloseStep(s, r);
      && t.log == s.log && r in t.reqs && t.reqs[r].phase.Finished? && t.reqs[r].releases == 1
      && t.holder == (if s.holder == Some(r) then None else s.holder)
  {
    assert ReqOk(s.log, r, s.reqs[r]);
    assert Holding(s.reqs[r]) <==> s.holder == Some(r);
    CloseStepShape(s, r);
  }

  lemma CloseTells(s: State, r: nat)
    requires Inv(s) && Enabled(s, CloseStream(r)) && !s.reqs[r].phase.OverHttp?
    ensures OnlyOwn(s, CloseStep(s, r), s.reqs[r]) && Remembered(s, CloseStep(s, r), s.reqs[r])
  {
    var q := s.reqs[r];
    assert ReqOk(s.log, r, q);
    CloseStepShape(s, r);
    if q.completed && FingerprintOf(q.body).Some? && q.lastId.Some? {
      CommitOffers(s.table, q, q.lastId.value);
    }
  }

  /** In every run: that is what closing does. */
  lemma ClosingRemembers(acts: seq<Action>, r: nat)
    requires ValidRun(INIT, acts) && Enabled(RunAll(INIT, acts), CloseStream(r))
    ensures Sane(RunAll(INIT, acts)) && Closes(RunAll(INIT, acts), Apply(RunAll(INIT, acts), CloseStream(r)), r)
  {
    Reachable(acts);
    var s := RunAll(INIT, acts);
    assert ReqOk(s.log, r, s.reqs[r]);
    if !s.reqs[r].phase.OverHttp? {
      CloseShows(s, r);
      CloseTells(s, r);
    }
  }

  // ------------------------------------------------------------------
  // Every request can be brought to its end
  // ------------------------------------------------------------------

  lemma NextStep(acts: seq<Action>, a: Action)
    requires ValidRun(INIT, acts) && Enabled(RunAll(INIT, acts), a)
    ensures ValidRun(INIT, acts + [a]) && Sane(RunAll(INIT, acts)) && RunAll(INIT, acts + [a]) == Apply(RunAll(INIT, acts), a)
  {
    Reachable(acts);
    assert ValidRun(RunAll(INIT, acts), [a]);
    RunsCompose(INIT, acts, [a]);
    LastStep(INIT, acts, a);
  }

  const ANSWER := Part(true, true, true)

  /** Request r has read the frame that completes response id and names it. */
  ghost predicate HasAnswer(s: State, q: Req, r: nat, id: nat) {
    && r in s.reqs && s.holder == Some(r)
    && var q1 := s.reqs[r];
    && q1.phase.Streaming? && q1.completed && q1.lastId == Some(id)
    && q1.session == q.session && q1.branch == q.branch && q1.body == q.body
  }

  lemma AnswersAreRead(acts: seq<Action>, r: nat, c: nat, stage: Stage)
    requires ValidRun(INIT, acts)
    requires
      var s := RunAll(INIT, acts);
      r in s.reqs && ReadsFrom(s, r, s.reqs[r].session, c, stage) && c < |s.conns| && |s.conns[c].turns| > 0
    ensures ValidRun(INIT, acts + [Receive(r, ANSWER)])
    ensures
      var s, t := RunAll(INIT, acts), RunAll(INIT, acts + [Receive(r, ANSWER)]);
      t.log == s.log && HasAnswer(t, s.reqs[r], r, s.conns[c].turns[|s.conns[c].turns| - 1])
  {
    AnswerCanBeRead(acts, r, c, stage);
    FramesAreNoted(acts, r, true, true, true);
    NextStep(acts, Receive(r, ANSWER));
    AnswerKeepsRequest(RunAll(INIT, acts), r);
  }

  /** A request that is about to read its answer can: the server completes it, the request closes, and it is remembered. */
  lemma AnswersAreRemembered(acts: seq<Action>, r: nat, c: nat, stage: Stage) returns (run: seq<Action>)
    requires ValidRun(INIT, acts)
    requires
      var s := RunAll(INIT, acts);
      r in s.reqs && ReadsFrom(s, r, s.reqs[r].session, c, stage) && c < |s.conns| && |s.conns[c].turns| > 0
    ensures run == acts + [Receive(r, ANSWER)] + [CloseStream(r)] && ValidRun(INIT, run)
    ensures
      var s, t := RunAll(INIT, acts), RunAll(INIT, run);
      var turns := s.conns[c].turns;
      && t.log == s.log && r in t.reqs && t.reqs[r].phase.Finished? && t.holder.None?
      && (FingerprintOf(s.reqs[r].body).Some? ==> OffersExactly(t.table, s.reqs[r], turns[|turns| - 1]))
  {
    AnswersAreRead(acts, r, c, stage);
    var run1 := acts + [Receive(r, ANSWER)];
    ClosingRemembers(run1, r);
    NextStep(run1, CloseStream(r));
    run := run1 + [CloseStream(r)];
    SameOffers(RunAll(INIT, run).table, RunAll(INIT, acts).reqs[r], RunAll(INIT, run1).reqs[r]);
  }

  lemma AnswerCanBeRead(acts: seq<Action>, r: nat, c: nat, stage: Stage)
    requires ValidRun(INIT, acts)
    requires
      var s := RunAll(INIT, acts);
      r in s.reqs && ReadsFrom(s, r, s.reqs[r].session, c, stage) && c < |s.conns| && |s.conns[c].turns| > 0
    ensures Enabled(RunAll(INIT, acts), Receive(r, ANSWER))
  {
    Reachable(acts);
    var s := RunAll(INIT, acts);
    assert HolderOk(s, r, s.reqs[r]);
  }

  lemma AnswerKeepsRequest(s: State, r: nat)
    requires Sane(s) && Enabled(s, Receive(r, ANSWER))
    ensures
      var q := Apply(s, Receive(r, ANSWER)).reqs[r];
      q.session == s.reqs[r].session && q.branch == s.reqs[r].branch && q.body == s.reqs[r].body
  {
  }

  lemma SameOffers(table: Table, q: Req, q1: Req)
    requires q1.session == q.session && q1.branch == q.branch && q1.body == q.body
    ensures forall id: nat :: OffersExactly(table, q1, id) ==> OffersExactly(table, q, id)
  {
  }

  /**
   After any run: a request that lost its first send, and for which a websocket opens
   and the server completes the answer, ends with its response remembered.  The server
   was sent its whole input.
   */
  lemma LostRequestsAreAnswered(acts: seq<Action>, r: nat, dial: Dial, output: seq<Item>) returns (run: seq<Action>)
    requires ValidRun(INIT, acts) && Enabled(RunAll(INIT, acts), ReplaySend(r, dial, output)) && dial.opens
    ensures run == acts + [ReplaySend(r, dial, output)] + [Receive(r, ANSWER)] + [CloseStream(r)]
    ensures ValidRun(INIT, run) && LogOk(RunAll(INIT, run).log)
    ensures
      var s, t := RunAll(INIT, acts), RunAll(INIT, run);
      var id := |s.log|;
      && |t.log| == id + 1 && Rebuild(t.log, id) == InputOf(s.reqs[r].body) && t.log[id].output == output
      && r in t.reqs && t.reqs[r].phase.Finished? && t.holder.None?
      && (FingerprintOf(s.reqs[r].body).Some? ==> OffersExactly(t.table, s.reqs[r], id))
  {
    var s := RunAll(INIT, acts);
    LostRequestsReplay(acts, r, dial, output);
    NextStep(acts, ReplaySend(r, dial, output));
    var run1 := acts + [ReplaySend(r, dial, output)];
    var s1 := RunAll(INIT, run1);
    ReplayKeepsRequest(s, r, dial, output);
    assert s1.conns[|s.conns|].turns == [|s.log|] by {
      assert [] + [|s.log|] == [|s.log|];
    }
    run := AnswersAreRemembered(run1, r, |s.conns|, HttpSse);
    SameOffers(RunAll(INIT, run).table, s.reqs[r], s1.reqs[r]);
    Reachable(run);
    ReplayRebuilds(s, s1, r, output);
  }

  lemma ReplayRebuilds(s: State, s1: State, r: nat, output: seq<Item>)
    requires r in s.reqs && Replayed(s, s1, r, output) && LogOk(s1.log)
    ensures Rebuild(s1.log, |s.log|) == InputOf(s.reqs[r].body)
  {
    assert EntryOk(s1.log, |s.log|);
  }

  lemma ReplayKeepsRequest(s: State, r: nat, dial: Dial, output: seq<Item>)
    requires Sane(s) && Enabled(s, ReplaySend(r, dial, output))
    ensures r in ReplaySendStep(s, r, dial, output).reqs
    ensures
      var q := ReplaySendStep(s, r, dial, output).reqs[r];
      q.session == s.reqs[r].session && q.branch == s.reqs[r].branch && q.body == s.reqs[r].body
  {
    SendTouchesNoRequest(FailSession(s, r, s.reqs[r]), r, s.reqs[r], Replay(s.reqs[r]), dial, output);
  }

  /** When no websocket opens for it, it is answered over HTTP, which remembers nothing. */
  lemma LostRequestsGoOverHttp(acts: seq<Action>, r: nat, dial: Dial, output: seq<Item>) returns (run: seq<Action>)
    requires ValidRun(INIT, acts) && Enabled(RunAll(INIT, acts), ReplaySend(r, dial, output)) && !dial.opens
    ensures run == acts + [ReplaySend(r, dial, output)] + [OpenHttp(r, true)] + [CloseStream(r)]
    ensures ValidRun(INIT, run)
    ensures
      var s, t := RunAll(INIT, acts), RunAll(INIT, run);
      && t.log == s.log && Forgot(s, t, s.reqs[r]) && t.holder.None? && t.pool.None?
      && r in t.reqs && t.reqs[r].phase.Finished?
  {
    LostRequestsReplay(acts, r, dial, output);
    NextStep(acts, ReplaySend(r, dial, output));
    var run1 := acts + [ReplaySend(r, dial, output)];
    PendingRequestsOpenHttp(run1, r, true);
    NextStep(run1, OpenHttp(r, true));
    var run2 := run1 + [OpenHttp(r, true)];
    ClosingRemembers(run2, r);
    NextStep(run2, CloseStream(r));
    run := run2 + [CloseStream(r)];
  }

  // ------------------------------------------------------------------
  // Nobody waits for ever
  // ------------------------------------------------------------------

  /** What a request that has the lock, or is past it, can do next when the network is willing. */
  function Onward(q: Req, r: nat): Action {
    match q.phase
    case Acquired => FirstSend(r, Dial(NotAWriter, true), [])
    case Lost => ReplaySend(r, Dial(NotAWriter, true), [])
    case HttpPending => OpenHttp(r, true)
    case _ => CloseStream(r)
  }

  function Steps(phase: Phase): nat {
    match phase
    case Arrived => 0
    case Finished => 0
    case Acquired => 2
    case Lost => 2
    case HttpPending => 2
    case _ => 1
  }

  /** Request r came closer to its end, and nobody else was touched; the lock is as it was or r gave it back. */
  ghost predicate Closer(s: State, t: State, r: nat) {
    && r in s.reqs && t.reqs.Keys == s.reqs.Keys && !t.reqs[r].phase.Arrived?
    && Steps(t.reqs[r].phase) < Steps(s.reqs[r].phase)
    && (forall x | x in s.reqs && x != r :: t.reqs[x] == s.reqs[x])
    && (t.holder == s.holder || (s.holder == Some(r) && t.holder.None?))
  }

  lemma SentIsCloser(acts: seq<Action>, r: nat)
    requires ValidRun(INIT, acts) && r in RunAll(INIT, acts).reqs && RunAll(INIT, acts).reqs[r].phase.Acquired?
    ensures Sane(RunAll(INIT, acts)) && Closer(RunAll(INIT, acts), Apply(RunAll(INIT, acts), FirstSend(r, Dial(NotAWriter, true), [])), r)
  {
    Reachable(acts);
    var s := RunAll(INIT, acts);
    assert Holding(s.reqs[r]) by {
      assert ReqOk(s.log, r, s.reqs[r]);
    }
    FirstSendAsks(acts, r, Dial(NotAWriter, true), []);
    FirstSendTouchesOneRequest(s, r, Dial(NotAWriter, true), []);
  }

  lemma ReplayIsCloser(acts: seq<Action>, r: nat)
    requires ValidRun(INIT, acts) && r in RunAll(INIT, acts).reqs && RunAll(INIT, acts).reqs[r].phase.Lost?
    ensures Sane(RunAll(INIT, acts)) && Closer(RunAll(INIT, acts), Apply(RunAll(INIT, acts), ReplaySend(r, Dial(NotAWriter, true), [])), r)
  {
    Reachable(acts);
    var s := RunAll(INIT, acts);
    assert Holding(s.reqs[r]) by {
      assert ReqOk(s.log, r, s.reqs[r]);
    }
    LostRequestsReplay(acts, r, Dial(NotAWriter, true), []);
    ReplaySendTouchesOneRequest(s, r, Dial(NotAWriter, true), []);
  }

  lemma CloseIsCloser(acts: seq<Action>, r: nat)
    requires ValidRun(INIT, acts) && Enabled(RunAll(INIT, acts), CloseStream(r))
    ensures Sane(RunAll(INIT, acts)) && Closer(RunAll(INIT, acts), Apply(RunAll(INIT, acts), CloseStream(r)), r)
  {
    ClosingRemembers(acts, r);
    CloseTouchesOneRequest(RunAll(INIT, acts), r);
  }

  lemma OnwardIsCloser(acts: seq<Action>, r: nat)
    requires ValidRun(INIT, acts) && r in RunAll(INIT, acts).reqs && Steps(RunAll(INIT, acts).reqs[r].phase) > 0
    ensures Sane(RunAll(INIT, acts))
    ensures
      var s := RunAll(INIT, acts);
      var a := Onward(s.reqs[r], r);
      Enabled(s, a) && Closer(s, Apply(s, a), r)
  {
    match RunAll(INIT, acts).reqs[r].phase
    case Acquired => SentIsCloser(acts, r);
    case Lost => ReplayIsCloser(acts, r);
    case HttpPending => PendingRequestsOpenHttp(acts, r, true);
    case _ => CloseIsCloser(acts, r);
  }

  /** A request that has taken the lock can be brought to its end by steps of its own. */
  lemma {:induction false} CanFinish(acts: seq<Action>, r: nat) returns (run: seq<Action>)
    requires ValidRun(INIT, acts) && r in RunAll(INIT, acts).reqs && !RunAll(INIT, acts).reqs[r].phase.Arrived?
    ensures acts <= run && ValidRun(INIT, run)
    ensures
      var s, t := RunAll(INIT, acts), RunAll(INIT, run);
      && t.reqs.Keys == s.reqs.Keys && t.reqs[r].phase.Finished?
      && (forall x | x in s.reqs && x != r :: t.reqs[x] == s.reqs[x])
      && t.holder == (if s.holder == Some(r) then None else s.holder)
    decreases Steps(RunAll(INIT, acts).reqs[r].phase)
  {
    if Steps(RunAll(INIT, acts).reqs[r].phase) == 0 {
      Reachable(acts);
      run := acts;
    } else {
      OnwardIsCloser(acts, r);
      NextStep(acts, Onward(RunAll(INIT, acts).reqs[r], r));
      run := CanFinish(acts + [Onward(RunAll(INIT, acts).reqs[r], r)], r);
    }
  }

  /** No request was lost or started over, and those that were finished still are. */
  ghost predicate Kept(s: State, t: State) {
    t.reqs.Keys == s.reqs.Keys && forall x | x in s.reqs && s.reqs[x].phase.Finished? :: t.reqs[x].phase.Finished?
  }

  /**
   After any run every request can still be brought to its end: the lock it may wait for
   is given back by the one that has it.
   */
  lemma EveryRequestCanFinish(acts: seq<Action>, r: nat) returns (run: seq<Action>)
    requires ValidRun(INIT, acts) && r in RunAll(INIT, acts).reqs
    ensures acts <= run && ValidRun(INIT, run)
    ensures Kept(RunAll(INIT, acts), RunAll(INIT, run)) && RunAll(INIT, run).reqs[r].phase.Finished?
  {
    if RunAll(INIT, acts).reqs[r].phase.Arrived? {
      var free := LockCanBeFree(acts, r);
      NextStep(free, Acquire(r));
      run := CanFinish(free + [Acquire(r)], r);
    } else {
      run := CanFinish(acts, r);
    }
  }

  lemma LockCanBeFree(acts: seq<Action>, r: nat) returns (run: seq<Action>)
    requires ValidRun(INIT, acts) && r in RunAll(INIT, acts).reqs && RunAll(INIT, acts).reqs[r].phase.Arrived?
    ensures acts <= run && ValidRun(INIT, run)
    ensures
      var s, t := RunAll(INIT, acts), RunAll(INIT, run);
      Kept(s, t) && t.holder.None? && r in t.reqs && t.reqs[r].phase.Arrived?
  {
    Reachable(acts);
    var s := RunAll(INIT, acts);
    run := acts;
    if s.holder.Some? {
      assert Holding(s.reqs[s.holder.value]);
      run := CanFinish(acts, s.holder.value);
    }
  }

  /** After any run there is a way for all requests to be finished. */
  lemma {:induction false} EverybodyCanFinish(acts: seq<Action>, unfinished: set<nat>) returns (run: seq<Action>)
    requires ValidRun(INIT, acts)
    requires forall r | r in RunAll(INIT, acts).reqs :: r in unfinished || RunAll(INIT, acts).reqs[r].phase.Finished?
    requires forall r | r in unfinished :: r in RunAll(INIT, acts).reqs
    ensures acts <= run && ValidRun(INIT, run)
    ensures Kept(RunAll(INIT, acts), RunAll(INIT, run))
    ensures forall r | r in RunAll(INIT, run).reqs :: RunAll(INIT, run).reqs[r].phase.Finished?
    decreases |unfinished|
  {
    if unfinished == {} {
      run := acts;
    } else {
      var r :| r in unfinished;
      var next := EveryRequestCanFinish(acts, r);
      run := EverybodyCanFinish(next, unfinished - {r});
    }
  }
}
