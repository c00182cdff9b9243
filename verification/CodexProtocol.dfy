/**
 One Codex transport shared by any number of concurrent requests, as a state
 machine.  The network and the server choose freely: whether a write or a dial
 succeeds, which frames arrive, when a stream fails.  A request reads until the
 first error it is given and then closes once, as `readStream` does.

 The state keeps two histories the source does not have: a log of the server's
 responses and, per websocket, the responses it has been asked for.
 */
module CodexProtocol {
  import opened Wrappers
  import opened Continuation
  import opened RecoveryStages
  import opened ResponsesSession

  /** A response the server was asked for.  Its id is its position in the log. */
  datatype Entry = Entry(
    owner: nat,               // request that asked
    conn: nat,                // websocket it was asked on
    previous: Option<nat>,    // previous_response_id that was sent
    sent: seq<Item>,          // input that was sent
    full: seq<Item>,          // input of the owner's request
    output: seq<Item>)        // items the server answers with

  /** A websocket: the responses asked for on it, and how many of them were read to their end. */
  datatype Conn = Conn(open: bool, turns: seq<nat>, consumed: nat)

  datatype PooledStream = PooledStream(conn: nat, session: string)

  datatype Phase =
    | Arrived       // continuation decided, lock not yet taken
    | Acquired      // lock taken, nothing sent
    | Lost          // first send failed, lock held
    | HttpPending   // both sends failed, lock given back
    | Streaming     // reading a websocket
    | OverHttp      // reading an HTTP stream
    | Broken        // was given an error, not yet closed
    | Finished

  datatype Req = Req(
    session: string,
    branch: string,
    body: Body,
    decision: Decision,
    phase: Phase,
    active: nat,            // websocket being read
    stage: Stage,           // next recovery
    started: bool,          // a commit frame was seen
    completed: bool,        // a completion frame was seen on the active stream
    lastId: Option<nat>,    // last response id seen on the active stream
    failArmed: bool,        // the active stream's fail function was not called yet
    commitArmed: bool,      // the active stream's commit function is set
    releases: nat)          // how often the mutex was given back

  datatype State = State(
    holder: Option<nat>,
    pool: Option<PooledStream>,
    conns: seq<Conn>,
    table: Table,
    log: seq<Entry>,
    reqs: map<nat, Req>,
    unlockedCloses: nat)    // calls of CloseLocked by a request that did not hold the lock

  /**
   A frame of the response being read: does it name the response, complete it, or start
   visible output?  A response ends with the frame that completes it: the server sends
   nothing of it afterwards.
   */
  datatype Frame = Noise | Part(named: bool, completes: bool, commits: bool)

  datatype Action =
    | Arrive(r: nat, session: string, branch: string, body: Body)
    | Acquire(r: nat)
    | FirstSend(r: nat, dial: Dial, output: seq<Item>)
    | ReplaySend(r: nat, dial: Dial, output: seq<Item>)
    | OpenHttp(r: nat, ok: bool)
    | Receive(r: nat, frame: Frame)
    | StreamFails(r: nat, recoverable: bool, dial: Dial, output: seq<Item>, httpOk: bool)
    | CloseStream(r: nat)
    // Table operations another goroutine may slip in between the parts of a step.
    | SetTurnState(session: string, branch: string, turnState: string)
    | Invalidate(session: string, branch: string)

  const INIT := State(None, None, [], map[], [], map[], 0)

  // ------------------------------------------------------------------
  // Steps
  // ------------------------------------------------------------------

  function InputOf(body: Body): seq<Item> {
    if body.Body? then body.input else []
  }

  /** Session.CloseLocked, called by request r. */
  function CloseLocked(s: State, r: nat): State {
    s.(conns := if s.pool.Some? && s.pool.value.conn < |s.conns|
                then s.conns[s.pool.value.conn := s.conns[s.pool.value.conn].(open := false)]
                else s.conns,
       pool := None,
       unlockedCloses := s.unlockedCloses + (if s.holder == Some(r) then 0 else 1))
  }

  /** The unlock function of request r: only its first call reaches the mutex. */
  function Release(s: State, r: nat): State
    requires r in s.reqs
  {
    var q := s.reqs[r];
    if q.releases > 0 then s
    else s.(holder := None, reqs := s.reqs[r := q.(releases := 1)])
  }

  function Update(s: State, r: nat, q: Req): State {
    s.(reqs := s.reqs[r := q])
  }

  /** The server is asked for a response on websocket c. */
  function Ask(s: State, r: nat, q: Req, c: nat, out: Outgoing, output: seq<Item>): State
    requires c < |s.conns|
  {
    s.(log := s.log + [Entry(r, c, out.previous, InputOf(out.body), InputOf(q.body), output)],
       conns := s.conns[c := s.conns[c].(turns := s.conns[c].turns + [|s.log|])])
  }

  /** Session.OpenOrWrite for request r: the new state and the websocket the body went out on. */
  function Send(s: State, r: nat, q: Req, out: Outgoing, dial: Dial, output: seq<Item>): (State, Option<nat>)
    requires s.pool.Some? ==> s.pool.value.conn < |s.conns|
  {
    var pooled := if s.pool.Some? then Some(s.pool.value.session) else None;
    match AccessOf(pooled, q.session, dial)
    case Reused => (Ask(s, r, q, s.pool.value.conn, out, output), Some(s.pool.value.conn))
    case LostOnWrite => (CloseLocked(s, r), None)
    case DialFailed => (if s.pool.Some? then CloseLocked(s, r) else s, None)
    case Opened =>
      var s1 := if s.pool.Some? then CloseLocked(s, r) else s;
      var c := |s1.conns|;
      var s2 := s1.(conns := s1.conns + [Conn(true, [], 0)], pool := Some(PooledStream(c, q.session)));
      (Ask(s2, r, q, c, out, output), Some(c))
  }

  /** A websocket stream for request r was opened on c. */
  function Stream(q: Req, c: nat, stage: Stage): Req {
    q.(phase := Streaming, active := c, stage := stage, started := false, completed := false, lastId := None,
       failArmed := true, commitArmed := q.decision.commit.Some?)
  }

  /** failWebSocketSession: drop the pooled websocket and the continuation. */
  function FailSession(s: State, r: nat, q: Req): State {
    var s1 := CloseLocked(s, r);
    s1.(table := Invalidated(s1.table, q.session, q.branch))
  }

  function Replay(q: Req): Outgoing { Outgoing(None, q.body) }

  function FirstSendStep(s: State, r: nat, dial: Dial, output: seq<Item>): State
    requires r in s.reqs && (s.pool.Some? ==> s.pool.value.conn < |s.conns|)
  {
    var q := s.reqs[r];
    var (s1, got) := Send(s, r, q, Continued(q.body, q.decision.previousResponseID, q.decision.inputStart), dial, output);
    Update(s1, r, if got.Some? then Stream(q, got.value, FreshWebSocket) else q.(phase := Lost))
  }

  function ReplaySendStep(s: State, r: nat, dial: Dial, output: seq<Item>): State
    requires r in s.reqs
  {
    var q := s.reqs[r];
    var (s1, got) := Send(FailSession(s, r, q), r, q, Replay(q), dial, output);
    if got.Some? then Update(s1, r, Stream(q, got.value, HttpSse))
    else Release(Update(s1, r, q.(phase := HttpPending)), r)
  }

  /** recoverPreStart at stage HttpSse. */
  function RecoverHttp(s: State, r: nat, httpOk: bool): State
    requires r in s.reqs
  {
    var s1 := Release(CloseLocked(s, r), r);
    var q := s1.reqs[r];
    Update(s1, r, q.(stage := RecoveryDone, phase := if httpOk then OverHttp else Broken, started := q.started || httpOk))
  }

  /** recoverPreStart, whatever the stage; r is Broken unless a recovery changes that. */
  function Recover(s: State, r: nat, dial: Dial, output: seq<Item>, httpOk: bool): State
    requires r in s.reqs
  {
    var q := s.reqs[r];
    match q.stage
    case FreshWebSocket =>
      var (s1, got) := Send(FailSession(s, r, q), r, q, Replay(q), dial, output);
      if got.Some? then Update(s1, r, Stream(q, got.value, HttpSse))
      else RecoverHttp(s1, r, httpOk)
    case HttpSse => RecoverHttp(s, r, httpOk)
    case RecoveryDone => s
  }

  /** The active websocket of r fails: its fail function, then recovery when nothing visible was delivered. */
  function StreamFailsStep(s: State, r: nat, recoverable: bool, dial: Dial, output: seq<Item>, httpOk: bool): State
    requires r in s.reqs
  {
    var q := s.reqs[r];
    var s1 :=
      if !q.completed && q.failArmed then Update(FailSession(s, r, q), r, q.(failArmed := false, phase := Broken))
      else Update(s, r, q.(phase := Broken));
    if !q.started && recoverable then Recover(s1, r, dial, output, httpOk) else s1
  }

  function ReceiveStep(s: State, r: nat, frame: Frame): State
    requires r in s.reqs && s.reqs[r].active < |s.conns|
  {
    match frame
    case Noise => s
    case Part(named, completes, commits) =>
      var q := s.reqs[r];
      var c := s.conns[q.active];
      if c.consumed >= |c.turns| then s
      else
        var q1 := q.(lastId := if named then Some(c.turns[c.consumed]) else q.lastId,
                     completed := q.completed || completes,
                     started := q.started || commits);
        var s1 := Update(s, r, q1);
        if completes then s1.(conns := s1.conns[q.active := c.(consumed := c.consumed + 1)]) else s1
  }

  function CloseStep(s: State, r: nat): State
    requires r in s.reqs
  {
    var q := s.reqs[r];
    if q.phase.OverHttp? then Update(s, r, q.(phase := Finished))
    else
      var s1 :=
        if q.completed && q.commitArmed && q.decision.commit.Some? then
          Update(s.(table := Committed(s.table, q.decision.commit.value.key, q.decision.commit.value.fp, q.lastId, "")),
                 r, q.(commitArmed := false))
        else if q.failArmed then
          Update(FailSession(s, r, q), r, q.(failArmed := false))
        else s;
      var s2 := Release(s1, r);
      Update(s2, r, s2.reqs[r].(phase := Finished))
  }

  /** When the code can take a step. */
  predicate Enabled(s: State, a: Action) {
    match a
    case Arrive(r, session, branch, _) => r !in s.reqs && session != "" && branch != ""
    case Acquire(r) => r in s.reqs && s.reqs[r].phase.Arrived? && s.holder.None?
    case FirstSend(r, _, _) => r in s.reqs && s.reqs[r].phase.Acquired?
    case ReplaySend(r, _, _) => r in s.reqs && s.reqs[r].phase.Lost?
    case OpenHttp(r, _) => r in s.reqs && s.reqs[r].phase.HttpPending?
    case Receive(r, frame) =>
      && r in s.reqs && s.reqs[r].phase.Streaming?
      && s.reqs[r].active < |s.conns| && s.conns[s.reqs[r].active].open
      && (frame.Part? ==> s.conns[s.reqs[r].active].consumed < |s.conns[s.reqs[r].active].turns|)
    case StreamFails(r, _, _, _, _) => r in s.reqs && s.reqs[r].phase.Streaming?
    case CloseStream(r) =>
      r in s.reqs && (s.reqs[r].phase.Streaming? || s.reqs[r].phase.Broken? || s.reqs[r].phase.OverHttp?)
    case SetTurnState(_, _, _) => true
    case Invalidate(_, _) => true
  }

  function Apply(s: State, a: Action): State
    requires Enabled(s, a)
    requires s.pool.Some? ==> s.pool.value.conn < |s.conns|
  {
    match a
    case Arrive(r, session, branch, body) =>
      var decision := Prepared(s.table, session, branch, body);
      Update(s, r, Req(session, branch, body, decision, Arrived, 0, FreshWebSocket, false, false, None, false, false, 0))
    case Acquire(r) => Update(s, r, s.reqs[r].(phase := Acquired)).(holder := Some(r))
    case FirstSend(r, dial, output) => FirstSendStep(s, r, dial, output)
    case ReplaySend(r, dial, output) => ReplaySendStep(s, r, dial, output)
    case OpenHttp(r, ok) => Update(s, r, s.reqs[r].(phase := if ok then OverHttp else Finished))
    case Receive(r, frame) => ReceiveStep(s, r, frame)
    case StreamFails(r, recoverable, dial, output, httpOk) => StreamFailsStep(s, r, recoverable, dial, output, httpOk)
    case CloseStream(r) => CloseStep(s, r)
    case SetTurnState(session, branch, turnState) => s.(table := WithTurnState(s.table, session, branch, turnState))
    case Invalidate(session, branch) => s.(table := Invalidated(s.table, session, branch))
  }

  // ------------------------------------------------------------------
  // The invariant
  // ------------------------------------------------------------------

  /** Does a request in this phase still have the mutex? */
  predicate Holding(q: Req) {
    (q.phase.Acquired? || q.phase.Lost? || q.phase.Streaming? || q.phase.Broken?) && q.releases == 0
  }

  predicate Drained(c: Conn) { c.consumed == |c.turns| }

  /** An entry is a full replay, or continues an earlier entry whose input its own input extends. */
  ghost predicate EntryOk(log: seq<Entry>, i: nat)
    requires i < |log|
  {
    match log[i].previous
    case None => log[i].sent == log[i].full
    case Some(p) =>
      && p < i
      && log[p].full <= log[i].full
      && log[i].sent == if |log[p].full| > 0 then DropLeadingAssistant(log[i].full[|log[p].full|..]) else log[i].full
  }

  ghost predicate LogOk(log: seq<Entry>) {
    forall i | 0 <= i < |log| :: EntryOk(log, i)
  }

  ghost predicate TableOk(log: seq<Entry>, table: Table) {
    forall key | key in table && table[key].lastResponseID.Some? ::
      table[key].lastResponseID.value < |log| && Remembers(table[key], log[table[key].lastResponseID.value].full)
  }

  ghost predicate DecisionOk(log: seq<Entry>, q: Req) {
    && (q.decision.previousResponseID.Some? ==>
         && q.decision.previousResponseID.value < |log|
         && q.body.Body?
         && log[q.decision.previousResponseID.value].full <= q.body.input
         && q.decision.inputStart == |log[q.decision.previousResponseID.value].full|)
    && (q.decision.commit.Some? <==> FingerprintOf(q.body).Some?)
    && (q.decision.commit.Some? ==>
         q.decision.commit == Some(Commit(Key(q.session, q.branch), FingerprintOf(q.body).value)))
  }

  /** What is known of request r from its own fields and the log. */
  ghost predicate ReqOk(log: seq<Entry>, r: nat, q: Req) {
    && q.session != "" && q.branch != ""
    && DecisionOk(log, q)
    && q.releases <= 1
    && (q.phase.Arrived? || q.phase.Acquired? || q.phase.Lost? || q.phase.Streaming? ==> q.releases == 0)
    && (q.phase.HttpPending? || q.phase.OverHttp? || q.phase.Finished? ==> q.releases == 1)
    && (q.phase.Streaming? ==> q.failArmed)
    && (q.phase.Broken? && q.failArmed ==> q.completed)
    && (q.phase.Streaming? || q.phase.Broken? ==> (q.commitArmed <==> q.decision.commit.Some?))
    && (q.lastId.Some? ==> q.lastId.value < |log| && log[q.lastId.value].owner == r
                           && log[q.lastId.value].full == InputOf(q.body))
  }

  /** What is known of the websockets while r holds the lock. */
  ghost predicate HolderOk(s: State, r: nat, q: Req) {
    match q.phase
    case Acquired => s.pool.Some? && s.pool.value.conn < |s.conns| ==> Drained(s.conns[s.pool.value.conn])
    case Lost => s.pool.None?
    case Broken => s.pool.Some? && s.pool.value.conn < |s.conns| ==> q.completed && Drained(s.conns[s.pool.value.conn])
    case Streaming =>
      && q.active < |s.conns|
      && (s.pool == Some(PooledStream(q.active, q.session)) || (s.pool.None? && !s.conns[q.active].open))
      && var c := s.conns[q.active];
      && |c.turns| > 0
      && c.turns[|c.turns| - 1] < |s.log|
      && s.log[c.turns[|c.turns| - 1]].owner == r
      && s.log[c.turns[|c.turns| - 1]].full == InputOf(q.body)
      && c.consumed == if q.completed then |c.turns| else |c.turns| - 1
    case _ => true
  }

  /** The pooled websocket is open and no other one is. */
  ghost predicate PoolOk(s: State) {
    && (s.pool.Some? ==> s.pool.value.conn < |s.conns| && s.conns[s.pool.value.conn].open && s.pool.value.session != "")
    && (forall c | 0 <= c < |s.conns| && s.conns[c].open :: s.pool.Some? && s.pool.value.conn == c)
  }

  /** Every response was asked for on a websocket that was opened. */
  ghost predicate ConnsOk(s: State) {
    forall i | 0 <= i < |s.log| :: s.log[i].conn < |s.conns|
  }

  ghost predicate LockOk(s: State) {
    && (s.holder.Some? ==> s.holder.value in s.reqs && Holding(s.reqs[s.holder.value])
                           && HolderOk(s, s.holder.value, s.reqs[s.holder.value]))
    && (s.holder.None? && s.pool.Some? && s.pool.value.conn < |s.conns| ==> Drained(s.conns[s.pool.value.conn]))
    && (forall r | r in s.reqs && Holding(s.reqs[r]) :: s.holder == Some(r))
  }

  /** The part of the invariant that does not speak of the lock. */
  ghost predicate Base(s: State) {
    && LogOk(s.log)
    && TableOk(s.log, s.table)
    && (forall r | r in s.reqs :: ReqOk(s.log, r, s.reqs[r]))
    && PoolOk(s)
    && ConnsOk(s)
  }

  /** Somebody's body had no fingerprint if CloseLocked ever ran without the lock. */
  ghost predicate Culprit(s: State) {
    s.unlockedCloses > 0 ==> exists r | r in s.reqs :: FingerprintOf(s.reqs[r].body).None?
  }

  ghost predicate Inv(s: State) {
    Base(s) && LockOk(s) && Culprit(s)
  }
}
