/** The invariant of module CodexProtocol holds in every reachable state, and what follows from it. */
module CodexProtocolProofs {
  import opened Wrappers
  import opened Continuation
  import opened ResponsesSession
  import opened CodexProtocol
  import opened RecoveryStages

  lemma LogGrows(s: State, e: Entry)
    requires LogOk(s.log) && TableOk(s.log, s.table) && forall r | r in s.reqs :: ReqOk(s.log, r, s.reqs[r])
    requires EntryOk(s.log + [e], |s.log|)
    ensures LogOk(s.log + [e]) && TableOk(s.log + [e], s.table)
    ensures forall r | r in s.reqs :: ReqOk(s.log + [e], r, s.reqs[r])
  {
    var log := s.log + [e];
    forall i | 0 <= i < |log| ensures EntryOk(log, i) {
      if i < |s.log| {
        assert EntryOk(s.log, i);
        assert log[i] == s.log[i];
        if log[i].previous.Some? {
          assert log[log[i].previous.value] == s.log[log[i].previous.value];
        }
      }
    }
  }

  /** The entry a request adds is well linked, whether it continues or replays. */
  lemma EntryIsLinked(s: State, q: Req, e: Entry, continues: bool)
    requires DecisionOk(s.log, q)
    requires
      var out := if continues then Continued(q.body, q.decision.previousResponseID, q.decision.inputStart) else Replay(q);
      e.previous == out.previous && e.sent == InputOf(out.body) && e.full == InputOf(q.body)
    ensures EntryOk(s.log + [e], |s.log|)
  {
    if continues && q.decision.previousResponseID.Some? {
      var p := q.decision.previousResponseID.value;
      assert (s.log + [e])[p] == s.log[p];
    }
  }

  lemma CloseKeepsBase(s: State, r: nat)
    requires Base(s)
    ensures Base(CloseLocked(s, r)) && CloseLocked(s, r).pool.None?
    ensures |CloseLocked(s, r).conns| == |s.conns|
    ensures forall c | 0 <= c < |s.conns| ::
      var d := CloseLocked(s, r).conns[c]; !d.open && d.turns == s.conns[c].turns && d.consumed == s.conns[c].consumed
  {
  }

  function SentBody(q: Req, continues: bool): Outgoing {
    if continues then Continued(q.body, q.decision.previousResponseID, q.decision.inputStart) else Replay(q)
  }

  /** Websocket c carries one unread response, the last one in the log, and request r asked for it. */
  ghost predicate AskedLast(s: State, r: nat, q: Req, c: nat) {
    && c < |s.conns|
    && |s.conns[c].turns| > 0 && s.conns[c].consumed == |s.conns[c].turns| - 1
    && s.conns[c].turns[|s.conns[c].turns| - 1] == |s.log| - 1
    && |s.log| > 0 && s.log[|s.log| - 1].owner == r && s.log[|s.log| - 1].full == InputOf(q.body)
  }

  lemma AskKeepsBase(s: State, r: nat, q: Req, c: nat, continues: bool, output: seq<Item>)
    requires Base(s) && ReqOk(s.log, r, q)
    requires c < |s.conns| && Drained(s.conns[c])
    ensures Base(Ask(s, r, q, c, SentBody(q, continues), output))
    ensures AskedLast(Ask(s, r, q, c, SentBody(q, continues), output), r, q, c)
  {
    var out := SentBody(q, continues);
    var e := Entry(r, c, out.previous, InputOf(out.body), InputOf(q.body), output);
    EntryIsLinked(s, q, e, continues);
    LogGrows(s, e);
    var t := Ask(s, r, q, c, out, output);
    forall d | 0 <= d < |t.conns| && t.conns[d].open ensures t.pool.Some? && t.pool.value.conn == d {
      assert s.conns[d].open;
    }
  }

  /** What a send leaves behind, when the pooled websocket had nothing left to read. */
  ghost predicate SentOk(s: State, s1: State, got: Option<nat>, r: nat, q: Req) {
    && Base(s1)
    && s1.reqs == s.reqs && s1.holder == s.holder && s1.table == s.table && s1.unlockedCloses == s.unlockedCloses
    && (got.None? ==> s1.pool.None? && s1.log == s.log)
    && (got.Some? ==> s1.pool == Some(PooledStream(got.value, q.session)) && AskedLast(s1, r, q, got.value)
                      && ReqOk(s1.log, r, q))
  }

  lemma SendKeepsBase(s: State, r: nat, q: Req, continues: bool, dial: Dial, output: seq<Item>)
    requires Base(s) && s.holder == Some(r) && ReqOk(s.log, r, q)
    requires s.pool.Some? ==> Drained(s.conns[s.pool.value.conn])
    ensures var (s1, got) := Send(s, r, q, SentBody(q, continues), dial, output); SentOk(s, s1, got, r, q)
  {
    var pooled := if s.pool.Some? then Some(s.pool.value.session) else None;
    CloseKeepsBase(s, r);
    match AccessOf(pooled, q.session, dial)
    case LostOnWrite =>
    case DialFailed =>
    case Reused =>
      AskKeepsBase(s, r, q, s.pool.value.conn, continues, output);
      LogIsExtended(s, r, q, s.pool.value.conn, SentBody(q, continues), output);
    case Opened =>
      var s1 := if s.pool.Some? then CloseLocked(s, r) else s;
      var c := |s1.conns|;
      var s2 := s1.(conns := s1.conns + [Conn(true, [], 0)], pool := Some(PooledStream(c, q.session)));
      assert Base(s2);
      AskKeepsBase(s2, r, q, c, continues, output);
      LogIsExtended(s2, r, q, c, SentBody(q, continues), output);
  }

  lemma LogIsExtended(s: State, r: nat, q: Req, c: nat, out: Outgoing, output: seq<Item>)
    requires c < |s.conns| && ReqOk(s.log, r, q)
    ensures ReqOk(Ask(s, r, q, c, out, output).log, r, q)
  {
  }

  lemma CulpritKept(s: State, t: State)
    requires Culprit(s) && t.unlockedCloses == s.unlockedCloses
    requires forall x | x in s.reqs :: x in t.reqs && t.reqs[x].body == s.reqs[x].body
    ensures Culprit(t)
  {
    if t.unlockedCloses > 0 {
      var x :| x in s.reqs && FingerprintOf(s.reqs[x].body).None?;
      assert x in t.reqs && FingerprintOf(t.reqs[x].body).None?;
    }
  }

  lemma UpdateKeepsBase(s: State, r: nat, q: Req)
    requires Base(s) && ReqOk(s.log, r, q)
    ensures Base(Update(s, r, q)) && Base(Update(s, r, q).(holder := None))
  {
  }

  /** A request that neither has nor takes the lock leaves it alone. */
  lemma LockKept(s: State, t: State, r: nat)
    requires LockOk(s) && s.holder != Some(r)
    requires t.holder == s.holder && t.pool == s.pool && t.conns == s.conns && t.log == s.log
    requires forall x | x in s.reqs && x != r :: x in t.reqs && t.reqs[x] == s.reqs[x]
    requires forall x | x in t.reqs && x != r :: x in s.reqs
    requires r in t.reqs ==> !Holding(t.reqs[r])
    ensures LockOk(t)
  {
  }

  /** A request holding the lock may put itself in a new state over a new shared state. */
  lemma HolderMoves(s: State, s1: State, r: nat, q: Req)
    requires Inv(s) && s.holder == Some(r) && r in s.reqs
    requires Base(s1) && s1.holder == Some(r) && s1.reqs.Keys == s.reqs.Keys
    requires forall x | x in s.reqs && x != r :: s1.reqs[x] == s.reqs[x]
    requires s1.unlockedCloses == s.unlockedCloses
    requires ReqOk(s1.log, r, q) && Holding(q) && q.body == s.reqs[r].body
    requires HolderOk(Update(s1, r, q), r, q)
    ensures Inv(Update(s1, r, q))
  {
    UpdateKeepsBase(s1, r, q);
    CulpritKept(s, Update(s1, r, q));
    HolderLocks(s, s1, r, q);
  }

  lemma HolderLocks(s: State, s1: State, r: nat, q: Req)
    requires LockOk(s) && s.holder == Some(r) && s1.holder == Some(r) && s1.reqs.Keys == s.reqs.Keys
    requires forall x | x in s.reqs && x != r :: s1.reqs[x] == s.reqs[x]
    requires Holding(q) && HolderOk(Update(s1, r, q), r, q)
    ensures LockOk(Update(s1, r, q))
  {
  }

  /** A decision taken from a sound table is sound. */
  lemma PreparedIsOk(s: State, session: string, branch: string, body: Body, q: Req)
    requires TableOk(s.log, s.table) && session != "" && branch != ""
    requires q.session == session && q.branch == branch && q.body == body
    requires q.decision == Prepared(s.table, session, branch, body)
    ensures DecisionOk(s.log, q)
  {
    if q.decision.previousResponseID.Some? {
      var state := Lookup(s.table, Key(session, branch));
      HashPrefixIsItemPrefix(s.log[state.lastResponseID.value].full, body.input);
    }
  }

  lemma ArriveKeepsInv(s: State, r: nat, session: string, branch: string, body: Body)
    requires Inv(s) && Enabled(s, Arrive(r, session, branch, body))
    ensures Inv(Apply(s, Arrive(r, session, branch, body)))
  {
    var t := Apply(s, Arrive(r, session, branch, body));
    PreparedIsOk(s, session, branch, body, t.reqs[r]);
    assert ReqOk(t.log, r, t.reqs[r]);
    UpdateKeepsBase(s, r, t.reqs[r]);
    CulpritKept(s, t);
    LockKept(s, t, r);
  }

  lemma FirstSendKeepsInv(s: State, r: nat, dial: Dial, output: seq<Item>)
    requires Inv(s) && Enabled(s, FirstSend(r, dial, output))
    ensures Inv(Apply(s, FirstSend(r, dial, output)))
  {
    var q := s.reqs[r];
    SendKeepsBase(s, r, q, true, dial, output);
    var (s1, got) := Send(s, r, q, SentBody(q, true), dial, output);
    assert Continuing(s, s1, r);
    if got.Some? {
      StreamingKeepsInv(s, s1, r, got.value, FreshWebSocket);
    } else {
      LosingKeepsInv(s, s1, r);
    }
  }

  lemma LosingKeepsInv(s: State, s1: State, r: nat)
    requires Continuing(s, s1, r) && s1.pool.None? && s1.log == s.log && s1.reqs == s.reqs
    requires s.reqs[r].phase.Acquired?
    ensures Inv(Update(s1, r, s.reqs[r].(phase := Lost)))
  {
    HolderMoves(s, s1, r, s.reqs[r].(phase := Lost));
  }

  lemma FailSessionKeepsBase(s: State, r: nat, q: Req)
    requires Base(s)
    ensures Base(FailSession(s, r, q)) && FailSession(s, r, q).pool.None? && FailSession(s, r, q).log == s.log
    ensures |FailSession(s, r, q).conns| == |s.conns|
    ensures forall c | 0 <= c < |s.conns| ::
      var d := FailSession(s, r, q).conns[c]; !d.open && d.turns == s.conns[c].turns && d.consumed == s.conns[c].consumed
  {
    CloseKeepsBase(s, r);
  }

  /** A request that held the lock ends up without it, leaving nothing unread in the pool. */
  lemma LockGivenBack(s: State, t: State, r: nat)
    requires Inv(s) && s.holder == Some(r) && r in s.reqs
    requires Base(t) && t.holder.None? && r in t.reqs && t.reqs.Keys == s.reqs.Keys
    requires forall x | x in s.reqs && x != r :: t.reqs[x] == s.reqs[x]
    requires t.unlockedCloses == s.unlockedCloses
    requires !Holding(t.reqs[r]) && t.reqs[r].body == s.reqs[r].body
    requires t.pool.Some? ==> Drained(t.conns[t.pool.value.conn])
    ensures Inv(t)
  {
    CulpritKept(s, t);
  }

  /** State s1 is s after a step of the lock holder r, up to r's own fields. */
  ghost predicate Continuing(s: State, s1: State, r: nat) {
    && Inv(s) && s.holder == Some(r) && r in s.reqs
    && Base(s1) && s1.holder == Some(r) && s1.reqs.Keys == s.reqs.Keys
    && (forall x | x in s.reqs && x != r :: s1.reqs[x] == s.reqs[x])
    && s1.unlockedCloses == s.unlockedCloses
    && s1.reqs[r].body == s.reqs[r].body && s1.reqs[r].releases == 0
  }

  lemma SendAndStream(s: State, s0: State, r: nat, dial: Dial, output: seq<Item>, stage: Stage)
    requires Continuing(s, s0, r) && s0.pool.None?
    ensures
      var q := s0.reqs[r];
      var (s1, got) := Send(s0, r, q, Replay(q), dial, output);
      && Continuing(s, s1, r) && s1.reqs == s0.reqs
      && (got.None? ==> s1.pool.None?)
      && (got.Some? ==> Inv(Update(s1, r, Stream(q, got.value, stage))))
  {
    var q := s0.reqs[r];
    SendKeepsBase(s0, r, q, false, dial, output);
    var (s1, got) := Send(s0, r, q, SentBody(q, false), dial, output);
    if got.Some? {
      StreamingKeepsInv(s, s1, r, got.value, stage);
    }
  }

  lemma StreamingKeepsInv(s: State, s1: State, r: nat, c: nat, stage: Stage)
    requires Continuing(s, s1, r)
    requires s1.pool == Some(PooledStream(c, s1.reqs[r].session)) && AskedLast(s1, r, s1.reqs[r], c)
    ensures Inv(Update(s1, r, Stream(s1.reqs[r], c, stage)))
  {
    HolderMoves(s, s1, r, Stream(s1.reqs[r], c, stage));
  }

  lemma FailKeepsContinuing(s: State, s1: State, r: nat)
    requires Continuing(s, s1, r)
    ensures Continuing(s, FailSession(s1, r, s1.reqs[r]), r)
    ensures FailSession(s1, r, s1.reqs[r]).pool.None? && FailSession(s1, r, s1.reqs[r]).reqs == s1.reqs
  {
    FailSessionKeepsBase(s1, r, s1.reqs[r]);
  }

  /** The holder ends without the lock: its fields become q and the pool is empty or read out. */
  lemma ReleaseKeepsInv(s: State, s1: State, r: nat, q: Req)
    requires Continuing(s, s1, r)
    requires ReqOk(s1.log, r, q) && !Holding(q) && q.body == s1.reqs[r].body
    requires s1.pool.Some? ==> Drained(s1.conns[s1.pool.value.conn])
    ensures Inv(Update(s1.(holder := None), r, q))
  {
    UpdateKeepsBase(s1, r, q);
    LockGivenBack(s, Update(s1.(holder := None), r, q), r);
  }

  lemma ReplaySendKeepsInv(s: State, r: nat, dial: Dial, output: seq<Item>)
    requires Inv(s) && Enabled(s, ReplaySend(r, dial, output))
    ensures Inv(Apply(s, ReplaySend(r, dial, output)))
  {
    var q := s.reqs[r];
    FailKeepsContinuing(s, s, r);
    var s0 := FailSession(s, r, q);
    SendAndStream(s, s0, r, dial, output, HttpSse);
    var (s1, got) := Send(s0, r, q, Replay(q), dial, output);
    if got.None? {
      var q1 := q.(phase := HttpPending, releases := 1);
      ReleaseKeepsInv(s, s1, r, q1);
      assert s1.reqs[r := q.(phase := HttpPending)][r := q1] == s1.reqs[r := q1];
    }
  }

  /** Reading changes how far the active websocket was read, and nothing else of the shared state. */
  lemma ReadingKeepsBase(s: State, c: nat, consumed: nat)
    requires Base(s) && c < |s.conns|
    ensures Base(s.(conns := s.conns[c := s.conns[c].(consumed := consumed)]))
  {
  }

  /** The reader's fields after a frame of its response fit the log and the websocket. */
  lemma ReadingIsOk(s: State, r: nat, frame: Frame)
    requires Inv(s) && Enabled(s, Receive(r, frame)) && frame.Part?
    ensures
      var (q, t) := (s.reqs[r], Apply(s, Receive(r, frame)));
      var s1 := s.(conns := t.conns);
      && s.holder == Some(r) && t == Update(s1, r, t.reqs[r]) && t.reqs[r].body == q.body
      && ReqOk(s1.log, r, t.reqs[r]) && Holding(t.reqs[r]) && HolderOk(t, r, t.reqs[r])
  {
    assert ReqOk(s.log, r, s.reqs[r]) && Holding(s.reqs[r]);
  }

  lemma ReceiveKeepsInv(s: State, r: nat, frame: Frame)
    requires Inv(s) && Enabled(s, Receive(r, frame))
    ensures Inv(Apply(s, Receive(r, frame)))
  {
    if frame.Part? {
      var c := s.conns[s.reqs[r].active];
      var t := Apply(s, Receive(r, frame));
      ReadingKeepsBase(s, s.reqs[r].active, c.consumed + 1);
      ReadingIsOk(s, r, frame);
      HolderMoves(s, s.(conns := t.conns), r, t.reqs[r]);
    }
  }

  /** Recovery over HTTP gives the lock back, whether or not the HTTP stream opens. */
  lemma RecoverHttpKeepsInv(s: State, s1: State, r: nat, httpOk: bool)
    requires Continuing(s, s1, r) && s1.reqs[r].phase.Broken?
    ensures Inv(RecoverHttp(s1, r, httpOk))
  {
    CloseKeepsBase(s1, r);
    var s2 := CloseLocked(s1, r);
    var q := s1.reqs[r];
    var q1 := q.(releases := 1, stage := RecoveryDone, phase := if httpOk then OverHttp else Broken, started := q.started || httpOk);
    ReleaseKeepsInv(s, s2, r, q1);
    assert s2.reqs[r := q.(releases := 1)][r := q1] == s2.reqs[r := q1];
  }

  lemma RecoverKeepsInv(s: State, s1: State, r: nat, dial: Dial, output: seq<Item>, httpOk: bool)
    requires Continuing(s, s1, r) && s1.reqs[r].phase.Broken? && Inv(s1)
    ensures Inv(Recover(s1, r, dial, output, httpOk))
  {
    match s1.reqs[r].stage
    case FreshWebSocket =>
      FailKeepsContinuing(s, s1, r);
      var s2 := FailSession(s1, r, s1.reqs[r]);
      SendAndStream(s, s2, r, dial, output, HttpSse);
      var (s3, got) := Send(s2, r, s1.reqs[r], Replay(s1.reqs[r]), dial, output);
      if got.None? {
        RecoverHttpKeepsInv(s, s3, r, httpOk);
      }
    case HttpSse =>
      RecoverHttpKeepsInv(s, s1, r, httpOk);
    case RecoveryDone =>
  }

  /** The fields of r, and the shared state, just after its stream failed. */
  function Struck(q: Req): Req {
    q.(phase := Broken, failArmed := q.failArmed && q.completed)
  }

  lemma StreamBreaksKeepsInv(s: State, r: nat)
    requires Inv(s) && r in s.reqs && s.reqs[r].phase.Streaming?
    ensures
      var q := s.reqs[r];
      var s1 := Update(if q.completed then s else FailSession(s, r, q), r, Struck(q));
      Inv(s1) && Continuing(s, s1, r)
  {
    var q := s.reqs[r];
    assert ReqOk(s.log, r, q);
    assert Holding(q);
    assert Continuing(s, s, r);
    if !q.completed {
      FailKeepsContinuing(s, s, r);
    }
    var s0 := if q.completed then s else FailSession(s, r, q);
    StruckKeepsInv(s, s0, r);
  }

  lemma StruckKeepsInv(s: State, s0: State, r: nat)
    requires Continuing(s, s0, r) && s0.reqs == s.reqs && s.reqs[r].phase.Streaming?
    requires if s.reqs[r].completed then s0 == s else s0.pool.None? && s0.log == s.log
    ensures Inv(Update(s0, r, Struck(s.reqs[r]))) && Continuing(s, Update(s0, r, Struck(s.reqs[r])), r)
  {
    var q := s.reqs[r];
    StruckIsOk(s, s0, r);
    HolderMoves(s, s0, r, Struck(q));
    StruckContinues(s, s0, r);
  }

  lemma StruckIsOk(s: State, s0: State, r: nat)
    requires Continuing(s, s0, r) && s0.reqs == s.reqs && s.reqs[r].phase.Streaming?
    requires if s.reqs[r].completed then s0 == s else s0.pool.None? && s0.log == s.log
    ensures ReqOk(s0.log, r, Struck(s.reqs[r])) && Holding(Struck(s.reqs[r]))
    ensures HolderOk(Update(s0, r, Struck(s.reqs[r])), r, Struck(s.reqs[r]))
  {
    assert ReqOk(s.log, r, s.reqs[r]);
  }

  lemma StruckContinues(s: State, s0: State, r: nat)
    requires Continuing(s, s0, r) && s0.reqs == s.reqs
    requires ReqOk(s0.log, r, Struck(s.reqs[r]))
    ensures Continuing(s, Update(s0, r, Struck(s.reqs[r])), r)
  {
    UpdateKeepsBase(s0, r, Struck(s.reqs[r]));
  }

  lemma StreamFailsKeepsInv(s: State, r: nat, recoverable: bool, dial: Dial, output: seq<Item>, httpOk: bool)
    requires Inv(s) && Enabled(s, StreamFails(r, recoverable, dial, output, httpOk))
    ensures Inv(Apply(s, StreamFails(r, recoverable, dial, output, httpOk)))
  {
    var q := s.reqs[r];
    StreamBreaksKeepsInv(s, r);
    var s1 := Update(if q.completed then s else FailSession(s, r, q), r, Struck(q));
    assert q.failArmed;
    if !q.started && recoverable {
      RecoverKeepsInv(s, s1, r, dial, output, httpOk);
    }
  }

  /** A request without the lock, before and after, changes its own fields only. */
  lemma SettledMoves(s: State, s1: State, r: nat, q: Req)
    requires Inv(s) && r in s.reqs && s.holder != Some(r)
    requires s1.(table := s.table) == s && TableOk(s.log, s1.table)
    requires ReqOk(s.log, r, q) && !Holding(q) && q.body == s.reqs[r].body
    ensures Inv(Update(s1, r, q))
  {
    var t := Update(s1, r, q);
    CulpritKept(s, t);
    UpdateKeepsBase(s1, r, q);
    LockKept(s, t, r);
  }

  /** Even a CloseLocked without the lock breaks nothing but the lock rule: its victim finds its websocket closed. */
  lemma UnlockedCloseKeepsInv(s: State, r: nat, q: Req)
    requires Inv(s) && r in s.reqs && s.holder != Some(r)
    requires ReqOk(s.log, r, q) && !Holding(q) && q.body == s.reqs[r].body
    requires FingerprintOf(q.body).None?
    ensures Inv(Update(FailSession(s, r, s.reqs[r]), r, q))
  {
    FailSessionKeepsBase(s, r, s.reqs[r]);
    var s1 := FailSession(s, r, s.reqs[r]);
    UpdateKeepsBase(s1, r, q);
    var t := Update(s1, r, q);
    assert r in t.reqs && FingerprintOf(t.reqs[r].body).None?;
  }

  /** The fields of r once it closed: they do not depend on whether it held the lock. */
  function Closed(q: Req): Req {
    var commits := q.completed && q.commitArmed && q.decision.commit.Some?;
    q.(commitArmed := q.commitArmed && !commits, failArmed := q.failArmed && commits, releases := 1, phase := Finished)
  }

  function CommitTable(s: State, q: Req): Table
    requires q.decision.commit.Some?
  {
    Committed(s.table, q.decision.commit.value.key, q.decision.commit.value.fp, q.lastId, "")
  }

  lemma CloseStepShape(s: State, r: nat)
    requires Inv(s) && Enabled(s, CloseStream(r)) && !s.reqs[r].phase.OverHttp?
    ensures
      var q := s.reqs[r];
      var commits := q.completed && q.commitArmed && q.decision.commit.Some?;
      var s0 := if commits then s.(table := CommitTable(s, q)) else if q.failArmed then FailSession(s, r, q) else s;
      var s1 := if q.releases > 0 then s0 else s0.(holder := None);
      CloseStep(s, r) == Update(s1, r, Closed(q))
  {
    var q := s.reqs[r];
    assert s.reqs[r := q] == s.reqs;
    var q1 := Closed(q).(releases := q.releases, phase := q.phase);
    assert s.reqs[r := q1][r := Closed(q)] == s.reqs[r := Closed(q)];
    assert s.reqs[r := q1][r := q1.(releases := 1)][r := Closed(q)] == s.reqs[r := Closed(q)];
    assert s.reqs[r := q.(releases := 1)][r := Closed(q)] == s.reqs[r := Closed(q)];
  }

  /** Closing while holding the lock: commit, or fail, then unlock. */
  lemma HolderClosesKeepsInv(s: State, r: nat, s0: State)
    requires Inv(s) && Enabled(s, CloseStream(r)) && !s.reqs[r].phase.OverHttp? && s.reqs[r].releases == 0
    requires
      var q := s.reqs[r];
      var commits := q.completed && q.commitArmed && q.decision.commit.Some?;
      s0 == if commits then s.(table := CommitTable(s, q)) else if q.failArmed then FailSession(s, r, q) else s
    ensures Inv(Update(s0.(holder := None), r, Closed(s.reqs[r])))
  {
    var q := s.reqs[r];
    assert Holding(q);
    var commits := q.completed && q.commitArmed && q.decision.commit.Some?;
    if commits {
      CommitKeepsTable(s, r);
    } else if q.failArmed {
      FailKeepsContinuing(s, s, r);
    }
    assert Continuing(s, s0, r);
    ReleaseKeepsInv(s, s0, r, Closed(q));
  }

  lemma CloseStreamKeepsInv(s: State, r: nat)
    requires Inv(s) && Enabled(s, CloseStream(r))
    ensures Inv(Apply(s, CloseStream(r)))
  {
    var q := s.reqs[r];
    if q.phase.OverHttp? {
      SettledMoves(s, s, r, q.(phase := Finished));
    } else {
      CloseStepShape(s, r);
      var commits := q.completed && q.commitArmed && q.decision.commit.Some?;
      var s0 := if commits then s.(table := CommitTable(s, q)) else if q.failArmed then FailSession(s, r, q) else s;
      if q.releases == 0 {
        HolderClosesKeepsInv(s, r, s0);
      } else if commits {
        CommitKeepsTable(s, r);
        SettledMoves(s, s0, r, Closed(q));
      } else if !q.failArmed {
        SettledMoves(s, s, r, Closed(q));
      } else {
        UnlockedCloseKeepsInv(s, r, Closed(q));
      }
    }
  }

  /** The id a request commits is the id of a response to that very request. */
  lemma CommitKeepsTable(s: State, r: nat)
    requires Inv(s) && r in s.reqs && s.reqs[r].decision.commit.Some?
    ensures TableOk(s.log, CommitTable(s, s.reqs[r]))
  {
  }

  lemma OpenHttpKeepsInv(s: State, r: nat, ok: bool)
    requires Inv(s) && Enabled(s, OpenHttp(r, ok))
    ensures Inv(Apply(s, OpenHttp(r, ok)))
  {
    SettledMoves(s, s, r, s.reqs[r].(phase := if ok then OverHttp else Finished));
  }

  lemma TableStepKeepsInv(s: State, a: Action)
    requires Inv(s) && (a.SetTurnState? || a.Invalidate?)
    ensures Inv(Apply(s, a))
  {
    assert Culprit(s);
  }

  lemma StepKeepsInv(s: State, a: Action)
    requires Inv(s) && Enabled(s, a)
    ensures Inv(Apply(s, a))
  {
    match a
    case Arrive(r, session, branch, body) => ArriveKeepsInv(s, r, session, branch, body);
    case Acquire(r) => AcquireKeepsInv(s, r);
    case FirstSend(r, dial, output) => FirstSendKeepsInv(s, r, dial, output);
    case ReplaySend(r, dial, output) => ReplaySendKeepsInv(s, r, dial, output);
    case OpenHttp(r, ok) => OpenHttpKeepsInv(s, r, ok);
    case Receive(r, frame) => ReceiveKeepsInv(s, r, frame);
    case StreamFails(r, recoverable, dial, output, httpOk) => StreamFailsKeepsInv(s, r, recoverable, dial, output, httpOk);
    case CloseStream(r) => CloseStreamKeepsInv(s, r);
    case SetTurnState(_, _, _) => TableStepKeepsInv(s, a);
    case Invalidate(_, _) => TableStepKeepsInv(s, a);
  }

  lemma AcquireKeepsInv(s: State, r: nat)
    requires Inv(s) && Enabled(s, Acquire(r))
    ensures Inv(Apply(s, Acquire(r)))
  {
    var t := Apply(s, Acquire(r));
    UpdateKeepsBase(s, r, t.reqs[r]);
    CulpritKept(s, t);
  }
}
