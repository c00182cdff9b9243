/** What every run of the Codex transport guarantees, and the two places where it falls short. */
module CodexTheorems {
  import opened Wrappers
  import opened CodexBody
  import opened Continuation
  import opened RecoveryStages
  import opened ResponsesSession
  import opened CodexProtocol
  import opened CodexProtocolProofs

  predicate Sane(s: State) {
    s.pool.Some? ==> s.pool.value.conn < |s.conns|
  }

  /** The actions can be taken one after the other from s. */
  predicate ValidRun(s: State, acts: seq<Action>)
    decreases |acts|
  {
    acts == [] || (Sane(s) && Enabled(s, acts[0]) && ValidRun(Apply(s, acts[0]), acts[1..]))
  }

  function RunAll(s: State, acts: seq<Action>): State
    requires ValidRun(s, acts)
    decreases |acts|
  {
    if acts == [] then s else RunAll(Apply(s, acts[0]), acts[1..])
  }

  lemma {:induction false} RunKeepsInv(s: State, acts: seq<Action>)
    requires Inv(s) && ValidRun(s, acts)
    ensures Inv(RunAll(s, acts))
    decreases |acts|
  {
    if acts != [] {
      StepKeepsInv(s, acts[0]);
      RunKeepsInv(Apply(s, acts[0]), acts[1..]);
    }
  }

  lemma Reachable(acts: seq<Action>)
    requires ValidRun(INIT, acts)
    ensures Inv(RunAll(INIT, acts)) && Sane(RunAll(INIT, acts))
  {
    RunKeepsInv(INIT, acts);
  }

  // ------------------------------------------------------------------
  // The server can rebuild every request
  // ------------------------------------------------------------------

  /** The inputs the server was sent for response id and the responses it continues, oldest first. */
  ghost function Rebuild(log: seq<Entry>, id: nat): seq<Item>
    requires LogOk(log) && id < |log|
  {
    assert EntryOk(log, id);
    (if log[id].previous.Some? then Rebuild(log, log[id].previous.value) else []) + log[id].sent
  }

  lemma {:induction false} RebuildsCallerItems(log: seq<Entry>, id: nat)
    requires LogOk(log) && id < |log|
    ensures CallerItems(Rebuild(log, id)) == CallerItems(log[id].full)
  {
    assert EntryOk(log, id);
    match log[id].previous
    case None =>
      assert Rebuild(log, id) == log[id].full;
    case Some(p) =>
      RebuildsCallerItems(log, p);
      CallerItemsConcat(Rebuild(log, p), log[id].sent);
      ContinuedKeepsCallerItems(Body("", "", log[id].full, ""), log[p].full, p);
  }

  /**
   In every run: whatever response the table remembers for a (session, branch), the
   caller's items the server was sent along the chain of previous_response_id are
   those of the request the table has the hashes of.
   */
  lemma RememberedResponsesRebuild(acts: seq<Action>, key: Key)
    requires ValidRun(INIT, acts)
    requires var s := RunAll(INIT, acts); key in s.table && s.table[key].lastResponseID.Some?
    ensures
      var s := RunAll(INIT, acts);
      var id := s.table[key].lastResponseID.value;
      && LogOk(s.log) && id < |s.log|
      && s.table[key].lastInputHashes == Hashes(s.log[id].full)
      && CallerItems(Rebuild(s.log, id)) == CallerItems(s.log[id].full)
  {
    Reachable(acts);
    var s := RunAll(INIT, acts);
    RebuildsCallerItems(s.log, s.table[key].lastResponseID.value);
  }

  /** In every run: so it is for every response the server was ever asked for, replays after recovery included. */
  lemma EveryResponseRebuilds(acts: seq<Action>, id: nat)
    requires ValidRun(INIT, acts) && id < |RunAll(INIT, acts).log|
    ensures LogOk(RunAll(INIT, acts).log)
    ensures CallerItems(Rebuild(RunAll(INIT, acts).log, id)) == CallerItems(RunAll(INIT, acts).log[id].full)
  {
    Reachable(acts);
    RebuildsCallerItems(RunAll(INIT, acts).log, id);
  }

  /** The conversation the server has at response id: what it was sent and what it answered. */
  ghost function Conversation(log: seq<Entry>, id: nat): seq<Item>
    requires LogOk(log) && id < |log|
  {
    assert EntryOk(log, id);
    (if log[id].previous.Some? then Conversation(log, log[id].previous.value) + log[log[id].previous.value].output else [])
    + log[id].sent
  }

  /** The caller of response id replayed the previous input and the whole previous answer. */
  ghost predicate Replays(log: seq<Entry>, id: nat)
    requires LogOk(log) && id < |log|
  {
    assert EntryOk(log, id);
    log[id].previous.Some? ==>
      var p := log[log[id].previous.value];
      p.full + p.output <= log[id].full
  }

  predicate AllAssistant(items: seq<Item>) {
    forall x | x in items :: x.role == ASSISTANT
  }

  /** What the caller added after the previous answer. */
  ghost function Added(log: seq<Entry>, id: nat): seq<Item>
    requires LogOk(log) && id < |log| && log[id].previous.Some? && Replays(log, id)
  {
    assert EntryOk(log, id);
    var p := log[log[id].previous.value];
    log[id].full[|p.full + p.output|..]
  }

  /**
   Nothing of the previous answer is sent again and nothing new is left out: after
   an empty input there was no answer, and otherwise the answer was by the assistant
   throughout and what was added does not start with an item by the assistant.  An
   item without a role, as a function_call is, is by nobody.
   */
  ghost predicate CutsExactly(log: seq<Entry>, id: nat)
    requires LogOk(log) && id < |log| && log[id].previous.Some? && Replays(log, id)
  {
    assert EntryOk(log, id);
    var p := log[log[id].previous.value];
    var added := Added(log, id);
    if p.full == [] then p.output == []
    else AllAssistant(p.output) && (added != [] ==> added[0].role != ASSISTANT)
  }

  /** Cutting off the leading assistant items cuts off `answer` exactly when that is what they are. */
  lemma {:induction false} CutIff(answer: seq<Item>, added: seq<Item>)
    ensures DropLeadingAssistant(answer + added) == added
            <==> AllAssistant(answer) && (added != [] ==> added[0].role != ASSISTANT)
  {
    if answer == [] {
      assert answer + added == added;
      NeverLonger(added);
    } else {
      assert (answer + added)[1..] == answer[1..] + added;
      CutIff(answer[1..], added);
      if answer[0].role != ASSISTANT {
        assert |DropLeadingAssistant(answer + added)| == |answer| + |added|;
        assert answer[0] in answer;
      } else {
        assert forall x | x in answer :: x == answer[0] || x in answer[1..];
        assert forall x | x in answer[1..] :: x in answer;
      }
    }
  }

  lemma {:induction false} NeverLonger(items: seq<Item>)
    ensures |DropLeadingAssistant(items)| <= |items|
    ensures items != [] && items[0].role == ASSISTANT ==> |DropLeadingAssistant(items)| < |items|
  {
    if items != [] && items[0].role == ASSISTANT {
      NeverLonger(items[1..]);
    }
  }

  lemma SameFront(front: seq<Item>, a: seq<Item>, b: seq<Item>)
    ensures front + a == front + b <==> a == b
  {
    assert (front + a)[|front|..] == a && (front + b)[|front|..] == b;
  }

  /** One link: the server's conversation becomes exactly the caller's input if and only if the answer is cut off exactly. */
  lemma LinkIsExactIff(log: seq<Entry>, id: nat)
    requires LogOk(log) && id < |log| && log[id].previous.Some? && log[id].previous.value < id
    requires Replays(log, id)
    requires Conversation(log, log[id].previous.value) == log[log[id].previous.value].full
    ensures Conversation(log, id) == log[id].full <==> CutsExactly(log, id)
  {
    assert EntryOk(log, id);
    var p := log[log[id].previous.value];
    var added := Added(log, id);
    assert log[id].full == (p.full + p.output) + added;
    assert Conversation(log, id) == (p.full + p.output) + log[id].sent;
    SameFront(p.full + p.output, log[id].sent, added);
    if p.full != [] {
      assert log[id].full[|p.full|..] == p.output + added;
      CutIff(p.output, added);
    } else {
      assert log[id].sent == log[id].full;
      assert |log[id].full| == |p.output| + |added|;
      if p.output == [] {
        assert p.full + p.output + added == added;
      }
    }
  }

  /** Along a chain of links that cut exactly the server's conversation is the caller's input. */
  lemma {:induction false} ExactLinksReplayExactly(log: seq<Entry>, id: nat)
    requires LogOk(log) && id < |log|
    requires forall i | 0 <= i <= id :: Replays(log, i)
    requires forall i | 0 <= i <= id && log[i].previous.Some? :: CutsExactly(log, i)
    ensures Conversation(log, id) == log[id].full
  {
    assert EntryOk(log, id);
    if log[id].previous.Some? {
      ExactLinksReplayExactly(log, log[id].previous.value);
      assert Replays(log, id) && CutsExactly(log, id);
      LinkIsExactIff(log, id);
    }
  }

  /** From the first item of the answer that is not by the assistant on, the server is sent the answer a second time. */
  lemma AnswersAreSentAgain(log: seq<Entry>, id: nat, spoken: seq<Item>, rest: seq<Item>)
    requires LogOk(log) && id < |log| && log[id].previous.Some? && log[id].previous.value < id
    requires Replays(log, id)
    requires Conversation(log, log[id].previous.value) == log[log[id].previous.value].full
    requires
      var p := log[log[id].previous.value];
      p.full != [] && p.output == spoken + rest && AllAssistant(spoken) && rest != [] && rest[0].role != ASSISTANT
    ensures
      var p := log[log[id].previous.value];
      Conversation(log, id) == p.full + p.output + rest + Added(log, id)
  {
    assert EntryOk(log, id);
    var p := log[log[id].previous.value];
    var added := Added(log, id);
    assert log[id].full == (p.full + p.output) + added;
    assert log[id].full[|p.full|..] == spoken + (rest + added);
    OnlyLeadingAssistantsDropped(log[id].full[|p.full|..], spoken, rest + added);
    assert Conversation(log, id) == (p.full + p.output) + (rest + added);
    assert (p.full + p.output) + (rest + added) == p.full + p.output + rest + added;
  }

  /** The log of an ordinary tool turn: a question, a tool call as the answer, and then the call with its result. */
  function ToolTurn(question: Item, call: Item, result: Item): seq<Entry> {
    [Entry(0, 0, None, [question], [question], [call]),
     Entry(1, 0, Some(0), DropLeadingAssistant([call, result]), [question, call, result], [])]
  }

  /** In a tool turn the server has the call twice whenever the call has no assistant role. */
  lemma ToolCallsAreSentTwice(question: Item, call: Item, result: Item)
    requires call.role != ASSISTANT
    ensures LogOk(ToolTurn(question, call, result)) && Replays(ToolTurn(question, call, result), 1)
    ensures Conversation(ToolTurn(question, call, result), 1) == [question, call, call, result]
  {
    var log := ToolTurn(question, call, result);
    assert [question, call, result][1..] == [call, result];
    assert EntryOk(log, 0) && EntryOk(log, 1);
    assert Conversation(log, 0) == [question];
    AnswersAreSentAgain(log, 1, [], [call]);
    assert Added(log, 1) == [result];
    assert [question] + [call] + [call] + [result] == [question, call, call, result];
  }

  // ------------------------------------------------------------------
  // The lock and the pooled websocket
  // ------------------------------------------------------------------

  /**
   In every run: no request gives the lock back twice, one that took it and is
   over HTTP or finished gave it back exactly once, and the lock is held by the
   one request in a locked phase if there is one.
   */
  lemma LockIsReleasedOnce(acts: seq<Action>, r: nat)
    requires ValidRun(INIT, acts) && r in RunAll(INIT, acts).reqs
    ensures
      var s := RunAll(INIT, acts);
      var q := s.reqs[r];
      && q.releases <= 1
      && (q.phase.Finished? || q.phase.OverHttp? || q.phase.HttpPending? ==> q.releases == 1)
      && (Holding(q) <==> s.holder == Some(r))
  {
    Reachable(acts);
    var s := RunAll(INIT, acts);
    assert ReqOk(s.log, r, s.reqs[r]);
  }

  /** In every run: at most one websocket is open, and it is the pooled one with its session id. */
  lemma AtMostOneOpenWebSocket(acts: seq<Action>, c: nat, d: nat)
    requires ValidRun(INIT, acts)
    requires var s := RunAll(INIT, acts); c < |s.conns| && d < |s.conns| && s.conns[c].open && s.conns[d].open
    ensures
      var s := RunAll(INIT, acts);
      c == d && s.pool.Some? && s.pool.value.conn == c && s.pool.value.session != ""
  {
    Reachable(acts);
  }

  /** In every run: a response frame a request can receive belongs to the response that request asked for last. */
  lemma NoForeignFrames(acts: seq<Action>, r: nat, frame: Frame)
    requires ValidRun(INIT, acts) && Enabled(RunAll(INIT, acts), Receive(r, frame)) && frame.Part?
    ensures
      var s := RunAll(INIT, acts);
      var c := s.conns[s.reqs[r].active];
      && c.consumed == |c.turns| - 1
      && c.turns[c.consumed] < |s.log|
      && s.log[c.turns[c.consumed]].owner == r
      && s.log[c.turns[c.consumed]].full == InputOf(s.reqs[r].body)
  {
    Reachable(acts);
    var s := RunAll(INIT, acts);
    assert ReqOk(s.log, r, s.reqs[r]) && Holding(s.reqs[r]);
  }

  /**
   That rests on the server sending nothing of a response after the frame that
   completes it, for a request that takes over the pooled websocket reads on where the
   last one stopped: its first frame is one of its own response if and only if nothing
   was left to read.
   */
  lemma NextFrameIsOwnIff(s: State, r: nat, dial: Dial, output: seq<Item>)
    requires Sane(s) && r in s.reqs && s.reqs[r].session != ""
    requires s.pool.Some? && s.pool.value.session == s.reqs[r].session && dial.write.Written?
    requires
      var c := s.conns[s.pool.value.conn];
      c.consumed <= |c.turns| && forall k | 0 <= k < |c.turns| :: c.turns[k] < |s.log|
    ensures
      var t := FirstSendStep(s, r, dial, output);
      var q := t.reqs[r];
      && q.phase.Streaming? && q.active == s.pool.value.conn < |t.conns|
      && t.conns[q.active].consumed < |t.conns[q.active].turns|
      && (t.conns[q.active].turns[t.conns[q.active].consumed] == |s.log| <==> Drained(s.conns[q.active]))
      && |t.log| == |s.log| + 1 && t.log[|s.log|].owner == r
  {
  }

  predicate ActsFor(a: Action, r: nat) {
    match a
    case SetTurnState(_, _, _) => false
    case Invalidate(_, _) => false
    case _ => a.r == r
  }

  lemma SendTouchesNoRequest(s: State, r: nat, q: Req, out: Outgoing, dial: Dial, output: seq<Item>)
    requires Sane(s)
    ensures Send(s, r, q, out, dial, output).0.reqs == s.reqs
  {
  }

  /** A step changes the fields of the request it is taken for, never its body, and no other request. */
  ghost predicate TouchesOne(s: State, t: State, a: Action) {
    && (forall x | x in t.reqs :: x in s.reqs || (a.Arrive? && a.r == x && t.reqs[x].body == a.body))
    && (forall x | x in s.reqs :: x in t.reqs && t.reqs[x].body == s.reqs[x].body)
    && (forall x | x in s.reqs && !ActsFor(a, x) :: t.reqs[x] == s.reqs[x])
  }

  lemma StepTouchesOneRequest(s: State, a: Action)
    requires Sane(s) && Enabled(s, a)
    ensures TouchesOne(s, Apply(s, a), a)
  {
    match a
    case FirstSend(r, dial, output) =>
      FirstSendTouchesOneRequest(s, r, dial, output);
    case ReplaySend(r, dial, output) =>
      ReplaySendTouchesOneRequest(s, r, dial, output);
    case StreamFails(r, recoverable, dial, output, httpOk) =>
      FailureTouchesOneRequest(s, r, recoverable, dial, output, httpOk);
    case CloseStream(r) =>
      CloseTouchesOneRequest(s, r);
    case Receive(r, frame) =>
    case Arrive(_, _, _, _) =>
    case Acquire(_) =>
    case OpenHttp(_, _) =>
    case SetTurnState(_, _, _) =>
    case Invalidate(_, _) =>
  }

  /** t has the requests of s, and all but r are as in s. */
  ghost predicate SameBut(s: State, t: State, r: nat) {
    && r in s.reqs && t.reqs.Keys == s.reqs.Keys && t.reqs[r].body == s.reqs[r].body
    && forall x | x in s.reqs && x != r :: t.reqs[x] == s.reqs[x]
  }

  lemma FirstSendTouchesOneRequest(s: State, r: nat, dial: Dial, output: seq<Item>)
    requires Sane(s) && r in s.reqs
    ensures SameBut(s, FirstSendStep(s, r, dial, output), r)
    ensures FirstSendStep(s, r, dial, output).reqs[r].releases == s.reqs[r].releases
  {
    SendTouchesNoRequest(s, r, s.reqs[r], SentBody(s.reqs[r], true), dial, output);
  }

  lemma ReplaySendTouchesOneRequest(s: State, r: nat, dial: Dial, output: seq<Item>)
    requires Sane(s) && r in s.reqs
    ensures SameBut(s, ReplaySendStep(s, r, dial, output), r)
    ensures var t := ReplaySendStep(s, r, dial, output);
            s.reqs[r].releases == 0 && t.reqs[r].releases > 0 ==> t.pool.None? && t.holder.None?
  {
    SendTouchesNoRequest(FailSession(s, r, s.reqs[r]), r, s.reqs[r], Replay(s.reqs[r]), dial, output);
  }

  lemma CloseTouchesOneRequest(s: State, r: nat)
    requires r in s.reqs
    ensures SameBut(s, CloseStep(s, r), r)
  {
  }

  lemma FailureTouchesOneRequest(s: State, r: nat, recoverable: bool, dial: Dial, output: seq<Item>, httpOk: bool)
    requires Sane(s) && r in s.reqs
    ensures SameBut(s, StreamFailsStep(s, r, recoverable, dial, output, httpOk), r)
  {
    var s1 := BrokenState(s, r);
    assert SameBut(s, s1, r);
    RecoverTouchesOneRequest(s1, r, dial, output, httpOk);
  }

  /** The state between the failure of r's stream and its recovery. */
  function BrokenState(s: State, r: nat): State
    requires r in s.reqs
  {
    var q := s.reqs[r];
    if !q.completed && q.failArmed then Update(FailSession(s, r, q), r, q.(failArmed := false, phase := Broken))
    else Update(s, r, q.(phase := Broken))
  }

  lemma RecoverTouchesOneRequest(s: State, r: nat, dial: Dial, output: seq<Item>, httpOk: bool)
    requires Sane(s) && r in s.reqs
    ensures SameBut(s, Recover(s, r, dial, output, httpOk), r)
  {
    if s.reqs[r].stage.FreshWebSocket? {
      SendTouchesNoRequest(FailSession(s, r, s.reqs[r]), r, s.reqs[r], Replay(s.reqs[r]), dial, output);
    }
  }

  /** A recovery that gives the lock back leaves no pooled websocket. */
  lemma RecoveryReleasesClean(s: State, r: nat, dial: Dial, output: seq<Item>, httpOk: bool)
    requires Sane(s) && r in s.reqs && s.reqs[r].releases == 0
    ensures var t := Recover(s, r, dial, output, httpOk); r in t.reqs && (t.reqs[r].releases > 0 ==> t.pool.None? && t.holder.None?)
  {
    if s.reqs[r].stage.FreshWebSocket? {
      SendTouchesNoRequest(FailSession(s, r, s.reqs[r]), r, s.reqs[r], Replay(s.reqs[r]), dial, output);
    }
  }

  /**
   In every run: whichever step gives back the lock of a request whose response
   did not complete, the pooled websocket is gone by then.  With a completed
   response a pooled websocket has nothing left to read.
   */
  lemma NothingUnreadIsPooled(acts: seq<Action>, a: Action, r: nat)
    requires ValidRun(INIT, acts + [a]) && ValidRun(INIT, acts)
    requires r in RunAll(INIT, acts).reqs && RunAll(INIT, acts).reqs[r].releases == 0
    requires r in RunAll(INIT, acts + [a]).reqs && RunAll(INIT, acts + [a]).reqs[r].releases == 1
    ensures
      var t := RunAll(INIT, acts + [a]);
      && t.holder.None?
      && (t.pool.Some? ==> t.reqs[r].completed && t.pool.value.conn < |t.conns| && Drained(t.conns[t.pool.value.conn]))
  {
    Reachable(acts);
    Reachable(acts + [a]);
    LastStep(INIT, acts, a);
    ReleaseIsClean(RunAll(INIT, acts), a, r);
  }

  lemma {:induction false} LastStep(s: State, acts: seq<Action>, a: Action)
    requires ValidRun(s, acts) && ValidRun(s, acts + [a])
    ensures Sane(RunAll(s, acts)) && Enabled(RunAll(s, acts), a)
    ensures RunAll(s, acts + [a]) == Apply(RunAll(s, acts), a)
    decreases |acts|
  {
    if acts == [] {
      assert (acts + [a])[1..] == [];
    } else {
      assert (acts + [a])[1..] == acts[1..] + [a];
      LastStep(Apply(s, acts[0]), acts[1..], a);
    }
  }

  lemma ReleaseIsClean(s: State, a: Action, r: nat)
    requires Inv(s) && Enabled(s, a)
    requires r in s.reqs && s.reqs[r].releases == 0
    requires r in Apply(s, a).reqs && Apply(s, a).reqs[r].releases == 1
    ensures Apply(s, a).holder.None?
    ensures Apply(s, a).pool.Some? ==> Apply(s, a).reqs[r].completed
  {
    if !ActsFor(a, r) {
      StepTouchesOneRequest(s, a);
    } else {
      OwnReleaseIsClean(s, a);
    }
  }

  lemma OwnReleaseIsClean(s: State, a: Action)
    requires Inv(s) && Enabled(s, a) && !a.SetTurnState? && !a.Invalidate?
    requires a.r in s.reqs && s.reqs[a.r].releases == 0
    requires a.r in Apply(s, a).reqs && Apply(s, a).reqs[a.r].releases == 1
    ensures Apply(s, a).holder.None?
    ensures Apply(s, a).pool.Some? ==> Apply(s, a).reqs[a.r].completed
  {
    match a
    case FirstSend(r, dial, output) =>
      FirstSendTouchesOneRequest(s, r, dial, output);
    case ReplaySend(r, dial, output) =>
      ReplaySendTouchesOneRequest(s, r, dial, output);
    case StreamFails(r, recoverable, dial, output, httpOk) =>
      RecoveryReleasesClean(BrokenState(s, r), r, dial, output, httpOk);
    case CloseStream(r) =>
      CloseReleasesClean(s, r);
    case Receive(_, _) =>
    case Acquire(_) =>
    case OpenHttp(_, _) =>
  }

  lemma CloseReleasesClean(s: State, r: nat)
    requires Inv(s) && Enabled(s, CloseStream(r)) && s.reqs[r].releases == 0
    ensures r in CloseStep(s, r).reqs && CloseStep(s, r).holder.None?
    ensures CloseStep(s, r).pool.Some? ==> CloseStep(s, r).reqs[r].completed
  {
    assert ReqOk(s.log, r, s.reqs[r]);
    assert Holding(s.reqs[r]);
    CloseStepShape(s, r);
  }

  /**
   After a stream failure that nothing recovers, because something visible was
   delivered or the failure is of another kind, the websocket is gone and with it the
   continuation of the request's own session and branch.  Every other session and
   branch is still offered what it was offered before.
   */
  lemma FailureForgetsTheContinuation(acts: seq<Action>, r: nat, recoverable: bool, dial: Dial, output: seq<Item>, httpOk: bool)
    requires ValidRun(INIT, acts)
    requires Enabled(RunAll(INIT, acts), StreamFails(r, recoverable, dial, output, httpOk))
    requires !RunAll(INIT, acts).reqs[r].completed && (recoverable ==> RunAll(INIT, acts).reqs[r].started)
    ensures Sane(RunAll(INIT, acts))
    ensures
      var s := RunAll(INIT, acts);
      var q := s.reqs[r];
      var t := Apply(s, StreamFails(r, recoverable, dial, output, httpOk));
      && t.pool.None?
      && forall session, branch, body ::
           Prepared(t.table, session, branch, body).previousResponseID
           == if Key(session, branch) == Key(q.session, q.branch) then None
              else Prepared(s.table, session, branch, body).previousResponseID
  {
    Reachable(acts);
    var s := RunAll(INIT, acts);
    assert ReqOk(s.log, r, s.reqs[r]);
  }

  /**
   So the next request of a session and branch replays its history after such a
   failure if and only if it is the one that failed, or would have replayed anyway.
   */
  lemma NextReplaysIff(acts: seq<Action>, r: nat, dial: Dial, session: string, branch: string, body: Body)
    requires ValidRun(INIT, acts) && Enabled(RunAll(INIT, acts), StreamFails(r, false, dial, [], false))
    requires !RunAll(INIT, acts).reqs[r].completed
    ensures Sane(RunAll(INIT, acts))
    ensures
      var s := RunAll(INIT, acts);
      var t := Apply(s, StreamFails(r, false, dial, [], false));
      Prepared(t.table, session, branch, body).previousResponseID.None?
      <==> (session == s.reqs[r].session && branch == s.reqs[r].branch)
           || Prepared(s.table, session, branch, body).previousResponseID.None?
  {
    FailureForgetsTheContinuation(acts, r, false, dial, [], false);
  }

  predicate OnlyBody(acts: seq<Action>, body: Body) {
    forall a | a in acts && a.Arrive? :: a.body == body
  }

  lemma {:induction false} BodiesComeFromArrivals(s: State, acts: seq<Action>, body: Body)
    requires Inv(s) && ValidRun(s, acts) && OnlyBody(acts, body)
    requires forall r | r in s.reqs :: s.reqs[r].body == body
    ensures forall r | r in RunAll(s, acts).reqs :: RunAll(s, acts).reqs[r].body == body
    decreases |acts|
  {
    if acts != [] {
      StepKeepsInv(s, acts[0]);
      BodiesAreKept(s, acts[0], body);
      BodiesComeFromArrivals(Apply(s, acts[0]), acts[1..], body);
    }
  }

  lemma BodiesAreKept(s: State, a: Action, body: Body)
    requires Inv(s) && Enabled(s, a) && (a.Arrive? ==> a.body == body)
    requires forall r | r in s.reqs :: s.reqs[r].body == body
    ensures forall r | r in Apply(s, a).reqs :: Apply(s, a).reqs[r].body == body
  {
    StepTouchesOneRequest(s, a);
  }

  /** The run that closes the pool without the lock: a completion that is no commit frame, then every recovery fails. */
  function BadRun(body: Body): seq<Action> {
    [Arrive(0, "session", "branch", body), Acquire(0), FirstSend(0, Dial(Written, true), []),
     Receive(0, Part(false, true, false)), StreamFails(0, true, Dial(Written, false), [], false), CloseStream(0)]
  }

  /** The state once the response of the bad run completed. */
  function BadState(body: Body): State {
    var q := Req("session", "branch", body, ZERO_DECISION, Streaming, 0, FreshWebSocket, false, true, None, true, false, 0);
    State(Some(0), Some(PooledStream(0, "session")), [Conn(true, [0], 1)], map[],
          [Entry(0, 0, None, InputOf(body), InputOf(body), [])], map[0 := q], 0)
  }

  /** The state once the bad request has the lock. */
  function BadAcquired(body: Body): State {
    INIT.(reqs := map[0 := BadState(body).reqs[0].(phase := Acquired, completed := false, failArmed := false)],
          holder := Some(0))
  }

  lemma BadRunAcquires(body: Body)
    requires FingerprintOf(body).None?
    ensures ValidRun(INIT, BadRun(body)[..2]) && RunAll(INIT, BadRun(body)[..2]) == BadAcquired(body)
  {
    var acts := BadRun(body)[..2];
    var s1 := Apply(INIT, acts[0]);
    assert s1 == INIT.(reqs := map[0 := BadAcquired(body).reqs[0].(phase := Arrived)]);
    var s2 := Apply(s1, acts[1]);
    assert s2.reqs == BadAcquired(body).reqs;
    assert s2 == BadAcquired(body);
    assert acts == [acts[0], acts[1]];
    TwoSteps(INIT, acts[0], acts[1]);
  }

  lemma TwoSteps(s: State, a: Action, b: Action)
    requires Sane(s) && Enabled(s, a) && Sane(Apply(s, a)) && Enabled(Apply(s, a), b)
    ensures ValidRun(s, [a, b]) && RunAll(s, [a, b]) == Apply(Apply(s, a), b)
  {
    assert [a, b][1..] == [b] && [b][1..] == [];
    var s1 := Apply(s, a);
    assert ValidRun(Apply(s1, b), []) && RunAll(Apply(s1, b), []) == Apply(s1, b);
    assert ValidRun(s1, [b]) && RunAll(s1, [b]) == Apply(s1, b);
  }

  lemma BadRunCompletes(body: Body)
    ensures ValidRun(BadAcquired(body), BadRun(body)[2..4]) && RunAll(BadAcquired(body), BadRun(body)[2..4]) == BadState(body)
  {
    var acts := BadRun(body)[2..4];
    var s3 := Apply(BadAcquired(body), acts[0]);
    assert |s3.conns| == 1 && s3.conns[0] == Conn(true, [] + [0], 0);
    assert [] + [0] == [0];
    assert s3.conns == [Conn(true, [0], 0)];
    assert s3.reqs == map[0 := BadState(body).reqs[0].(completed := false)];
    assert s3 == BadState(body).(conns := s3.conns, reqs := s3.reqs);
    var s4 := Apply(s3, acts[1]);
    assert s4.conns == BadState(body).conns && s4.reqs == BadState(body).reqs;
    assert acts == [acts[0], acts[1]];
    TwoSteps(BadAcquired(body), acts[0], acts[1]);
  }

  lemma BadRunEnds(body: Body)
    requires FingerprintOf(body).None?
    ensures ValidRun(BadState(body), BadRun(body)[4..]) && RunAll(BadState(body), BadRun(body)[4..]).unlockedCloses == 1
  {
    var acts := BadRun(body)[4..];
    var s4 := BadState(body);
    var s5 := Apply(s4, acts[0]);
    var q := s5.reqs[0];
    assert q.phase.Broken? && q.failArmed && q.releases == 1 && s5.holder.None? && s5.unlockedCloses == 0;
    var s6 := Apply(s5, acts[1]);
    assert s6.unlockedCloses == 1;
    assert acts == [acts[0], acts[1]];
    TwoSteps(s4, acts[0], acts[1]);
  }

  lemma {:induction false} RunsCompose(s: State, a: seq<Action>, b: seq<Action>)
    requires ValidRun(s, a) && ValidRun(RunAll(s, a), b)
    ensures ValidRun(s, a + b) && RunAll(s, a + b) == RunAll(RunAll(s, a), b)
    decreases |a|
  {
    if a == [] {
      assert a + b == b;
    } else {
      RunsCompose(Apply(s, a[0]), a[1..], b);
      assert (a + b)[1..] == a[1..] + b;
    }
  }

  lemma BadRunClosesUnlocked(body: Body)
    requires FingerprintOf(body).None?
    ensures ValidRun(INIT, BadRun(body)) && RunAll(INIT, BadRun(body)).unlockedCloses == 1
  {
    BadRunAcquires(body);
    BadRunCompletes(body);
    BadRunEnds(body);
    RunsCompose(BadAcquired(body), BadRun(body)[2..4], BadRun(body)[4..]);
    RunsCompose(INIT, BadRun(body)[..2], BadRun(body)[2..4] + BadRun(body)[4..]);
    assert BadRun(body)[..2] + (BadRun(body)[2..4] + BadRun(body)[4..]) == BadRun(body);
  }

  /**
   CloseLocked runs only under the lock in all runs with requests of this body if
   and only if the body has a fingerprint, that is, decodes to an object whose
   model is set and whose input is a list.
   */
  lemma CloseNeedsLockIff(body: Body)
    ensures (forall acts | ValidRun(INIT, acts) && OnlyBody(acts, body) :: RunAll(INIT, acts).unlockedCloses == 0)
            <==> FingerprintOf(body).Some?
  {
    if FingerprintOf(body).Some? {
      forall acts | ValidRun(INIT, acts) && OnlyBody(acts, body) ensures RunAll(INIT, acts).unlockedCloses == 0 {
        Reachable(acts);
        BodiesComeFromArrivals(INIT, acts, body);
      }
    } else {
      BadRunClosesUnlocked(body);
      assert OnlyBody(BadRun(body), body);
    }
  }

  /** In every run of the program, whose bodies are marshalled and mutated requests, CloseLocked runs only under the lock. */
  lemma ProgramClosesUnderLock(acts: seq<Action>)
    requires ValidRun(INIT, acts) && forall a | a in acts && a.Arrive? :: FromProgram(a.body)
    ensures RunAll(INIT, acts).unlockedCloses == 0
  {
    Reachable(acts);
    FingerprintsComeFromArrivals(INIT, acts);
  }

  lemma ProgramBodiesHaveFingerprints(body: Body)
    requires FromProgram(body)
    ensures FingerprintOf(body).Some?
  {
    var model, instructions, input, rest, strip :| body == MutatedBody(Body(model, instructions, input, rest), strip);
    MutatedBodiesHaveFingerprints(Body(model, instructions, input, rest), strip);
  }

  lemma {:induction false} FingerprintsComeFromArrivals(s: State, acts: seq<Action>)
    requires Inv(s) && ValidRun(s, acts) && forall a | a in acts && a.Arrive? :: FromProgram(a.body)
    requires forall r | r in s.reqs :: FingerprintOf(s.reqs[r].body).Some?
    ensures forall r | r in RunAll(s, acts).reqs :: FingerprintOf(RunAll(s, acts).reqs[r].body).Some?
    decreases |acts|
  {
    if acts != [] {
      assert acts[0] in acts && forall a | a in acts[1..] :: a in acts;
      StepKeepsInv(s, acts[0]);
      if acts[0].Arrive? {
        ProgramBodiesHaveFingerprints(acts[0].body);
      }
      FingerprintsAreKept(s, acts[0]);
      FingerprintsComeFromArrivals(Apply(s, acts[0]), acts[1..]);
    }
  }

  lemma FingerprintsAreKept(s: State, a: Action)
    requires Inv(s) && Enabled(s, a) && (a.Arrive? ==> FingerprintOf(a.body).Some?)
    requires forall r | r in s.reqs :: FingerprintOf(s.reqs[r].body).Some?
    ensures forall r | r in Apply(s, a).reqs :: FingerprintOf(Apply(s, a).reqs[r].body).Some?
  {
    StepTouchesOneRequest(s, a);
  }
}
