/**
 The continuation table of the Codex provider: what it remembers of the last
 response of a (session, branch), when it offers that response as a
 continuation, and what is then sent instead of the full input.

 A JSON input item is its canonical form, a role and the rest.  SHA-256 over a
 canonical form is the injective constructor `Digest`.  Response ids are
 positions in the server's log (module CodexProtocol), so they are fresh.
 */
module Continuation {
  import opened Wrappers

  const ASSISTANT := "assistant"

  datatype Item = Item(role: string, content: string)

  /** A request body: undecodable, or its model, instructions, input and remaining fields. */
  datatype Body = Undecodable | Body(model: string, instructions: string, input: seq<Item>, rest: string)

  datatype Digest<T> = NoDigest | Digest(of: T)

  datatype Fingerprint = Fingerprint(
    model: string,
    instructionHash: Digest<string>,
    inputLen: nat,
    inputHashes: seq<Digest<Item>>,
    fullBodyHash: Digest<Body>)

  datatype Key = Key(session: string, branch: string)

  datatype ContinuationState = ContinuationState(
    model: string,
    instructionHash: Digest<string>,
    lastInputLen: nat,
    lastInputHashes: seq<Digest<Item>>,
    lastFullBodyHash: Digest<Body>,
    lastResponseID: Option<nat>,
    turnState: string)

  type Table = map<Key, ContinuationState>

  datatype Commit = Commit(key: Key, fp: Fingerprint)

  datatype Decision = Decision(
    previousResponseID: Option<nat>,
    inputStart: nat,
    turnState: string,
    commit: Option<Commit>)

  /** What goes over the wire: the body and the previous response it continues. */
  datatype Outgoing = Outgoing(previous: Option<nat>, body: Body)

  const ZERO_STATE := ContinuationState("", NoDigest, 0, [], NoDigest, None, "")
  const ZERO_DECISION := Decision(None, 0, "", None)

  // ------------------------------------------------------------------
  // Specification functions
  // ------------------------------------------------------------------

  function Hashes(items: seq<Item>): seq<Digest<Item>> {
    seq(|items|, i requires 0 <= i < |items| => Digest(items[i]))
  }

  function FingerprintOf(body: Body): Option<Fingerprint> {
    if body.Undecodable? || body.model == "" then None
    else Some(Fingerprint(body.model, Digest(body.instructions), |body.input|, Hashes(body.input), Digest(body)))
  }

  function Lookup(table: Table, key: Key): ContinuationState {
    if key in table then table[key] else ZERO_STATE
  }

  /** The lineage test: the new body extends the remembered one and is not that very body. */
  predicate Continues(state: ContinuationState, fp: Fingerprint) {
    && state.lastResponseID.Some?
    && state.model == fp.model
    && state.instructionHash == fp.instructionHash
    && state.lastInputHashes <= fp.inputHashes
    && fp.fullBodyHash != state.lastFullBodyHash
  }

  function Prepared(table: Table, session: string, branch: string, body: Body): Decision {
    if session == "" || branch == "" || FingerprintOf(body).None? then ZERO_DECISION
    else
      var fp := FingerprintOf(body).value;
      var state := Lookup(table, Key(session, branch));
      Decision(if Continues(state, fp) then state.lastResponseID else None,
               state.lastInputLen, state.turnState, Some(Commit(Key(session, branch), fp)))
  }

  function Committed(table: Table, key: Key, fp: Fingerprint, id: Option<nat>, turnState: string): Table {
    if id.None? then table
    else table[key := ContinuationState(fp.model, fp.instructionHash, fp.inputLen, fp.inputHashes, fp.fullBodyHash, id,
                                        FirstNonEmpty(turnState, Lookup(table, key).turnState))]
  }

  function WithTurnState(table: Table, session: string, branch: string, turnState: string): Table {
    if session == "" || branch == "" || turnState == "" then table
    else table[Key(session, branch) := Lookup(table, Key(session, branch)).(turnState := turnState)]
  }

  function Invalidated(table: Table, session: string, branch: string): Table {
    if session == "" || branch == "" then table else table - {Key(session, branch)}
  }

  /** The items left once the leading assistant items are gone. */
  function DropLeadingAssistant(items: seq<Item>): seq<Item> {
    if items != [] && items[0].role == ASSISTANT then DropLeadingAssistant(items[1..]) else items
  }

  function Continued(body: Body, previous: Option<nat>, inputStart: nat): Outgoing {
    if previous.None? || body.Undecodable? then Outgoing(None, body)
    else if 0 < inputStart <= |body.input| then
      Outgoing(previous, body.(input := DropLeadingAssistant(body.input[inputStart..])))
    else Outgoing(previous, body)
  }

  // ------------------------------------------------------------------
  // The table in the source's own form
  // ------------------------------------------------------------------

  method HashItems(items: seq<Item>) returns (out: seq<Digest<Item>>)
    ensures out == Hashes(items)
  {
    out := [];
    for i := 0 to |items|
      invariant out == Hashes(items)[..i]
    {
      out := out + [Digest(items[i])];
    }
  }

  method HasInputPrefix(input: seq<Digest<Item>>, prefix: seq<Digest<Item>>) returns (ok: bool)
    ensures ok <==> prefix <= input
  {
    if |input| < |prefix| {
      return false;
    }
    for i := 0 to |prefix|
      invariant prefix[..i] == input[..i]
    {
      if input[i] != prefix[i] {
        return false;
      }
    }
    return true;
  }

  method WithPreviousResponseID(body: Body, previous: Option<nat>, inputStart: nat) returns (out: Outgoing)
    ensures out == Continued(body, previous, inputStart)
  {
    if previous.None? || body.Undecodable? {
      return Outgoing(None, body);
    }
    out := Outgoing(previous, body);
    if inputStart > 0 && inputStart <= |body.input| {
      var input := body.input[inputStart..];
      while |input| > 0 && input[0].role == ASSISTANT
        invariant DropLeadingAssistant(input) == DropLeadingAssistant(body.input[inputStart..])
      {
        input := input[1..];
      }
      out := Outgoing(previous, body.(input := input));
    }
  }

  class ContinuationManager {
    var states: Table

    constructor ()
      ensures states == map[]
    {
      states := map[];
    }

    method Prepare(session: string, branch: string, body: Body) returns (decision: Decision)
      ensures decision == Prepared(states, session, branch, body)
    {
      if session == "" || branch == "" {
        return ZERO_DECISION;
      }
      var fingerprint := TakeFingerprint(body);
      if fingerprint.None? {
        return ZERO_DECISION;
      }
      var fp := fingerprint.value;
      var key := Key(session, branch);
      var state := if key in states then states[key] else ZERO_STATE;
      var previous: Option<nat> := None;
      var prefixed := HasInputPrefix(fp.inputHashes, state.lastInputHashes);
      if state.lastResponseID.Some? && state.model == fp.model && state.instructionHash == fp.instructionHash
         && prefixed && fp.fullBodyHash != state.lastFullBodyHash {
        previous := state.lastResponseID;
      }
      decision := Decision(previous, state.lastInputLen, state.turnState, Some(Commit(key, fp)));
    }

    static method TakeFingerprint(body: Body) returns (fp: Option<Fingerprint>)
      ensures fp == FingerprintOf(body)
    {
      if body.Undecodable? || body.model == "" {
        return None;
      }
      var hashes := HashItems(body.input);
      fp := Some(Fingerprint(body.model, Digest(body.instructions), |body.input|, hashes, Digest(body)));
    }

    method CommitResponse(key: Key, fp: Fingerprint, responseID: Option<nat>, turnState: string)
      modifies this
      ensures states == Committed(old(states), key, fp, responseID, turnState)
    {
      if responseID.None? {
        return;
      }
      var state := if key in states then states[key] else ZERO_STATE;
      var turn := turnState;
      if turn == "" {
        turn := state.turnState;
      }
      states := states[key := ContinuationState(fp.model, fp.instructionHash, fp.inputLen, fp.inputHashes,
                                                fp.fullBodyHash, responseID, turn)];
    }

    method SetTurnState(session: string, branch: string, turnState: string)
      modifies this
      ensures states == WithTurnState(old(states), session, branch, turnState)
    {
      if session == "" || branch == "" || turnState == "" {
        return;
      }
      var key := Key(session, branch);
      var state := if key in states then states[key] else ZERO_STATE;
      state := state.(turnState := turnState);
      states := states[key := state];
    }

    method Invalidate(session: string, branch: string)
      modifies this
      ensures states == Invalidated(old(states), session, branch)
    {
      if session == "" || branch == "" {
        return;
      }
      states := states - {Key(session, branch)};
    }
  }

  // ------------------------------------------------------------------
  // What the specification functions mean
  // ------------------------------------------------------------------

  /** Items of the caller and of tools: everything but the assistant's own turns. */
  function CallerItems(items: seq<Item>): seq<Item> {
    if items == [] then []
    else (if items[0].role == ASSISTANT then [] else [items[0]]) + CallerItems(items[1..])
  }

  /** DropLeadingAssistant removes a run of assistant items from the front and nothing else. */
  lemma {:induction false} OnlyLeadingAssistantsDropped(items: seq<Item>, prefix: seq<Item>, rest: seq<Item>)
    requires items == prefix + rest
    requires forall x | x in prefix :: x.role == ASSISTANT
    requires rest != [] ==> rest[0].role != ASSISTANT
    ensures DropLeadingAssistant(items) == rest
  {
    if prefix == [] {
      assert items == rest;
    } else {
      assert items[0] == prefix[0];
      OnlyLeadingAssistantsDropped(items[1..], prefix[1..], rest);
    }
  }

  lemma {:induction false} CallerItemsConcat(a: seq<Item>, b: seq<Item>)
    ensures CallerItems(a + b) == CallerItems(a) + CallerItems(b)
  {
    if a == [] {
      assert a + b == b;
    } else {
      CallerItemsConcat(a[1..], b);
      assert (a + b)[1..] == a[1..] + b;
    }
  }

  lemma {:induction false} CallerItemsKept(items: seq<Item>)
    ensures CallerItems(DropLeadingAssistant(items)) == CallerItems(items)
  {
    if items != [] && items[0].role == ASSISTANT {
      CallerItemsKept(items[1..]);
    }
  }

  /** Equal digests come from equal items: the lineage test sees through the hashes. */
  lemma HashPrefixIsItemPrefix(old': seq<Item>, new': seq<Item>)
    ensures Hashes(old') <= Hashes(new') <==> old' <= new'
  {
    if Hashes(old') <= Hashes(new') {
      forall i | 0 <= i < |old'| ensures old'[i] == new'[i] {
        assert Hashes(old')[i] == Hashes(new')[i];
      }
    }
  }

  /** What a table entry says of the request whose response it remembers. */
  ghost predicate Remembers(state: ContinuationState, input: seq<Item>) {
    state.lastInputLen == |input| && state.lastInputHashes == Hashes(input)
  }

  /**
   A continuation is offered exactly when the remembered body agrees in model and
   instructions, its input is a prefix of the new input, and the bodies differ.
   Since digests are injective the digest of the whole body differs from the
   remembered one exactly when the bodies differ.
   */
  lemma OfferedExactlyForExtensions(table: Table, session: string, branch: string, last: Body, id: nat, body: Body)
    requires session != "" && branch != ""
    requires FingerprintOf(last).Some? && FingerprintOf(body).Some?
    ensures
      var key := Key(session, branch);
      var remembered := Committed(table, key, FingerprintOf(last).value, Some(id), "");
      var decision := Prepared(remembered, session, branch, body);
      && (decision.previousResponseID.Some? <==>
          last.model == body.model && last.instructions == body.instructions
          && last.input <= body.input && last != body)
      && (decision.previousResponseID.Some? ==>
          decision.previousResponseID == Some(id) && decision.inputStart == |last.input|)
  {
    HashPrefixIsItemPrefix(last.input, body.input);
  }

  /** Table operations on one key never change what another (session, branch) would be offered. */
  lemma BranchesAreIndependent(table: Table, key: Key, session: string, branch: string, body: Body,
                               fp: Fingerprint, id: Option<nat>, turnState: string)
    requires key != Key(session, branch)
    ensures Prepared(Committed(table, key, fp, id, turnState), session, branch, body) == Prepared(table, session, branch, body)
    ensures Prepared(WithTurnState(table, key.session, key.branch, turnState), session, branch, body) == Prepared(table, session, branch, body)
    ensures Prepared(Invalidated(table, key.session, key.branch), session, branch, body) == Prepared(table, session, branch, body)
  {
  }

  /** What is sent keeps every caller item past the remembered input, in order. */
  lemma ContinuedKeepsCallerItems(body: Body, last: seq<Item>, id: nat)
    requires body.Body? && last <= body.input
    ensures Continued(body, Some(id), |last|).body.Body?
    ensures CallerItems(last) + CallerItems(Continued(body, Some(id), |last|).body.input) == CallerItems(body.input)
  {
    var tail := body.input[|last|..];
    assert body.input == last + tail;
    if last != [] {
      CallerItemsConcat(last, tail);
      CallerItemsKept(tail);
    }
  }

  // ------------------------------------------------------------------
  // The table after any operations
  // ------------------------------------------------------------------

  /** An operation on the table: a response is committed, a handshake gives a turn state, a branch is forgotten. */
  datatype TableOp =
    | Commits(key: Key, fp: Fingerprint, id: Option<nat>, turnState: string)
    | Handshake(session: string, branch: string, turnState: string)
    | Forgets(session: string, branch: string)

  function ApplyOp(table: Table, op: TableOp): Table {
    match op
    case Commits(key, fp, id, turnState) => Committed(table, key, fp, id, turnState)
    case Handshake(session, branch, turnState) => WithTurnState(table, session, branch, turnState)
    case Forgets(session, branch) => Invalidated(table, session, branch)
  }

  function ApplyOps(table: Table, ops: seq<TableOp>): Table {
    if ops == [] then table else ApplyOp(ApplyOps(table, ops[..|ops| - 1]), ops[|ops| - 1])
  }

  /** Does the operation tell the branch a turn state? */
  predicate TellsTurn(op: TableOp, key: Key) {
    && !op.Forgets? && op.turnState != ""
    && ((op.Handshake? && Key(op.session, op.branch) == key) || (op.Commits? && op.key == key && op.id.Some?))
  }

  predicate ForgetsBranch(op: TableOp, key: Key) {
    op.Forgets? && Key(op.session, op.branch) == key
  }

  predicate CommitsTo(op: TableOp, key: Key) {
    op.Commits? && op.key == key && op.id.Some?
  }

  /** Operation k is the last of its kind, and the branch was not forgotten after it. */
  ghost predicate LastTurn(ops: seq<TableOp>, key: Key, k: nat) {
    && k < |ops| && TellsTurn(ops[k], key)
    && forall j | k < j < |ops| :: !ForgetsBranch(ops[j], key) && !TellsTurn(ops[j], key)
  }

  ghost predicate LastCommit(ops: seq<TableOp>, key: Key, k: nat) {
    && k < |ops| && CommitsTo(ops[k], key)
    && forall j | k < j < |ops| :: !ForgetsBranch(ops[j], key) && !CommitsTo(ops[j], key)
  }

  lemma {:induction false} TurnStateKept(ops: seq<TableOp>, key: Key, k: nat)
    requires key.session != "" && key.branch != "" && LastTurn(ops, key, k)
    ensures Lookup(ApplyOps(map[], ops), key).turnState == ops[k].turnState
  {
    var last := ops[|ops| - 1];
    if k < |ops| - 1 {
      var front := ops[..|ops| - 1];
      assert LastTurn(front, key, k) by {
        assert forall j | 0 <= j < |front| :: front[j] == ops[j];
      }
      TurnStateKept(front, key, k);
    }
  }

  lemma {:induction false} NoTurnStateLeft(ops: seq<TableOp>, key: Key)
    requires key.session != "" && key.branch != "" && forall k: nat :: !LastTurn(ops, key, k)
    ensures Lookup(ApplyOps(map[], ops), key).turnState == ""
  {
    if ops != [] {
      var front, last := ops[..|ops| - 1], ops[|ops| - 1];
      assert !LastTurn(ops, key, |ops| - 1);
      if !ForgetsBranch(last, key) {
        forall k: nat ensures !LastTurn(front, key, k) {
          if LastTurn(front, key, k) {
            assert forall j | 0 <= j < |front| :: front[j] == ops[j];
            assert LastTurn(ops, key, k);
          }
        }
        NoTurnStateLeft(front, key);
      }
    }
  }

  /**
   After any operations a request of a branch is given the turn state told last since the
   branch was forgotten, by a handshake or a commit, commits that tell none included; and
   none if none was told.
   */
  lemma TurnStateIsTheLastTold(ops: seq<TableOp>, session: string, branch: string, body: Body)
    requires session != "" && branch != "" && FingerprintOf(body).Some?
    ensures
      var given := Prepared(ApplyOps(map[], ops), session, branch, body).turnState;
      && (forall k: nat | LastTurn(ops, Key(session, branch), k) :: given == ops[k].turnState)
      && (given == "" <==> forall k: nat :: !LastTurn(ops, Key(session, branch), k))
  {
    var key := Key(session, branch);
    forall k: nat | LastTurn(ops, key, k)
      ensures Lookup(ApplyOps(map[], ops), key).turnState == ops[k].turnState && ops[k].turnState != ""
    {
      TurnStateKept(ops, key, k);
    }
    if forall k: nat :: !LastTurn(ops, key, k) {
      NoTurnStateLeft(ops, key);
    }
  }

  lemma {:induction false} CommitKept(ops: seq<TableOp>, key: Key, k: nat)
    requires key.session != "" && key.branch != "" && LastCommit(ops, key, k)
    ensures
      var state := Lookup(ApplyOps(map[], ops), key);
      state.(turnState := "") == Lookup(Committed(map[], key, ops[k].fp, ops[k].id, ""), key)
  {
    if k < |ops| - 1 {
      var front := ops[..|ops| - 1];
      assert LastCommit(front, key, k) by {
        assert forall j | 0 <= j < |front| :: front[j] == ops[j];
      }
      CommitKept(front, key, k);
    }
  }

  lemma {:induction false} NoCommitLeft(ops: seq<TableOp>, key: Key)
    requires key.session != "" && key.branch != "" && forall k: nat :: !LastCommit(ops, key, k)
    ensures Lookup(ApplyOps(map[], ops), key).lastResponseID.None?
  {
    if ops != [] {
      var front, last := ops[..|ops| - 1], ops[|ops| - 1];
      assert !LastCommit(ops, key, |ops| - 1);
      if !ForgetsBranch(last, key) {
        forall k: nat ensures !LastCommit(front, key, k) {
          if LastCommit(front, key, k) {
            assert forall j | 0 <= j < |front| :: front[j] == ops[j];
            assert LastCommit(ops, key, k);
          }
        }
        NoCommitLeft(front, key);
      }
    }
  }

  /**
   After any operations a continuation is offered exactly of the response committed last
   since the branch was forgotten, and to just those bodies that extend its request.
   */
  lemma OfferIsTheLastCommitted(ops: seq<TableOp>, session: string, branch: string, body: Body)
    requires session != "" && branch != "" && FingerprintOf(body).Some?
    ensures
      var offered := Prepared(ApplyOps(map[], ops), session, branch, body).previousResponseID;
      && (forall k: nat, last | LastCommit(ops, Key(session, branch), k) && FingerprintOf(last) == Some(ops[k].fp) ::
            offered == if last.Body? && last.model == body.model && last.instructions == body.instructions
                          && last.input <= body.input && last != body then ops[k].id else None)
      && ((forall k: nat :: !LastCommit(ops, Key(session, branch), k)) ==> offered.None?)
  {
    var key := Key(session, branch);
    var offered := Prepared(ApplyOps(map[], ops), session, branch, body).previousResponseID;
    forall k: nat, last | LastCommit(ops, key, k) && FingerprintOf(last) == Some(ops[k].fp)
      ensures offered == if last.Body? && last.model == body.model && last.instructions == body.instructions
                            && last.input <= body.input && last != body then ops[k].id else None
    {
      CommitKept(ops, key, k);
      OfferedExactlyForExtensions(map[], session, branch, last, ops[k].id.value, body);
    }
    if forall k: nat :: !LastCommit(ops, key, k) {
      NoCommitLeft(ops, key);
    }
  }
}
