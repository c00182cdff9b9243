/** What a reader of FallbackStream sees from the first call of Recv to the first error. */
module FallbackTheorems {
  import opened RecoveryStages
  import opened Wrappers
  import opened FallbackStream

  /** g comes after f: fewer recoveries left, or else less to deliver. */
  ghost predicate After(f: Fields, g: Fields) {
    (StagesLeft(f.stage), |f.pending|, !f.sentMetadata, |f.preface|, |f.buffered|
     decreases to StagesLeft(g.stage), |g.pending|, !g.sentMetadata, |g.preface|, |g.buffered|)
  }

  lemma RecvMakesProgress(f: Fields, net: Network)
    ensures var (g, answer) := Recv(f, net); answer.Delivered? ==> After(f, g)
    ensures StagesLeft(Recv(f, net).0.stage) <= StagesLeft(f.stage)
    decreases StagesLeft(f.stage), |f.pending|
  {
    match LoopTurn(f, net)
    case Again(g) => RecvMakesProgress(g, net);
    case Answered(_, _) =>
  }

  /** Everything Recv returns up to its first error. */
  datatype Reading = Reading(delivered: seq<Delivery>, ending: Failure)

  function Drain(f: Fields, net: Network): Reading
    decreases StagesLeft(f.stage), |f.pending|, !f.sentMetadata, |f.preface|, |f.buffered|
  {
    RecvMakesProgress(f, net);
    var (g, answer) := Recv(f, net);
    match answer
    case Error(failure) => Reading([], failure)
    case Delivered(d) =>
      var rest := Drain(g, net);
      Reading([d] + rest.delivered, rest.ending)
  }

  // ------------------------------------------------------------------
  // The transcript, without buffers or flags
  // ------------------------------------------------------------------

  /** What passes before anything visible, and what follows once something visible is let through. */
  datatype Transcript = Transcript(early: seq<Delivery>, late: seq<Delivery>) {
    function All(): seq<Delivery> { early + late }
  }

  function Before(d: Delivery, t: Transcript): Transcript {
    Transcript([d] + t.early, t.late)
  }

  function Prefaces(frames: seq<Frame>): seq<Delivery> {
    seq(|frames|, i requires 0 <= i < |frames| => Preface(frames[i]))
  }

  /** The frames of one source up to its first failure. */
  function Visible(origin: nat, outcomes: seq<Outcome>): seq<Delivery> {
    if outcomes == [] || outcomes[0].Failed? then []
    else [Content(origin, outcomes[0].frame)] + Visible(origin, outcomes[1..])
  }

  /** How a source ends: its first failure, or end of file. */
  function EndOf(outcomes: seq<Outcome>): Failure {
    match Next(outcomes)
    case Failed(failure) => failure
    case Got(_) => EndOf(outcomes[1..])
  }

  /** Does a source deliver a commit frame before it ends? */
  predicate Commits(outcomes: seq<Outcome>) {
    outcomes != [] && outcomes[0].Got? && (IsCommit(outcomes[0].frame.ftype) || Commits(outcomes[1..]))
  }

  /**
   How the stream ends: as its websocket does once that has committed, or when it fails
   in another way; otherwise as the recovery that is left.  When no recovery opens, all
   the failures are joined.
   */
  function Ending(outcomes: seq<Outcome>, stage: Stage, net: Network): Failure
    decreases StagesLeft(stage)
  {
    var end := EndOf(outcomes);
    if Commits(outcomes) || !Recoverable(end) then end
    else
      match stage
      case FreshWebSocket =>
        if net.redial.Connects? then Ending(net.redial.value.outcomes, HttpSse, net)
        else EndingOverHttp(Joined(end, net.redial.failure), net)
      case HttpSse => EndingOverHttp(end, net)
      case RecoveryDone => end
  }

  function EndingOverHttp(cause: Failure, net: Network): Failure {
    match net.http
    case Connects(outcomes) => EndOf(outcomes)
    case Refused(failure) => Joined(cause, failure)
  }

  /** A websocket that has shown nothing visible yet. */
  function Held(origin: nat, outcomes: seq<Outcome>, stage: Stage, metadata: Metadata, preface: seq<Frame>, net: Network): Transcript
    decreases StagesLeft(stage), |outcomes|
  {
    match Next(outcomes)
    case Failed(failure) =>
      if !Recoverable(failure) then Transcript([], [])
      else if stage.FreshWebSocket? && net.redial.Connects? then
        Held(1, net.redial.value.outcomes, HttpSse, Metadata(WebSocket, false), net.redial.value.preface, net)
      else if !stage.RecoveryDone? && net.http.Connects? then
        Transcript([], [Meta(Metadata(Http, false))] + Visible(2, net.http.value))
      else Transcript([], [])
    case Got(frame) =>
      if IsIgnorable(frame.ftype) then Held(origin, outcomes[1..], stage, metadata, preface, net)
      else if IsCommit(frame.ftype) then
        Transcript([], [Meta(metadata)] + Prefaces(preface) + [Content(origin, frame)] + Visible(origin, outcomes[1..]))
      else Before(Content(origin, frame), Held(origin, outcomes[1..], stage, metadata, preface, net))
  }

  /** What a stream that has started still delivers. */
  function Remaining(f: Fields): seq<Delivery>
    requires |f.buffered| <= 1
  {
    (if f.sentMetadata then [] else [Meta(f.metadata)]) + Prefaces(f.preface)
    + (if f.buffered == [] then [] else [Content(f.origin, f.buffered[0])]) + Visible(f.origin, f.pending)
  }

  lemma PrefaceFirst(frames: seq<Frame>)
    requires frames != []
    ensures Prefaces(frames) == [Preface(frames[0])] + Prefaces(frames[1..])
  {
  }

  /** A started stream answers at once, with the head of what remains. */
  lemma StartedTurn(f: Fields, net: Network)
    requires f.started && |f.buffered| <= 1
    ensures LoopTurn(f, net).Answered?
    ensures
      var t := LoopTurn(f, net);
      match t.answer
      case Error(failure) => Remaining(f) == [] && failure == EndOf(f.pending)
      case Delivered(d) =>
        && t.fields.started && |t.fields.buffered| <= 1 && EndOf(t.fields.pending) == EndOf(f.pending)
        && Remaining(f) == [d] + Remaining(t.fields)
  {
    var g := LoopTurn(f, net).fields;
    if !f.sentMetadata {
      SplitHead([Meta(f.metadata)], Prefaces(f.preface), Visible(f.origin, f.pending), f.buffered, f.origin);
    } else if f.preface != [] {
      PrefaceFirst(f.preface);
    }
  }

  lemma SplitHead(head: seq<Delivery>, middle: seq<Delivery>, last: seq<Delivery>, buffered: seq<Frame>, origin: nat)
    requires |buffered| <= 1
    ensures
      var held := if buffered == [] then [] else [Content(origin, buffered[0])];
      head + middle + held + last == head + ([] + middle + held + last)
  {
  }

  lemma {:induction false} DrainWhenStarted(f: Fields, net: Network)
    requires f.started && |f.buffered| <= 1
    ensures Drain(f, net) == Reading(Remaining(f), EndOf(f.pending))
    decreases !f.sentMetadata, |f.preface|, |f.buffered|, |f.pending|
  {
    StartedTurn(f, net);
    var (g, answer) := Recv(f, net);
    assert Answered(g, answer) == LoopTurn(f, net);
    if answer.Delivered? {
      DrainWhenStarted(g, net);
    }
  }

  /** A stream that has shown nothing visible and holds nothing back. */
  predicate NothingShown(f: Fields) {
    !f.started && !f.sentMetadata && f.buffered == []
  }

  lemma GoesOn(f: Fields, net: Network)
    requires LoopTurn(f, net).Again?
    ensures Drain(f, net) == Drain(LoopTurn(f, net).fields, net)
  {
    assert Recv(f, net) == Recv(LoopTurn(f, net).fields, net);
  }

  /** A frame that is neither ignored nor a commit frame passes at once. */
  lemma PassesFrame(f: Fields, net: Network)
    requires NothingShown(f) && Next(f.pending).Got?
    requires var t := Next(f.pending).frame.ftype; !IsIgnorable(t) && !IsCommit(t)
    ensures
      var rest := Drain(f.(pending := Rest(f.pending)), net);
      Drain(f, net) == Reading([Content(f.origin, Next(f.pending).frame)] + rest.delivered, rest.ending)
  {
    GoesOn(f, net);
    var g, h := f.(pending := Rest(f.pending)), LoopTurn(f, net).fields;
    assert LoopTurn(h, net) == Answered(h.(buffered := []), Delivered(Content(f.origin, Next(f.pending).frame)));
    assert h.(buffered := []) == g;
  }

  /** A commit frame lets through what was held back. */
  lemma CommitFrame(f: Fields, net: Network)
    requires NothingShown(f) && Next(f.pending).Got? && IsCommit(Next(f.pending).frame.ftype)
    ensures
      var frame, rest := Next(f.pending).frame, Rest(f.pending);
      Drain(f, net) == Reading([Meta(f.metadata)] + Prefaces(f.preface) + [Content(f.origin, frame)] + Visible(f.origin, rest),
                               EndOf(f.pending))
  {
    CommitsAreNotIgnorable(Next(f.pending).frame.ftype);
    GoesOn(f, net);
    DrainWhenStarted(LoopTurn(f, net).fields, net);
  }

  predicate Spells(t: string) {
    && |t| >= 9 && t[0] == 'r' && t[1] == 'e' && t[2] == 's' && t[3] == 'p' && t[4] == 'o' && t[5] == 'n' && t[6] == 's'
    && t[7] == 'e' && t[8] == '.'
  }

  lemma ResponsesAreNotIgnorable(t: string)
    requires Spells(t)
    ensures !IsIgnorable(t)
  {
    assert "response." == t[..9];
  }

  lemma DeltasSpell()
    ensures Spells("response.output_text.delta") && Spells("response.function_call_arguments.delta")
  {
  }

  lemma EndsSpell()
    ensures Spells("response.done") && Spells("response.completed")
  {
  }

  lemma CommitsAreNotIgnorable(t: string)
    requires IsCommit(t)
    ensures !IsIgnorable(t)
  {
    DeltasSpell();
    EndsSpell();
    ResponsesAreNotIgnorable(t);
  }

  /** After recovery over HTTP nothing is held back. */
  lemma HttpDrains(f: Fields, cause: Failure, net: Network)
    requires net.http.Connects?
    ensures
      var h := RecoverHttp(f, cause, net);
      && h.Recovered?
      && Drain(h.fields, net) == Reading([Meta(Metadata(Http, false))] + Visible(2, net.http.value), EndOf(net.http.value))
  {
    DrainWhenStarted(RecoverHttp(f, cause, net).fields, net);
  }

  lemma Joins(d: Delivery, t: Transcript, late: seq<Delivery>)
    ensures Before(d, t).All() == [d] + t.All() && Transcript([], late).All() == late
  {
  }

  lemma EndsAtOnce(f: Fields, net: Network)
    requires LoopTurn(f, net).Answered? && LoopTurn(f, net).answer.Error?
    ensures Drain(f, net) == Reading([], LoopTurn(f, net).answer.failure)
  {
    assert Recv(f, net) == (LoopTurn(f, net).fields, LoopTurn(f, net).answer);
  }

  /** The reading loop with its buffer and flags delivers the transcript. */
  lemma {:induction false} DrainIsTranscript(f: Fields, net: Network)
    requires NothingShown(f)
    ensures Drain(f, net).delivered == Held(f.origin, f.pending, f.stage, f.metadata, f.preface, net).All()
    decreases StagesLeft(f.stage), |f.pending|
  {
    match Next(f.pending)
    case Failed(failure) =>
      if LoopTurn(f, net).Answered? {
        EndsAtOnce(f, net);
      } else {
        GoesOn(f, net);
        var h := LoopTurn(f, net).fields;
        if h.started {
          HttpDrains(f, failure, net);
          Joins(Meta(f.metadata), Transcript([], []), [Meta(Metadata(Http, false))] + Visible(2, net.http.value));
        } else {
          DrainIsTranscript(h, net);
        }
      }
    case Got(frame) =>
      if IsCommit(frame.ftype) {
        CommitsAreNotIgnorable(frame.ftype);
        CommitFrame(f, net);
      } else {
        if IsIgnorable(frame.ftype) {
          GoesOn(f, net);
        } else {
          PassesFrame(f, net);
          Joins(Content(f.origin, frame), Held(f.origin, Rest(f.pending), f.stage, f.metadata, f.preface, net), []);
        }
        DrainIsTranscript(f.(pending := Rest(f.pending)), net);
      }
  }

  /** And it ends with the failure the sources and recoveries decide, and no other. */
  lemma {:induction false} DrainEnds(f: Fields, net: Network)
    requires NothingShown(f)
    ensures Drain(f, net).ending == Ending(f.pending, f.stage, net)
    decreases StagesLeft(f.stage), |f.pending|
  {
    match Next(f.pending)
    case Failed(failure) =>
      if LoopTurn(f, net).Answered? {
        EndsAtOnce(f, net);
      } else {
        GoesOn(f, net);
        var h := LoopTurn(f, net).fields;
        if h.started {
          HttpDrains(f, failure, net);
        } else {
          DrainEnds(h, net);
        }
      }
    case Got(frame) =>
      if IsCommit(frame.ftype) {
        CommitFrame(f, net);
      } else {
        if IsIgnorable(frame.ftype) {
          GoesOn(f, net);
        } else {
          PassesFrame(f, net);
        }
        DrainEnds(f.(pending := Rest(f.pending)), net);
      }
  }

  // ------------------------------------------------------------------
  // What a transcript looks like
  // ------------------------------------------------------------------

  ghost predicate EarlyOk(early: seq<Delivery>) {
    forall i | 0 <= i < |early| ::
      early[i].Content? && !IsCommit(early[i].frame.ftype) && !IsIgnorable(early[i].frame.ftype)
  }

  /** One metadata frame, then quota frames, then frames of source `origin` only. */
  ghost predicate LateOk(late: seq<Delivery>, origin: nat) {
    late != [] ==>
      && late[0].Meta?
      && (forall i | 1 <= i < |late| :: late[i].Preface? || (late[i].Content? && late[i].origin == origin))
  }

  /** The source whose frames make up the late part. */
  function Winner(origin: nat, outcomes: seq<Outcome>, stage: Stage, net: Network): nat
    decreases StagesLeft(stage), |outcomes|
  {
    match Next(outcomes)
    case Failed(failure) =>
      if Recoverable(failure) && stage.FreshWebSocket? && net.redial.Connects? then Winner(1, net.redial.value.outcomes, HttpSse, net)
      else 2
    case Got(frame) => if IsCommit(frame.ftype) then origin else Winner(origin, outcomes[1..], stage, net)
  }

  lemma {:induction false} VisibleIsOneSource(origin: nat, outcomes: seq<Outcome>)
    ensures forall i | 0 <= i < |Visible(origin, outcomes)| ::
      Visible(origin, outcomes)[i].Content? && Visible(origin, outcomes)[i].origin == origin
  {
    if outcomes != [] && outcomes[0].Got? {
      VisibleIsOneSource(origin, outcomes[1..]);
    }
  }

  lemma {:induction false} TranscriptShape(origin: nat, outcomes: seq<Outcome>, stage: Stage, metadata: Metadata,
                                           preface: seq<Frame>, net: Network)
    ensures
      var t := Held(origin, outcomes, stage, metadata, preface, net);
      EarlyOk(t.early) && LateOk(t.late, Winner(origin, outcomes, stage, net))
    decreases StagesLeft(stage), |outcomes|
  {
    match Next(outcomes)
    case Failed(failure) =>
      if Recoverable(failure) {
        if stage.FreshWebSocket? && net.redial.Connects? {
          TranscriptShape(1, net.redial.value.outcomes, HttpSse, Metadata(WebSocket, false), net.redial.value.preface, net);
        } else if net.http.Connects? {
          VisibleIsOneSource(2, net.http.value);
        }
      }
    case Got(frame) =>
      if IsCommit(frame.ftype) {
        VisibleIsOneSource(origin, outcomes[1..]);
      } else {
        TranscriptShape(origin, outcomes[1..], stage, metadata, preface, net);
      }
  }

  /** The whole run of a stream opened on `source`. */
  function Run(source: Source, stage: Stage, metadata: Metadata, net: Network): seq<Delivery> {
    Drain(Opened(source, stage, metadata), net).delivered
  }

  /** Every delivery from index i on that is a frame of a source comes from the same source as delivery i. */
  ghost predicate SettledFrom(run: seq<Delivery>, i: nat)
    requires i < |run| && run[i].Content?
  {
    forall j | i <= j < |run| :: !run[j].Meta? && (run[j].Content? ==> run[j].origin == run[i].origin)
  }

  /**
   Once a commit frame was delivered the stream is never replaced, all commit
   frames come from one source, and metadata is delivered exactly once, before them.
   */
  lemma CommitFramesSettleTheStream(source: Source, stage: Stage, metadata: Metadata, net: Network, i: nat)
    requires i < |Run(source, stage, metadata, net)|
    requires var d := Run(source, stage, metadata, net)[i]; d.Content? && IsCommit(d.frame.ftype)
    ensures
      var run := Run(source, stage, metadata, net);
      && SettledFrom(run, i)
      && (forall j | 0 <= j < |run| && run[j].Content? && IsCommit(run[j].frame.ftype) :: run[j].origin == run[i].origin)
      && (exists m | 0 <= m < i :: run[m].Meta? && forall j | 0 <= j < |run| && run[j].Meta? :: j == m)
  {
    DrainIsTranscript(Opened(source, stage, metadata), net);
    TranscriptShape(0, source.outcomes, stage, metadata, source.preface, net);
    var t := Held(0, source.outcomes, stage, metadata, source.preface, net);
    var run := t.All();
    assert |t.early| <= i;
    forall j | 0 <= j < |run| && run[j].Meta? ensures j == |t.early| {
      if j >= |t.early| {
        assert run[j] == t.late[j - |t.early|];
      }
    }
    assert run[|t.early|] == t.late[0];
    forall j | 0 <= j < |run| && run[j].Content? && j >= |t.early|
      ensures run[j].origin == Winner(0, source.outcomes, stage, net)
    {
      assert run[j] == t.late[j - |t.early|];
    }
  }

  // ------------------------------------------------------------------
  // How a run ends
  // ------------------------------------------------------------------

  /** The error a stream opened on `source` ends with. */
  function FinalError(source: Source, stage: Stage, metadata: Metadata, net: Network): Failure {
    Drain(Opened(source, stage, metadata), net).ending
  }

  /** How source number `origin` of a run ends. */
  function EndOfSource(source: Source, net: Network, origin: nat): Failure {
    if origin == 0 then EndOf(source.outcomes)
    else if origin == 1 && net.redial.Connects? then EndOf(net.redial.value.outcomes)
    else if net.http.Connects? then EndOf(net.http.value)
    else Eof
  }

  lemma {:induction false} WinnerDecides(source: Source, origin: nat, outcomes: seq<Outcome>, stage: Stage, metadata: Metadata,
                                         preface: seq<Frame>, net: Network)
    requires EndOf(outcomes) == EndOfSource(source, net, origin) && origin <= 1
    requires Held(origin, outcomes, stage, metadata, preface, net).late != []
    ensures Ending(outcomes, stage, net) == EndOfSource(source, net, Winner(origin, outcomes, stage, net))
    decreases StagesLeft(stage), |outcomes|
  {
    match Next(outcomes)
    case Failed(failure) =>
      if stage.FreshWebSocket? && net.redial.Connects? {
        WinnerDecides(source, 1, net.redial.value.outcomes, HttpSse, Metadata(WebSocket, false), net.redial.value.preface, net);
      }
    case Got(frame) =>
      if IsCommit(frame.ftype) {
        CommitsAreNotIgnorable(frame.ftype);
      } else {
        WinnerDecides(source, origin, outcomes[1..], stage, metadata, preface, net);
      }
  }

  /**
   Once the stream has delivered metadata, and so before anything visible, it ends as
   the source ends that the frames after the metadata come from.
   */
  lemma CommittedStreamsEndAsTheirSource(source: Source, stage: Stage, metadata: Metadata, net: Network, m: nat)
    requires m < |Run(source, stage, metadata, net)| && Run(source, stage, metadata, net)[m].Meta?
    ensures exists origin: nat ::
      && FinalError(source, stage, metadata, net) == EndOfSource(source, net, origin)
      && forall j | m < j < |Run(source, stage, metadata, net)| :: EndsWith(Run(source, stage, metadata, net)[j], origin)
  {
    DrainIsTranscript(Opened(source, stage, metadata), net);
    DrainEnds(Opened(source, stage, metadata), net);
    TranscriptShape(0, source.outcomes, stage, metadata, source.preface, net);
    var t := Held(0, source.outcomes, stage, metadata, source.preface, net);
    var run := t.All();
    assert |t.early| <= m;
    WinnerDecides(source, 0, source.outcomes, stage, metadata, source.preface, net);
    var origin := Winner(0, source.outcomes, stage, net);
    forall j | m < j < |run| ensures EndsWith(run[j], origin) {
      assert run[j] == t.late[j - |t.early|];
    }
  }

  /** The delivery is a frame of this source, or a quota frame of its handshake. */
  predicate EndsWith(d: Delivery, origin: nat) {
    d.Preface? || (d.Content? && d.origin == origin)
  }

  /** Frames, and then a failure. */
  function Delivering(frames: seq<Frame>, failure: Failure): seq<Outcome> {
    if frames == [] then [Failed(failure)] else [Got(frames[0])] + Delivering(frames[1..], failure)
  }

  lemma {:induction false} DeliveringEnds(frames: seq<Frame>, failure: Failure)
    ensures EndOf(Delivering(frames, failure)) == failure
    ensures Commits(Delivering(frames, failure)) <==> exists i | 0 <= i < |frames| :: IsCommit(frames[i].ftype)
  {
    if frames != [] {
      var rest := Delivering(frames[1..], failure);
      assert Delivering(frames, failure)[1..] == rest;
      DeliveringEnds(frames[1..], failure);
      if Commits(rest) {
        var i :| 0 <= i < |frames[1..]| && IsCommit(frames[1..][i].ftype);
        assert frames[1..][i] == frames[i + 1];
      }
      if i :| 0 <= i < |frames| && IsCommit(frames[i].ftype) {
        assert i == 0 || frames[i] == frames[1..][i - 1];
      }
    }
  }

  /**
   A websocket that has committed and breaks is seen as broken, unless the connection
   reports io.EOF and the response was complete or, which hides the break, text of an
   incomplete JSON event was left.
   */
  lemma BreaksAreHiddenIff(frames: seq<Frame>, failure: Failure, completed: bool, leftover: bool, preface: seq<Frame>,
                           stage: Stage, metadata: Metadata, net: Network, i: nat)
    requires i < |frames| && IsCommit(frames[i].ftype)
    ensures
      var source := Source(preface, Delivering(frames, Reported(failure, completed, leftover)));
      IsEof(FinalError(source, stage, metadata, net)) <==> IsEof(failure) && (completed || leftover)
  {
    var end := Reported(failure, completed, leftover);
    DeliveringEnds(frames, end);
    DrainEnds(Opened(Source(preface, Delivering(frames, end)), stage, metadata), net);
  }

  /** When no recovery opens, the error has the failure of the last websocket in it, and that of each recovery tried. */
  predicate Has(f: Failure, part: Failure) {
    f == part || (f.Joined? && (Has(f.first, part) || Has(f.second, part)))
  }

  /** Nothing committed and nothing opened: no failure of the way there is lost. */
  lemma UnrecoveredErrorsHaveAllCauses(source: Source, stage: Stage, metadata: Metadata, net: Network)
    requires !Commits(source.outcomes) && Recoverable(EndOf(source.outcomes))
    requires net.redial.Refused? && net.http.Refused?
    ensures
      var error := FinalError(source, stage, metadata, net);
      && Has(error, EndOf(source.outcomes))
      && (stage.FreshWebSocket? ==> Has(error, net.redial.failure))
      && (!stage.RecoveryDone? ==> Has(error, net.http.failure))
  {
    DrainEnds(Opened(source, stage, metadata), net);
  }

  /** Sources are delivered in the order they were opened, from `lo` on, and never more than three of them. */
  ghost predicate InOrder(run: seq<Delivery>, lo: nat) {
    && (forall i | 0 <= i < |run| && run[i].Content? :: lo <= run[i].origin <= 2)
    && (forall i, j | 0 <= i < j < |run| && run[i].Content? && run[j].Content? :: run[i].origin <= run[j].origin)
  }

  lemma InOrderCons(d: Delivery, rest: seq<Delivery>, lo: nat)
    requires InOrder(rest, lo) && d.Content? && d.origin == lo <= 2
    ensures InOrder([d] + rest, lo)
  {
    var run := [d] + rest;
    forall i | 0 <= i < |run| && run[i].Content? ensures lo <= run[i].origin <= 2 {
      assert i > 0 ==> run[i] == rest[i - 1];
    }
    forall i, j | 0 <= i < j < |run| && run[i].Content? && run[j].Content? ensures run[i].origin <= run[j].origin {
      assert run[j] == rest[j - 1];
      assert i > 0 ==> run[i] == rest[i - 1];
    }
  }

  lemma InOrderBefore(d: Delivery, t: Transcript, lo: nat)
    requires InOrder(t.All(), lo) && d.Content? && d.origin == lo <= 2
    ensures InOrder(Before(d, t).All(), lo)
  {
    Joins(d, t, []);
    InOrderCons(d, t.All(), lo);
  }

  lemma LateInOrder(late: seq<Delivery>, origin: nat, lo: nat)
    requires LateOk(late, origin) && lo <= origin <= 2
    ensures InOrder(late, lo)
  {
  }

  /** There are at most as many sources after the first as recoveries are left. */
  lemma {:induction false} AtMostTwoRecoveries(origin: nat, outcomes: seq<Outcome>, stage: Stage, metadata: Metadata,
                                               preface: seq<Frame>, net: Network)
    requires origin + StagesLeft(stage) <= 2
    ensures InOrder(Held(origin, outcomes, stage, metadata, preface, net).All(), origin)
    decreases StagesLeft(stage), |outcomes|
  {
    var t := Held(origin, outcomes, stage, metadata, preface, net);
    TranscriptShape(origin, outcomes, stage, metadata, preface, net);
    match Next(outcomes)
    case Failed(failure) =>
      if Recoverable(failure) && stage.FreshWebSocket? && net.redial.Connects? {
        assert t == Held(1, net.redial.value.outcomes, HttpSse, Metadata(WebSocket, false), net.redial.value.preface, net);
        AtMostTwoRecoveries(1, net.redial.value.outcomes, HttpSse, Metadata(WebSocket, false), net.redial.value.preface, net);
      } else {
        assert t.All() == t.late;
        LateInOrder(t.late, 2, origin);
      }
    case Got(frame) =>
      if IsCommit(frame.ftype) {
        assert t.All() == t.late;
        LateInOrder(t.late, origin, origin);
      } else {
        AtMostTwoRecoveries(origin, outcomes[1..], stage, metadata, preface, net);
        InOrderBefore(Content(origin, frame), Held(origin, outcomes[1..], stage, metadata, preface, net), origin);
      }
  }

  // ------------------------------------------------------------------
  // Exactly which frames come from one stream
  // ------------------------------------------------------------------

  /** The delivered frames whose type is in `types` all come from one source. */
  ghost predicate OneSource(run: seq<Delivery>, types: set<string>) {
    forall i, j | 0 <= i < |run| && 0 <= j < |run| && run[i].Content? && run[j].Content?
                  && run[i].frame.ftype in types && run[j].frame.ftype in types :: run[i].origin == run[j].origin
  }

  ghost predicate AlwaysOneSource(types: set<string>) {
    forall source, stage, metadata, net :: OneSource(Run(source, stage, metadata, net), types)
  }

  lemma HeldTypesAreFromOneSource(source: Source, stage: Stage, metadata: Metadata, net: Network, types: set<string>)
    requires forall t | t in types :: IsCommit(t) || IsIgnorable(t)
    ensures OneSource(Run(source, stage, metadata, net), types)
  {
    DrainIsTranscript(Opened(source, stage, metadata), net);
    TranscriptShape(0, source.outcomes, stage, metadata, source.preface, net);
    var t := Held(0, source.outcomes, stage, metadata, source.preface, net);
    var run := t.All();
    forall i | 0 <= i < |run| && run[i].Content? && run[i].frame.ftype in types
      ensures run[i].origin == Winner(0, source.outcomes, stage, net)
    {
      if i >= |t.early| {
        assert run[i] == t.late[i - |t.early|];
      }
    }
  }

  /** Any other type can be seen twice: once from the websocket that failed and once from the one that replaced it. */
  lemma OtherTypesCanRepeat(t: string)
    requires !IsCommit(t) && !IsIgnorable(t)
    ensures
      var source := Source([], [Got(Frame(t, "")), Failed(WebSocketClosed)]);
      var run := Run(source, FreshWebSocket, Metadata(WebSocket, false), Network(Connects(source), Refused(Other(""))));
      run == [Content(0, Frame(t, "")), Content(1, Frame(t, ""))]
  {
    var outcomes := [Got(Frame(t, "")), Failed(WebSocketClosed)];
    var source := Source([], outcomes);
    var net := Network(Connects(source), Refused(Other("")));
    var m := Metadata(WebSocket, false);
    DrainIsTranscript(Opened(source, FreshWebSocket, m), net);
    assert outcomes[1..] == [Failed(WebSocketClosed)];
    assert Held(1, outcomes[1..], HttpSse, m, [], net) == Transcript([], []);
    assert Held(1, outcomes, HttpSse, m, [], net) == Transcript([Content(1, Frame(t, ""))], []);
    assert Held(0, outcomes[1..], FreshWebSocket, m, [], net) == Held(1, outcomes, HttpSse, m, [], net);
  }

  /**
   Recovery never mixes two streams in the frames of a set of types if and only if
   every type of the set is a commit type or is ignored before the commit.  Text
   and argument deltas are; reasoning deltas and finished output items are not.
   */
  lemma OneSourceIff(types: set<string>)
    ensures AlwaysOneSource(types) <==> forall t | t in types :: IsCommit(t) || IsIgnorable(t)
  {
    if forall t | t in types :: IsCommit(t) || IsIgnorable(t) {
      forall source, stage, metadata, net ensures OneSource(Run(source, stage, metadata, net), types) {
        HeldTypesAreFromOneSource(source, stage, metadata, net, types);
      }
    } else {
      var t :| t in types && !IsCommit(t) && !IsIgnorable(t);
      OtherTypesCanRepeat(t);
      var source := Source([], [Got(Frame(t, "")), Failed(WebSocketClosed)]);
      var run := Run(source, FreshWebSocket, Metadata(WebSocket, false), Network(Connects(source), Refused(Other(""))));
      assert run[0].origin != run[1].origin;
      assert !OneSource(run, types);
    }
  }

  lemma TypeExamples()
    ensures !IsCommit("response.reasoning_text.delta") && !IsIgnorable("response.reasoning_text.delta")
    ensures !IsCommit("response.output_item.done") && !IsIgnorable("response.output_item.done")
  {
    assert "response." == "response.reasoning_text.delta"[..9];
    assert "response." == "response.output_item.done"[..9];
    assert |"response.output_item.done"| == 25;
  }

  /** Reasoning deltas and finished output items are not kept to one source. */
  lemma ReasoningAndItemsCanRepeat()
    ensures !AlwaysOneSource({"response.reasoning_text.delta"})
    ensures !AlwaysOneSource({"response.output_item.done"})
  {
    TypeExamples();
    OneSourceIff({"response.reasoning_text.delta"});
    OneSourceIff({"response.output_item.done"});
    assert "response.reasoning_text.delta" in {"response.reasoning_text.delta"};
    assert "response.output_item.done" in {"response.output_item.done"};
  }
}
