/**
 The stream a Codex websocket request returns to its reader: it holds visible
 output back until a commit frame arrives, and until then replaces a failed
 websocket by a fresh one and then by HTTP.

 A frame is its event type and its text.  A source is everything the network
 will deliver on one connection; after its last outcome it reports end of file.
 */
module FallbackStream {
  import opened RecoveryStages
  import opened Wrappers

  datatype Frame = Frame(ftype: string, text: string)

  datatype Failure =
    | ClosedBeforeCompleted     // errCodexWebSocketClosedBeforeCompleted
    | WebSocketClosed           // a close frame
    | UnexpectedEof
    | Eof
    | Other(message: string)
    | Incomplete(cause: Failure)                // the stream ended within a JSON event
    | Joined(first: Failure, second: Failure)   // errors.Join

  datatype Outcome = Got(frame: Frame) | Failed(failure: Failure)

  datatype Transport = WebSocket | Http

  datatype Metadata = Metadata(transport: Transport, continued: bool)

  /** A frame handed to the reader: execution metadata, a quota frame of the handshake, or a frame of source `origin`. */
  datatype Delivery =
    | Meta(metadata: Metadata)
    | Preface(frame: Frame)
    | Content(origin: nat, frame: Frame)

  datatype Answer = Delivered(delivery: Delivery) | Error(failure: Failure)

  datatype Source = Source(preface: seq<Frame>, outcomes: seq<Outcome>)

  /** What comes of opening a connection. */
  datatype Attempt<T> = Connects(value: T) | Refused(failure: Failure)

  /** What each recovery would find. */
  datatype Network = Network(redial: Attempt<Source>, http: Attempt<seq<Outcome>>)

  // ------------------------------------------------------------------
  // Frame classifiers
  // ------------------------------------------------------------------

  const QUOTA := "llmadapter.quota_usage"

  predicate IsCommit(t: string) {
    t == "response.output_text.delta" || t == "response.function_call_arguments.delta"
    || t == "response.done" || t == "response.completed"
  }

  predicate IsIgnorable(t: string) {
    t != QUOTA && t != "" && !("response." <= t) && t != "error"
  }

  /** errors.Is(f, io.EOF): what a reader takes for the end of the stream. */
  predicate IsEof(f: Failure) {
    match f
    case Incomplete(cause) => IsEof(cause)
    case Joined(first, second) => IsEof(first) || IsEof(second)
    case _ => f.Eof?
  }

  predicate Recoverable(f: Failure) {
    match f
    case Incomplete(cause) => Recoverable(cause)
    case Joined(first, second) => Recoverable(first) || Recoverable(second)
    case _ => f.ClosedBeforeCompleted? || f.WebSocketClosed? || f.Eof? || f.UnexpectedEof?
  }

  /**
   How sseWrappedByteStream reports the failure of its websocket: was the response
   complete, and was there text left of an incomplete JSON event?
   */
  function Reported(failure: Failure, completed: bool, leftover: bool): Failure {
    if leftover then Incomplete(failure)
    else if !completed && IsEof(failure) then ClosedBeforeCompleted
    else failure
  }

  // ------------------------------------------------------------------
  // The reading loop as a function of the stream's fields
  // ------------------------------------------------------------------

  datatype Fields = Fields(
    origin: nat,             // which source is active: 0 first, 1 fresh websocket, 2 HTTP
    pending: seq<Outcome>,   // what the active source will still deliver
    stage: Stage,            // next recovery
    metadata: Metadata,
    sentMetadata: bool,
    preface: seq<Frame>,
    started: bool,
    buffered: seq<Frame>)

  datatype Recovery = Recovered(fields: Fields) | GivenUp(stage: Stage, failure: Failure)

  function Next(pending: seq<Outcome>): Outcome {
    if pending == [] then Failed(Eof) else pending[0]
  }

  function Rest(pending: seq<Outcome>): seq<Outcome> {
    if pending == [] then [] else pending[1..]
  }

  /** recoverPreStart and the assignments Recv makes from its result. */
  function RecoverPreStart(f: Fields, cause: Failure, net: Network): Recovery {
    match f.stage
    case FreshWebSocket =>
      if net.redial.Connects? then
        Recovered(Fields(1, net.redial.value.outcomes, HttpSse, Metadata(WebSocket, false), false, net.redial.value.preface, false, []))
      else RecoverHttp(f, Joined(cause, net.redial.failure), net)
    case HttpSse => RecoverHttp(f, cause, net)
    case RecoveryDone => GivenUp(RecoveryDone, cause)
  }

  function RecoverHttp(f: Fields, cause: Failure, net: Network): Recovery {
    if net.http.Connects? then
      Recovered(Fields(2, net.http.value, RecoveryDone, Metadata(Http, false), false, [], true, []))
    else GivenUp(RecoveryDone, Joined(cause, net.http.failure))
  }

  /** One turn of the loop: go on with new fields, or return an answer. */
  datatype Turn = Again(fields: Fields) | Answered(fields: Fields, answer: Answer)

  function LoopTurn(f: Fields, net: Network): Turn {
    if f.started && !f.sentMetadata then
      Answered(f.(sentMetadata := true), Delivered(Meta(f.metadata)))
    else if f.started && f.preface != [] then
      Answered(f.(preface := f.preface[1..]), Delivered(Preface(f.preface[0])))
    else if f.buffered != [] then
      Answered(f.(buffered := f.buffered[1..]), Delivered(Content(f.origin, f.buffered[0])))
    else
      var g := f.(pending := Rest(f.pending));
      match Next(f.pending)
      case Failed(failure) =>
        if !f.started && Recoverable(failure) then
          match RecoverPreStart(g, failure, net)
          case Recovered(h) => Again(h)
          case GivenUp(stage, why) => Answered(g.(stage := stage), Error(why))
        else Answered(g, Error(failure))
      case Got(frame) =>
        if f.started then Answered(g, Delivered(Content(f.origin, frame)))
        else if IsIgnorable(frame.ftype) then Again(g)
        else Again(g.(buffered := [frame], started := IsCommit(frame.ftype)))
  }

  /** One call of Recv: the fields after it and what it returns. */
  function Recv(f: Fields, net: Network): (Fields, Answer)
    decreases StagesLeft(f.stage), |f.pending|
  {
    match LoopTurn(f, net)
    case Again(g) => Recv(g, net)
    case Answered(g, answer) => (g, answer)
  }

  // ------------------------------------------------------------------
  // The source's own form
  // ------------------------------------------------------------------

  class FallbackByteStream {
    var origin: nat
    var pending: seq<Outcome>
    var stage: Stage
    var metadata: Metadata
    var sentMetadata: bool
    var preface: seq<Frame>
    var started: bool
    var buffered: seq<Frame>
    const net: Network

    function State(): Fields
      reads this
    {
      Fields(origin, pending, stage, metadata, sentMetadata, preface, started, buffered)
    }

    constructor (source: Source, stage: Stage, metadata: Metadata, net: Network)
      ensures State() == Opened(source, stage, metadata)
      ensures this.net == net
    {
      this.origin, this.pending, this.stage, this.metadata := 0, source.outcomes, stage, metadata;
      this.sentMetadata, this.preface, this.started, this.buffered := false, source.preface, false, [];
      this.net := net;
    }

    method Recover(cause: Failure) returns (ok: bool, failure: Failure)
      modifies this
      ensures
        match RecoverPreStart(old(State()), cause, net)
        case Recovered(h) => ok && State() == h
        case GivenUp(st, why) => !ok && failure == why && State() == old(State()).(stage := st)
    {
      failure := cause;
      if stage == FreshWebSocket {
        stage := HttpSse;
        if net.redial.Connects? {
          origin, pending, metadata, preface := 1, net.redial.value.outcomes, Metadata(WebSocket, false), net.redial.value.preface;
          started, sentMetadata, buffered := false, false, [];
          return true, failure;
        }
        failure := Joined(failure, net.redial.failure);
      }
      if stage == HttpSse {
        stage := RecoveryDone;
        if net.http.Refused? {
          return false, Joined(failure, net.http.failure);
        }
        origin, pending, metadata, preface := 2, net.http.value, Metadata(Http, false), [];
        started, sentMetadata, buffered := true, false, [];
        return true, failure;
      }
      return false, failure;
    }

    method Receive() returns (answer: Answer)
      modifies this
      ensures (State(), answer) == Recv(old(State()), net)
    {
      while true
        invariant Recv(State(), net) == Recv(old(State()), net)
        decreases StagesLeft(stage), |pending|
      {
        ghost var was := State();
        if started && !sentMetadata {
          sentMetadata := true;
          return Delivered(Meta(metadata));
        }
        if started && |preface| > 0 {
          var out := preface[0];
          preface := preface[1..];
          return Delivered(Preface(out));
        }
        if |buffered| > 0 {
          var out := buffered[0];
          buffered := buffered[1..];
          return Delivered(Content(origin, out));
        }
        var outcome := Next(pending);
        pending := Rest(pending);
        match outcome {
          case Failed(failure) =>
            if !started && Recoverable(failure) {
              var ok, why := Recover(failure);
              if !ok {
                assert LoopTurn(was, net) == Answered(State(), Error(why));
                return Error(why);
              }
              assert LoopTurn(was, net) == Again(State());
            } else {
              return Error(failure);
            }
          case Got(frame) =>
            if started {
              return Delivered(Content(origin, frame));
            }
            buffered := buffered + [frame];
            assert buffered == [frame];
            if IsIgnorable(frame.ftype) {
              buffered := buffered[..|buffered| - 1];
              assert buffered == [];
            } else if IsCommit(frame.ftype) {
              started := true;
            }
            assert LoopTurn(was, net) == Again(State());
        }
      }
    }
  }

  function Opened(source: Source, stage: Stage, metadata: Metadata): Fields {
    Fields(0, source.outcomes, stage, metadata, false, source.preface, false, [])
  }
}
