/**
 The pooled websocket shared by the requests of one client: a mutex, at most one
 stream, and the session id the stream belongs to.
 */
module ResponsesSession {
  import opened Wrappers

  /** Outcome of writing a frame to the pooled stream: it is no writer, the write failed, or it went through. */
  datatype WriteResult = NotAWriter | WriteFailed | Written

  /** What the network does in one OpenOrWrite: the write, if tried, and whether a dial, if tried, succeeds. */
  datatype Dial = Dial(write: WriteResult, opens: bool)

  datatype Access = Reused | LostOnWrite | Opened | DialFailed

  /** Which way OpenOrWrite goes, given the session id of the pooled stream if there is one. */
  function AccessOf(pooled: Option<string>, session: string, dial: Dial): Access {
    if session != "" && pooled == Some(session) && dial.write.Written? then Reused
    else if session != "" && pooled == Some(session) && dial.write.WriteFailed? then LostOnWrite
    else if dial.opens then Opened
    else DialFailed
  }

  class Connection {
    var open: bool
    var written: seq<string>

    constructor ()
      ensures open && written == []
    {
      open := true;
      written := [];
    }
  }

  class Session {
    var locked: bool
    var sessionID: string
    var stream: Connection?

    /** The stream and its id are set and cleared together, and the pooled stream is open. */
    ghost predicate Valid()
      reads this, stream
    {
      && (stream == null <==> sessionID == "")
      && (stream != null ==> stream.open)
    }

    ghost function Pooled(): Option<string>
      reads this
    {
      if stream == null then None else Some(sessionID)
    }

    constructor ()
      ensures Valid() && !locked && stream == null
    {
      locked, sessionID, stream := false, "", null;
    }

    /** Takes the lock and returns the function that gives it back. */
    method Acquire() returns (unlock: Unlock)
      requires Valid() && !locked
      modifies this`locked
      ensures Valid() && locked
      ensures fresh(unlock) && unlock.session == this && !unlock.used
    {
      locked := true;
      unlock := new Unlock(this);
    }

    /**
     Returns a stream the body was sent on.  A stream other than the pooled one
     is only handed out after the pooled one was closed, so at most one stays open.
     */
    method OpenOrWrite(session: string, body: string, dial: Dial) returns (got: Connection?)
      requires Valid() && locked
      modifies this`stream, this`sessionID, stream
      ensures Valid() && locked
      ensures
        match AccessOf(old(Pooled()), session, dial)
        case Reused =>
          && got == old(stream) && got != null && stream == got && sessionID == session
          && got.written == old(stream.written) + [body]
        case LostOnWrite =>
          got == null && stream == null && !old(stream).open
        case Opened =>
          && got != null && fresh(got) && got.open && got.written == [body]
          && (old(stream) != null ==> !old(stream).open)
          && stream == (if session != "" then got else null)
        case DialFailed =>
          got == null && stream == null && (old(stream) != null ==> !old(stream).open)
    {
      if session != "" && stream != null && sessionID == session {
        match dial.write {
          case NotAWriter =>
            CloseLocked();
          case WriteFailed =>
            CloseLocked();
            return null;
          case Written =>
            stream.written := stream.written + [body];
            return stream;
        }
      }
      if stream != null {
        CloseLocked();
      }
      if !dial.opens {
        return null;
      }
      got := new Connection();
      got.written := [body];
      if session != "" {
        stream := got;
        sessionID := session;
      }
    }

    method CloseLocked()
      requires Valid() && locked
      modifies this`stream, this`sessionID, stream
      ensures Valid() && stream == null
      ensures old(stream) != null ==> !old(stream).open && old(stream).written == old(stream.written)
    {
      if stream != null {
        stream.open := false;
      }
      stream, sessionID := null, "";
    }
  }

  /** The function returned by Acquire: it unlocks once, however often it is called. */
  class Unlock {
    const session: Session
    var used: bool

    constructor (session: Session)
      ensures this.session == session && !used
    {
      this.session, used := session, false;
    }

    method Call()
      requires !used ==> session.locked
      modifies this, session`locked
      ensures used
      ensures session.locked == (old(used) && old(session.locked))
    {
      if !used {
        used := true;
        session.locked := false;
      }
    }
  }
}
