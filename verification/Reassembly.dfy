/**
 Websocket frames put back together to JSON events: frames are collected until
 what they hold, white space around it removed, is a JSON text.
 */
module Reassembly {
  import opened Wrappers
  import opened Json

  datatype Outcome = Chunk(text: string) | Broken(message: string)

  datatype Answer =
    | Metadata                  // the provider-execution frame that comes first
    | Event(text: string)
    | Incomplete                // the stream ended inside an event
    | Ended(message: string)    // the stream ended

  /** White space as bytes.TrimSpace sees it, a superset of JSON's. */
  predicate IsSpace(c: char) {
    IsBlank(c) || c == 11 as char || c == 12 as char || c == 0x85 as char || c == 0xA0 as char
  }

  function TrimLeft(s: string): string {
    if s != "" && IsSpace(s[0]) then TrimLeft(s[1..]) else s
  }

  function TrimRight(s: string): string {
    if s != "" && IsSpace(s[|s| - 1]) then TrimRight(s[..|s| - 1]) else s
  }

  function Trim(s: string): string { TrimRight(TrimLeft(s)) }

  /** json.Valid, as far as this module relies on it. */
  ghost predicate IsJsonValid(valid: string -> bool) {
    forall s :: valid(s) <==> JsonText(s)
  }

  /** What is pending after a chunk, and the event it completes if it does. */
  function Feed(pending: string, chunk: string, valid: string -> bool): (string, Option<string>) {
    var candidate := Trim(pending + chunk);
    if candidate == "" || !valid(candidate) then (pending + chunk, None) else ("", Some(candidate))
  }

  datatype Fields = Fields(sentMetadata: bool, pending: string, inner: seq<Outcome>)

  function Recv(f: Fields, valid: string -> bool): (Fields, Answer)
    decreases |f.inner|
  {
    if !f.sentMetadata then (f.(sentMetadata := true), Metadata)
    else
      var outcome := if f.inner == [] then Broken("EOF") else f.inner[0];
      var inner := if f.inner == [] then [] else f.inner[1..];
      match outcome
      case Broken(message) => (f.(inner := inner), if f.pending != "" then Incomplete else Ended(message))
      case Chunk(text) =>
        var (pending, event) := Feed(f.pending, text, valid);
        var g := f.(pending := pending, inner := inner);
        match event
        case None => Recv(g, valid)
        case Some(e) => (g, Event(e))
  }

  class WebSocketResponseStream {
    var sentMetadata: bool
    var pending: string
    var inner: seq<Outcome>
    const valid: string -> bool

    function State(): Fields
      reads this
    {
      Fields(sentMetadata, pending, inner)
    }

    constructor (inner: seq<Outcome>, valid: string -> bool)
      ensures State() == Fields(false, "", inner) && this.valid == valid
    {
      this.sentMetadata, this.pending, this.inner, this.valid := false, "", inner, valid;
    }

    method Receive() returns (answer: Answer)
      modifies this
      ensures (State(), answer) == Recv(old(State()), valid)
    {
      if !sentMetadata {
        sentMetadata := true;
        return Metadata;
      }
      while true
        invariant sentMetadata && Recv(State(), valid) == Recv(old(State()), valid)
        decreases |inner|
      {
        var outcome := if inner == [] then Broken("EOF") else inner[0];
        inner := if inner == [] then [] else inner[1..];
        match outcome {
          case Broken(message) =>
            if |pending| > 0 {
              return Incomplete;
            }
            return Ended(message);
          case Chunk(text) =>
            pending := pending + text;
            var candidate := Trim(pending);
            if |candidate| != 0 && valid(candidate) {
              pending := "";
              return Event(candidate);
            }
        }
      }
    }
  }

  // ------------------------------------------------------------------
  // Whole streams
  // ------------------------------------------------------------------

  function Flatten(chunks: seq<string>): string {
    if chunks == [] then "" else chunks[0] + Flatten(chunks[1..])
  }

  function Chunks(texts: seq<string>): seq<Outcome> {
    seq(|texts|, i requires 0 <= i < |texts| => Chunk(texts[i]))
  }

  /** The events completed by a list of chunks. */
  function Events(pending: string, chunks: seq<string>, valid: string -> bool): seq<string>
    decreases |chunks|
  {
    if chunks == [] then []
    else
      var (p, event) := Feed(pending, chunks[0], valid);
      (if event.Some? then [event.value] else []) + Events(p, chunks[1..], valid)
  }

  /** What is pending after a list of chunks. */
  function Left(pending: string, chunks: seq<string>, valid: string -> bool): string
    decreases |chunks|
  {
    if chunks == [] then pending else Left(Feed(pending, chunks[0], valid).0, chunks[1..], valid)
  }

  /** Everything the stream answers up to and including the end of the connection. */
  function Drain(f: Fields, valid: string -> bool): seq<Answer>
    decreases |f.inner|, !f.sentMetadata
  {
    RecvConsumes(f, valid);
    var (g, answer) := Recv(f, valid);
    if answer.Metadata? || answer.Event? then [answer] + Drain(g, valid) else [answer]
  }

  lemma RecvConsumes(f: Fields, valid: string -> bool)
    ensures
      var (g, answer) := Recv(f, valid);
      && (answer.Event? ==> |g.inner| < |f.inner|)
      && (answer.Metadata? ==> g == f.(sentMetadata := true) && !f.sentMetadata)
    decreases |f.inner|
  {
  }

  /** The stream answers metadata, then the events, then the end: clean when nothing is pending. */
  lemma {:induction false} DrainIsEvents(pending: string, chunks: seq<string>, valid: string -> bool)
    ensures
      var end := if Left(pending, chunks, valid) != "" then Incomplete else Ended("EOF");
      var events := Events(pending, chunks, valid);
      Drain(Fields(true, pending, Chunks(chunks)), valid) == seq(|events|, i requires 0 <= i < |events| => Event(events[i])) + [end]
    decreases |chunks|
  {
    var f := Fields(true, pending, Chunks(chunks));
    if chunks != [] {
      var (p, event) := Feed(pending, chunks[0], valid);
      assert Chunks(chunks)[1..] == Chunks(chunks[1..]);
      DrainIsEvents(p, chunks[1..], valid);
      var g := Fields(true, p, Chunks(chunks[1..]));
      if event.None? {
        assert Recv(f, valid) == Recv(g, valid);
        assert Drain(f, valid) == Drain(g, valid);
      } else {
        assert Recv(f, valid) == (g, Event(event.value));
      }
    }
  }

  // ------------------------------------------------------------------
  // Trimming
  // ------------------------------------------------------------------

  lemma {:induction false} TrimLeftBlank(w: string, s: string)
    requires Blank(w) && (s != "" ==> !IsSpace(s[0]))
    ensures TrimLeft(w + s) == s
    decreases |w|
  {
    if w == "" {
      assert w + s == s;
    } else {
      assert IsBlank(w[0]) && (w + s)[1..] == w[1..] + s;
      TrimLeftBlank(w[1..], s);
    }
  }

  lemma {:induction false} TrimRightBlank(s: string, w: string)
    requires Blank(w) && (s != "" ==> !IsSpace(s[|s| - 1]))
    ensures TrimRight(s + w) == s
    decreases |w|
  {
    if w == "" {
      assert s + w == s;
    } else {
      assert IsBlank(w[|w| - 1]) && (s + w)[..|s + w| - 1] == s + w[..|w| - 1];
      TrimRightBlank(s, w[..|w| - 1]);
    }
  }

  lemma {:induction false} TrimRightIsPrefix(s: string)
    requires s != "" && !IsSpace(s[0])
    ensures 0 < |TrimRight(s)| <= |s| && TrimRight(s) == s[..|TrimRight(s)|]
    decreases |s|
  {
    if IsSpace(s[|s| - 1]) {
      TrimRightIsPrefix(s[..|s| - 1]);
    }
  }

  /** An object's text starts and ends with its braces. */
  lemma ObjectEnds(s: string)
    requires ObjectText(s)
    ensures |s| >= 2 && s[0] == '{' && s[|s| - 1] == '}'
  {
    var inner := ObjectShape(s);
  }

  // ------------------------------------------------------------------
  // Chunks of one message
  // ------------------------------------------------------------------

  /** Before the end of the message no chunk completes anything. */
  lemma PartIsPending(p: string, w: string, msg: string, valid: string -> bool)
    requires IsJsonValid(valid) && Blank(w) && ObjectText(msg)
    requires |p| < |w + msg| && p == (w + msg)[..|p|]
    ensures Trim(p) == "" || !valid(Trim(p))
  {
    ObjectEnds(msg);
    if |p| <= |w| {
      assert p == w[..|p|];
      forall i | 0 <= i < |p| ensures IsBlank(p[i]) {
        assert p[i] == w[i];
      }
      assert p + "" == p;
      TrimLeftBlank(p, "");
    } else {
      var part := msg[..|p| - |w|];
      assert p == w + part;
      TrimLeftBlank(w, part);
      TrimRightIsPrefix(part);
      NoEarlyStop(msg, |TrimRight(part)|);
      assert part[..|TrimRight(part)|] == msg[..|TrimRight(part)|];
    }
  }

  lemma WholeIsTrimmed(w: string, msg: string, v: string)
    requires Blank(w) && Blank(v) && ObjectText(msg)
    ensures Trim(w + msg + v) == msg
  {
    ObjectEnds(msg);
    assert w + msg + v == w + (msg + v);
    TrimLeftBlank(w, msg + v);
    TrimRightBlank(msg, v);
  }

  lemma {:induction false} BlankChunks(p: string, chunks: seq<string>, valid: string -> bool)
    requires Blank(p + Flatten(chunks))
    ensures Events(p, chunks, valid) == [] && Left(p, chunks, valid) == p + Flatten(chunks)
    decreases |chunks|
  {
    if chunks != [] {
      var q := p + chunks[0];
      assert q + Flatten(chunks[1..]) == p + Flatten(chunks);
      forall i | 0 <= i < |q| ensures IsBlank(q[i]) {
        assert q[i] == (p + Flatten(chunks))[i];
      }
      assert q + "" == q;
      TrimLeftBlank(q, "");
      BlankChunks(q, chunks[1..], valid);
    }
  }

  /** However a message and white space around it are cut into chunks, it comes out once and unchanged. */
  lemma {:induction false} OneMessage(p: string, chunks: seq<string>, w: string, msg: string, v: string, valid: string -> bool)
    requires IsJsonValid(valid) && Blank(w) && Blank(v) && ObjectText(msg)
    requires p + Flatten(chunks) == w + msg + v && |p| < |w + msg|
    ensures Events(p, chunks, valid) == [msg] && Blank(Left(p, chunks, valid))
    decreases |chunks|
  {
    assert |Flatten(chunks)| > 0;
    if chunks != [] {
      var q := p + chunks[0];
      assert q + Flatten(chunks[1..]) == w + msg + v;
      if |q| < |w + msg| {
        assert q == (q + Flatten(chunks[1..]))[..|q|] == (w + msg)[..|q|];
        PartIsPending(q, w, msg, valid);
        OneMessage(q, chunks[1..], w, msg, v, valid);
      } else {
        var u := v[..|q| - |w + msg|];
        assert q == (q + Flatten(chunks[1..]))[..|q|] == w + msg + u;
        WholeIsTrimmed(w, msg, u);
        ObjectIsJsonText(msg);
        ObjectEnds(msg);
        assert Flatten(chunks[1..]) == v[|u|..];
        BlankChunks("", chunks[1..], valid);
      }
    }
  }

  /** One message as it travels: chunks that hold it with white space around it. */
  datatype Sent = Sent(before: string, msg: string, after: string, chunks: seq<string>)

  ghost predicate SentOk(m: Sent) {
    Blank(m.before) && ObjectText(m.msg) && Blank(m.after) && Flatten(m.chunks) == m.before + m.msg + m.after
  }

  function AllChunks(ms: seq<Sent>): seq<string> {
    if ms == [] then [] else ms[0].chunks + AllChunks(ms[1..])
  }

  function Messages(ms: seq<Sent>): seq<string> {
    if ms == [] then [] else [ms[0].msg] + Messages(ms[1..])
  }

  lemma {:induction false} EventsConcat(p: string, a: seq<string>, b: seq<string>, valid: string -> bool)
    ensures Events(p, a + b, valid) == Events(p, a, valid) + Events(Left(p, a, valid), b, valid)
    ensures Left(p, a + b, valid) == Left(Left(p, a, valid), b, valid)
    decreases |a|
  {
    if a == [] {
      assert a + b == b;
    } else {
      assert (a + b)[1..] == a[1..] + b;
      EventsConcat(Feed(p, a[0], valid).0, a[1..], b, valid);
    }
  }

  /**
   Reassembly gives back every message once, in order and unchanged, however each
   is cut into frames and whatever white space is sent around it.
   */
  lemma {:induction false} MessagesComeOut(p: string, ms: seq<Sent>, valid: string -> bool)
    requires IsJsonValid(valid) && Blank(p) && forall m | m in ms :: SentOk(m)
    ensures Events(p, AllChunks(ms), valid) == Messages(ms)
    ensures Blank(Left(p, AllChunks(ms), valid))
    decreases |ms|
  {
    if ms != [] {
      var m := ms[0];
      assert SentOk(m);
      assert p + Flatten(m.chunks) == (p + m.before) + m.msg + m.after;
      ObjectEnds(m.msg);
      OneMessage(p, m.chunks, p + m.before, m.msg, m.after, valid);
      EventsConcat(p, m.chunks, AllChunks(ms[1..]), valid);
      MessagesComeOut(Left(p, m.chunks, valid), ms[1..], valid);
    }
  }

  // ------------------------------------------------------------------
  // Frames that run over the end of a message
  // ------------------------------------------------------------------

  lemma FirstCharacter(v: Value)
    requires ValueOk(v)
    ensures Text(v) != ""
    ensures Text(v)[0] == '{' ==> v.Object? || v.EmptyObject?
  {
    if v.Token? && v.text != "true" && v.text != "false" && v.text != "null" {
      var minus: string, whole: string, fraction: string, exponent: string :|
        && (minus == "" || minus == "-") && Whole(whole) && Fraction(fraction) && Exponent(exponent)
        && v.text == minus + whole + fraction + exponent;
      assert |whole| > 0;
      NumberIsPlain(v.text, 0);
    }
  }

  /** Only white space can follow a message in a JSON text. */
  lemma OnlyBlankFollows(msg: string, rest: string)
    requires ObjectText(msg) && JsonText(msg + rest)
    ensures Blank(rest)
  {
    ObjectEnds(msg);
    var s := msg + rest;
    var before, v, after :| Blank(before) && ValueOk(v) && Blank(after) && s == before + Text(v) + after;
    assert before != "" ==> IsBlank(s[0]);
    FirstCharacter(v);
    assert before == "" && s == Text(v) + after;
    assert s[0] == Text(v)[0];
    assert ObjectText(Text(v));
    ObjectThenBlank(msg, rest, Text(v), after);
  }

  lemma ObjectThenBlank(msg: string, rest: string, t: string, after: string)
    requires ObjectText(msg) && ObjectText(t) && Blank(after) && msg + rest == t + after
    ensures Blank(rest)
  {
    var s := msg + rest;
    ObjectIsJsonText(msg);
    ObjectEnds(msg);
    if |msg| < |t| {
      assert t[..|msg|] == s[..|msg|] == msg;
      NoEarlyStop(t, |msg|);
    } else {
      forall i | 0 <= i < |rest| ensures IsBlank(rest[i]) {
        assert rest[i] == s[|msg| + i] == after[|msg| + i - |t|];
      }
    }
  }

  /** Once text follows a message in what is pending, nothing comes out any more. */
  lemma {:induction false} NothingMoreComesOut(msg: string, rest: string, chunks: seq<string>, valid: string -> bool)
    requires IsJsonValid(valid) && ObjectText(msg) && rest != "" && rest[0] == '{'
    ensures Events(msg + rest, chunks, valid) == []
    decreases |chunks|
  {
    if chunks != [] {
      var more := rest + chunks[0];
      assert msg + rest + chunks[0] == msg + more;
      StillNoText(msg, more, valid);
      NothingMoreComesOut(msg, more, chunks[1..], valid);
    }
  }

  lemma StillNoText(msg: string, more: string, valid: string -> bool)
    requires IsJsonValid(valid) && ObjectText(msg) && more != "" && more[0] == '{'
    ensures Trim(msg + more) == "" || !valid(Trim(msg + more))
  {
    ObjectEnds(msg);
    var none: string := "";
    assert none + (msg + more) == msg + more;
    TrimLeftBlank(none, msg + more);
    TrimRightKeeps(msg + [more[0]], more[1..]);
    assert msg + [more[0]] + more[1..] == msg + more;
    var t := TrimRight(msg + more);
    assert t == msg + t[|msg|..];
    assert t[|msg|..][0] == '{';
    if JsonText(t) {
      OnlyBlankFollows(msg, t[|msg|..]);
    }
  }

  lemma {:induction false} TrimRightKeeps(s: string, w: string)
    requires s != "" && !IsSpace(s[|s| - 1])
    ensures s <= TrimRight(s + w)
    decreases |w|
  {
    if w == "" {
      assert s + w == s;
    } else if IsSpace(w[|w| - 1]) {
      assert (s + w)[..|s + w| - 1] == s + w[..|w| - 1];
      TrimRightKeeps(s, w[..|w| - 1]);
    }
  }

  /** No frame runs over the end of the message it starts in; `p` characters of the first message are pending. */
  predicate Aligned(p: nat, chunks: seq<string>, msgs: seq<string>)
    decreases |chunks|
  {
    if chunks == [] then p == 0 && msgs == []
    else
      var q := p + |chunks[0]|;
      if msgs == [] then q == 0 && Aligned(0, chunks[1..], [])
      else if q < |msgs[0]| then Aligned(q, chunks[1..], msgs)
      else if q == |msgs[0]| then Aligned(0, chunks[1..], msgs[1..])
      else false
  }

  /**
   Messages sent back to back and cut into frames anywhere come out again if and
   only if no frame holds the end of one message and more.
   */
  lemma {:induction false} ComeOutIffAligned(pending: string, chunks: seq<string>, msgs: seq<string>, valid: string -> bool)
    requires IsJsonValid(valid) && forall m | m in msgs :: ObjectText(m)
    requires pending + Flatten(chunks) == Flatten(msgs)
    requires pending == "" || (msgs != [] && |pending| < |msgs[0]|)
    ensures Events(pending, chunks, valid) == msgs <==> Aligned(|pending|, chunks, msgs)
    decreases |chunks|
  {
    if chunks == [] {
      NoChunks(pending, msgs);
    } else if msgs == [] {
      BlankChunks("", chunks, valid);
      ComeOutIffAligned("", chunks[1..], [], valid);
    } else {
      assert msgs[0] in msgs;
      var next := pending + chunks[0];
      Compare(next, Flatten(chunks[1..]), msgs[0], Flatten(msgs[1..]), pending, chunks[0]);
      if |next| < |msgs[0]| {
        PartIsFed(pending, chunks[0], msgs[0], valid);
        ComeOutIffAligned(next, chunks[1..], msgs, valid);
      } else if |next| == |msgs[0]| {
        ComeOutIffAligned("", chunks[1..], msgs[1..], valid);
        AtBoundary(pending, chunks, msgs, valid);
      } else {
        OverrunIsLost(pending, chunks, msgs, valid);
      }
    }
  }

  lemma NoChunks(pending: string, msgs: seq<string>)
    requires forall m | m in msgs :: ObjectText(m)
    requires pending + Flatten([]) == Flatten(msgs) && (pending == "" || (msgs != [] && |pending| < |msgs[0]|))
    ensures pending == "" && msgs == []
  {
    assert pending + Flatten([]) == pending;
    if msgs != [] {
      assert msgs[0] in msgs;
      ObjectEnds(msgs[0]);
    }
  }

  /** Two ways to split one string, compared by where they split it. */
  lemma Compare(a: string, x: string, b: string, y: string, pending: string, chunk: string)
    requires a == pending + chunk && pending + (chunk + x) == b + y
    ensures a + x == b + y
    ensures |a| <= |b| ==> a <= b
    ensures |a| == |b| ==> a == b && x == y
    ensures |b| <= |a| ==> b <= a
    ensures |b| < |a| ==> y != "" && a[|b|] == y[0]
  {
    assert a + x == b + y;
    var all := a + x;
    assert all[..|a|] == a && all[|a|..] == x;
    assert all[..|b|] == b && all[|b|..] == y;
    if |b| < |a| {
      assert a[|b|] == all[|b|];
    }
  }

  /** A chunk that stops inside the message completes nothing. */
  lemma PartIsFed(pending: string, chunk: string, msg: string, valid: string -> bool)
    requires IsJsonValid(valid) && ObjectText(msg) && pending + chunk <= msg && |pending + chunk| < |msg|
    ensures Feed(pending, chunk, valid) == (pending + chunk, None)
  {
    var none: string := "";
    assert none + msg == msg;
    PartIsPending(pending + chunk, none, msg, valid);
  }

  /** The chunk that ends a message exactly completes it. */
  lemma WholeIsFed(pending: string, chunk: string, msg: string, valid: string -> bool)
    requires IsJsonValid(valid) && ObjectText(msg) && pending + chunk == msg
    ensures Feed(pending, chunk, valid) == ("", Some(msg))
  {
    var none: string := "";
    assert msg == none + msg + none;
    WholeIsTrimmed(none, msg, none);
    ObjectIsJsonText(msg);
    ObjectEnds(msg);
  }

  lemma HeadMatches(msgs: seq<string>, events: seq<string>)
    requires msgs != []
    ensures [msgs[0]] + events == msgs <==> events == msgs[1..]
  {
    assert [msgs[0]] + msgs[1..] == msgs;
    assert ([msgs[0]] + events)[1..] == events;
  }

  /** A frame that ends its message gives that message and leaves nothing pending. */
  lemma AtBoundary(pending: string, chunks: seq<string>, msgs: seq<string>, valid: string -> bool)
    requires IsJsonValid(valid) && chunks != [] && msgs != [] && ObjectText(msgs[0])
    requires pending + chunks[0] == msgs[0]
    ensures Events(pending, chunks, valid) == msgs <==> Events("", chunks[1..], valid) == msgs[1..]
  {
    WholeIsFed(pending, chunks[0], msgs[0], valid);
    assert Events(pending, chunks, valid) == [msgs[0]] + Events("", chunks[1..], valid);
    HeadMatches(msgs, Events("", chunks[1..], valid));
  }

  lemma OverrunIsLost(pending: string, chunks: seq<string>, msgs: seq<string>, valid: string -> bool)
    requires IsJsonValid(valid) && forall m | m in msgs :: ObjectText(m)
    requires chunks != [] && msgs != [] && Flatten(msgs[1..]) != ""
    requires msgs[0] <= pending + chunks[0] && |msgs[0]| < |pending + chunks[0]|
    requires (pending + chunks[0])[|msgs[0]|] == Flatten(msgs[1..])[0]
    ensures Events(pending, chunks, valid) == []
  {
    var more := (pending + chunks[0])[|msgs[0]|..];
    assert pending + chunks[0] == msgs[0] + more;
    assert msgs[0] in msgs && msgs[1] in msgs;
    ObjectEnds(msgs[1]);
    assert Flatten(msgs[1..])[0] == msgs[1][0];
    StillNoText(msgs[0], more, valid);
    NothingMoreComesOut(msgs[0], more, chunks[1..], valid);
  }
}
