/**
 What the lines of server-sent events mean, whoever writes them: several data lines,
 ids, retry times, comments and unknown fields, with any line ends.
 */
module SseFields {
  import opened Wrappers
  import opened Sse

  datatype Field = EventField | DataField | IdField | RetryField | Comment | OtherField(name: string)

  /** A line as it is written: a field or a comment, its value, and whether a space is put before that. */
  datatype Line = Line(field: Field, value: string, space: bool)

  function NameOf(f: Field): string {
    match f
    case EventField => "event"
    case DataField => "data"
    case IdField => "id"
    case RetryField => "retry"
    case Comment => ""
    case OtherField(name) => name
  }

  function LineText(l: Line): string {
    NameOf(l.field) + ":" + (if l.space then " " else "") + l.value
  }

  /**
   Neither name nor value holds a line end, a value that starts with a space has another
   one before it, and an unknown name is none of the known ones.
   */
  predicate Proper(l: Line) {
    && IsLine(l.value) && (l.value != "" && l.value[0] == ' ' ==> l.space)
    && (l.field.OtherField? ==>
         && l.field.name !in {"", "event", "data", "id", "retry"} && IsLine(l.field.name)
         && forall k | 0 <= k < |l.field.name| :: l.field.name[k] != ':')
  }

  predicate AllProper(ls: seq<Line>) {
    forall k | 0 <= k < |ls| :: Proper(ls[k])
  }

  /** The values given for a field, in order. */
  function Values(ls: seq<Line>, f: Field): seq<string> {
    if ls == [] then [] else (if ls[0].field == f then [ls[0].value] else []) + Values(ls[1..], f)
  }

  function LastOr(values: seq<string>, start: string): string {
    if values == [] then start else values[|values| - 1]
  }

  predicate RetriesAreNumbers(ls: seq<Line>) {
    forall k | 0 <= k < |ls| && ls[k].field.RetryField? :: Atoi(ls[k].value).Some?
  }

  function RetryOr(values: seq<string>, start: int): int {
    if values == [] || Atoi(values[|values| - 1]).None? then start else Atoi(values[|values| - 1]).value
  }

  /** The last event, id and retry count; data lines are joined by LF; the rest is ignored. */
  function Meaning(ls: seq<Line>): Option<SSEFrame> {
    if !RetriesAreNumbers(ls) then None
    else Some(SSEFrame(LastOr(Values(ls, EventField), ""), Join(Values(ls, DataField)), LastOr(Values(ls, IdField), ""),
                       RetryOr(Values(ls, RetryField), 0)))
  }

  function TextsOf(ls: seq<Line>): seq<string> {
    if ls == [] then [] else [LineText(ls[0])] + TextsOf(ls[1..])
  }

  // ------------------------------------------------------------------
  // One frame
  // ------------------------------------------------------------------

  lemma NamesAreNames(l: Line)
    requires Proper(l)
    ensures forall k | 0 <= k < |NameOf(l.field)| :: NameOf(l.field)[k] != ':'
    ensures IsLine(NameOf(l.field)) && (NameOf(l.field) == "" <==> l.field.Comment?)
  {
  }

  lemma {:induction false} NameIsCut(field: string, value: string, space: bool, begun: string)
    requires forall k | 0 <= k < |field| :: field[k] != ':'
    requires value != "" && value[0] == ' ' ==> space
    ensures CutField(field + ":" + (if space then " " else "") + value, begun) == (begun + field, value)
    decreases |field|
  {
    var rest := ":" + (if space then " " else "") + value;
    if field == "" {
      assert field + ":" + (if space then " " else "") + value == rest && begun + field == begun;
      assert if space then rest[2..] == value else rest[1..] == value;
    } else {
      assert (field + rest)[1..] == field[1..] + rest;
      assert field + ":" + (if space then " " else "") + value == field + rest;
      assert field[1..] + ":" + (if space then " " else "") + value == field[1..] + rest;
      assert begun + field == (begun + [field[0]]) + field[1..];
      NameIsCut(field[1..], value, space, begun + [field[0]]);
    }
  }

  /** A line survives trimming and, unless it is a comment, is cut into its name and value. */
  lemma LineIsCut(l: Line)
    requires Proper(l)
    ensures
      var line := LineText(l);
      && IsLine(line) && line != "" && TrimSuffix(line) == line && (line[0] == ':' <==> l.field.Comment?)
      && (!l.field.Comment? ==> CutField(line, "") == (NameOf(l.field), l.value))
  {
    var name, line := NameOf(l.field), LineText(l);
    NamesAreNames(l);
    if l.value != "" {
      assert line[|line| - 1] == l.value[|l.value| - 1];
    } else {
      assert line[|line| - 1] == ' ' || line[|line| - 1] == ':';
    }
    if name != "" {
      assert line[0] == name[0];
      NameIsCut(name, l.value, l.space, "");
      assert "" + name == name;
    } else {
      assert line[0] == ':';
    }
  }

  /** What the lines add to a frame begun. */
  function Added(ls: seq<Line>, frame: SSEFrame, data: seq<string>): SSEFrame {
    SSEFrame(LastOr(Values(ls, EventField), frame.event), Join(data + Values(ls, DataField)), LastOr(Values(ls, IdField), frame.id),
             RetryOr(Values(ls, RetryField), frame.retry))
  }

  /** One line's part of the parse. */
  function Step(l: Line, frame: SSEFrame): SSEFrame {
    match l.field
    case EventField => frame.(event := l.value)
    case IdField => frame.(id := l.value)
    case RetryField => if Atoi(l.value).Some? then frame.(retry := Atoi(l.value).value) else frame
    case _ => frame
  }

  function StepData(l: Line, data: seq<string>): seq<string> {
    if l.field.DataField? then data + [l.value] else data
  }

  lemma ParseStep(l: Line, rest: seq<string>, frame: SSEFrame, data: seq<string>)
    requires Proper(l)
    ensures
      ParseFrom([LineText(l)] + rest, frame, data)
      == if l.field.RetryField? && Atoi(l.value).None? then None else ParseFrom(rest, Step(l, frame), StepData(l, data))
  {
    LineIsCut(l);
    assert ([LineText(l)] + rest)[1..] == rest;
  }

  lemma AddedStep(ls: seq<Line>, frame: SSEFrame, data: seq<string>)
    requires ls != [] && RetriesAreNumbers(ls)
    ensures Added(ls, frame, data) == Added(ls[1..], Step(ls[0], frame), StepData(ls[0], data))
  {
    var l, rest := ls[0], ls[1..];
    LastSteps(ls, EventField, frame.event);
    LastSteps(ls, IdField, frame.id);
    RetrySteps(ls, frame.retry);
    assert data + Values(ls, DataField) == StepData(l, data) + Values(rest, DataField);
  }

  lemma LastSteps(ls: seq<Line>, f: Field, start: string)
    requires ls != []
    ensures LastOr(Values(ls, f), start) == LastOr(Values(ls[1..], f), if ls[0].field == f then ls[0].value else start)
  {
  }

  lemma RetrySteps(ls: seq<Line>, start: int)
    requires ls != [] && RetriesAreNumbers(ls)
    ensures
      RetryOr(Values(ls, RetryField), start)
      == RetryOr(Values(ls[1..], RetryField), if ls[0].field.RetryField? then Atoi(ls[0].value).value else start)
  {
    RetryValues(ls[1..]);
  }

  lemma {:induction false} RetryValues(ls: seq<Line>)
    requires RetriesAreNumbers(ls)
    ensures forall k | 0 <= k < |Values(ls, RetryField)| :: Atoi(Values(ls, RetryField)[k]).Some?
  {
    if ls != [] {
      RetryValues(ls[1..]);
    }
  }

  lemma {:induction false} LinesParse(ls: seq<Line>, frame: SSEFrame, data: seq<string>)
    requires AllProper(ls)
    ensures ParseFrom(TextsOf(ls), frame, data) == if RetriesAreNumbers(ls) then Some(Added(ls, frame, data)) else None
    decreases |ls|
  {
    if ls == [] {
      assert data + [] == data;
    } else {
      ParseStep(ls[0], TextsOf(ls[1..]), frame, data);
      if ls[0].field.RetryField? && Atoi(ls[0].value).None? {
        assert !RetriesAreNumbers(ls);
      } else {
        LinesParse(ls[1..], Step(ls[0], frame), StepData(ls[0], data));
        assert RetriesAreNumbers(ls) <==> RetriesAreNumbers(ls[1..]) by {
          assert forall k | 1 <= k < |ls| :: ls[k] == ls[1..][k - 1];
        }
        if RetriesAreNumbers(ls) {
          AddedStep(ls, frame, data);
        }
      }
    }
  }

  lemma {:induction false} TextsAreLines(ls: seq<Line>)
    requires AllProper(ls)
    ensures |TextsOf(ls)| == |ls| && AreLines(TextsOf(ls)) && forall k | 0 <= k < |ls| :: TextsOf(ls)[k] != ""
  {
    if ls != [] {
      LineIsCut(ls[0]);
      TextsAreLines(ls[1..]);
    }
  }

  /**
   A frame of any lines is read as it is meant: data lines joined by LF in order, the
   last event, id and retry time, and comments and unknown fields without effect.
   */
  lemma FieldsAreRead(ls: seq<Line>)
    requires ls != [] && AllProper(ls)
    ensures Parse(Join(TextsOf(ls))) == Meaning(ls)
  {
    TextsAreLines(ls);
    PartsComeBack(TextsOf(ls));
    LinesParse(ls, NO_FRAME, []);
    assert [] + Values(ls, DataField) == Values(ls, DataField);
  }

  /** The only error is a retry time that is no number. */
  lemma OnlyRetriesFail(ls: seq<Line>)
    requires ls != [] && AllProper(ls)
    ensures Parse(Join(TextsOf(ls))).None? <==> exists k | 0 <= k < |ls| :: ls[k].field.RetryField? && Atoi(ls[k].value).None?
  {
    FieldsAreRead(ls);
  }

  // ------------------------------------------------------------------
  // Whole streams
  // ------------------------------------------------------------------

  /** The lines of the frames, an empty one after each. */
  function AllTexts(frames: seq<seq<Line>>): seq<string> {
    if frames == [] then [] else TextsOf(frames[0]) + [""] + AllTexts(frames[1..])
  }

  function Meanings(frames: seq<seq<Line>>): seq<Option<SSEFrame>> {
    if frames == [] then [] else [Meaning(frames[0])] + Meanings(frames[1..])
  }

  predicate AllFrames(frames: seq<seq<Line>>) {
    forall k | 0 <= k < |frames| :: frames[k] != [] && AllProper(frames[k])
  }

  lemma {:induction false} AllTextsAreLines(frames: seq<seq<Line>>)
    requires AllFrames(frames)
    ensures AreLines(AllTexts(frames))
  {
    if frames != [] {
      TextsAreLines(frames[0]);
      AllTextsAreLines(frames[1..]);
    }
  }

  lemma FirstFrame(frames: seq<seq<Line>>)
    requires AllFrames(frames) && frames != []
    ensures JoinAll(Groups(AllTexts(frames))) == [Join(TextsOf(frames[0]))] + JoinAll(Groups(AllTexts(frames[1..])))
  {
    TextsAreLines(frames[0]);
    var rest := [""] + AllTexts(frames[1..]);
    assert AllTexts(frames) == TextsOf(frames[0]) + rest && rest[1..] == AllTexts(frames[1..]);
    OneGroup(TextsOf(frames[0]), rest);
  }

  lemma {:induction false} FramesMean(frames: seq<seq<Line>>)
    requires AllFrames(frames)
    ensures ParseAll(JoinAll(Groups(AllTexts(frames)))) == Meanings(frames)
  {
    if frames != [] {
      FramesMean(frames[1..]);
      FirstFrame(frames);
      FieldsAreRead(frames[0]);
      var rest := JoinAll(Groups(AllTexts(frames[1..])));
      assert ([Join(TextsOf(frames[0]))] + rest)[1..] == rest;
    }
  }

  /** Any frames, written with any unambiguous mix of line ends, are read as they are meant, one after the other. */
  lemma StreamsAreRead(frames: seq<seq<Line>>, ends: seq<LineEnd>)
    requires AllFrames(frames) && |ends| == |AllTexts(frames)| && Distinct(AllTexts(frames), ends)
    ensures ParseAll(AllBlocks(PrintLines(AllTexts(frames), ends))) == Meanings(frames)
  {
    AllTextsAreLines(frames);
    LineEndsDoNotMatter(AllTexts(frames), ends);
    FramesMean(frames);
  }

  // ------------------------------------------------------------------
  // Retry times
  // ------------------------------------------------------------------

  function Digit(d: nat): char
    requires d < 10
  {
    "0123456789"[d]
  }

  function Decimal(n: nat): string {
    (if n < 10 then "" else Decimal(n / 10)) + [Digit(n % 10)]
  }

  lemma DigitValue(front: string, d: nat)
    requires d < 10 && DigitsValue(front).Some?
    ensures '0' <= Digit(d) <= '9' && DigitsValue(front + [Digit(d)]) == Some(DigitsValue(front).value * 10 + d)
  {
    var s := front + [Digit(d)];
    assert s[..|s| - 1] == front;
  }

  predicate IsNumber(s: string, n: nat) {
    s != "" && '0' <= s[0] <= '9' && DigitsValue(s) == Some(n)
  }

  lemma MoreDigits(front: string, q: nat, d: nat)
    requires d < 10 && IsNumber(front, q)
    ensures IsNumber(front + [Digit(d)], 10 * q + d)
  {
    DigitValue(front, d);
  }

  lemma OneDigit(d: nat)
    requires d < 10
    ensures IsNumber([Digit(d)], d)
  {
    DigitValue("", d);
    assert "" + [Digit(d)] == [Digit(d)];
  }

  lemma DecimalCut(n: nat)
    ensures n < 10 ==> Decimal(n) == [Digit(n)]
    ensures n >= 10 ==> Decimal(n) == Decimal(n / 10) + [Digit(n % 10)]
  {
  }

  lemma {:induction false} DecimalValue(n: nat)
    ensures IsNumber(Decimal(n), n)
  {
    DecimalCut(n);
    if n >= 10 {
      DecimalValue(n / 10);
      MoreDigits(Decimal(n / 10), n / 10, n % 10);
      assert n == 10 * (n / 10) + n % 10;
    } else {
      OneDigit(n);
    }
  }

  lemma NumbersAreRead(s: string, n: nat)
    requires IsNumber(s, n) && n < 0x8000_0000_0000_0000
    ensures Atoi(s) == Some(n)
  {
  }

  /** Every retry time the 64 bits can hold is read as the number it is written as. */
  lemma RetryTimesAreRead(n: nat)
    requires n < 0x8000_0000_0000_0000
    ensures Atoi(Decimal(n)) == Some(n)
  {
    DecimalValue(n);
    NumbersAreRead(Decimal(n), n);
  }
}
