/**
 Server-sent events as the transport reads them and the endpoints write them
 (sections 9.2.5 and 9.2.6 of the WHATWG HTML standard).  Characters stand for bytes.
 */
module Sse {
  import opened Wrappers

  const LF := '\n'
  const CR := '\r'

  predicate EndsLine(c: char) { c == LF || c == CR }

  /** What follows the line end s starts with: CR LF is one line end. */
  function AfterEnd(s: string): (rest: string)
    requires s != "" && EndsLine(s[0])
    ensures |rest| < |s|
  {
    if s[0] == CR && |s| > 1 && s[1] == LF then s[2..] else s[1..]
  }

  // ------------------------------------------------------------------
  // The reader, byte by byte
  // ------------------------------------------------------------------

  /** The next block and what is left of the input, from within a block and a line. */
  function NextBlock(s: string, line: string, block: string): (r: (Option<string>, string))
    ensures r.0.Some? && line == "" && block == "" ==> |r.1| < |s|
    ensures |r.1| <= |s|
    decreases |s|
  {
    if s == "" then (if line == "" && block == "" then None else Some(block + line), "")
    else if !EndsLine(s[0]) then NextBlock(s[1..], line + [s[0]], block)
    else if line == "" then
      if block == "" then NextBlock(AfterEnd(s), "", "") else (Some(block), AfterEnd(s))
    else NextBlock(AfterEnd(s), "", (if block == "" then "" else block + [LF]) + line)
  }

  /** All blocks of an input. */
  function AllBlocks(s: string): seq<string>
    decreases |s|
  {
    var (block, rest) := NextBlock(s, "", "");
    if block.None? then [] else [block.value] + AllBlocks(rest)
  }

  class SSEReader {
    var input: string

    constructor (input: string)
      ensures this.input == input
    {
      this.input := input;
    }

    /** Nothing is returned at the end of the input. */
    method Next() returns (r: Option<string>)
      modifies this
      ensures (r, input) == NextBlock(old(input), "", "")
    {
      var block: string := "";
      var line: string := "";
      while true
        invariant NextBlock(input, line, block) == NextBlock(old(input), "", "")
        decreases |input|
      {
        if input == "" {
          if |line| > 0 || |block| > 0 {
            assert block + [] == block;
            if |line| > 0 {
              block := block + line;
            }
            return Some(block);
          }
          return None;
        }
        var b := input[0];
        if b != LF && b != CR {
          line := line + [b];
          input := input[1..];
          continue;
        }
        if b == CR && |input| > 1 && input[1] == LF {
          input := input[2..];
        } else {
          input := input[1..];
        }
        if |line| == 0 {
          if |block| == 0 {
            continue;
          }
          return Some(block);
        }
        if |block| > 0 {
          block := block + [LF];
        }
        block := block + line;
        line := "";
      }
    }
  }

  // ------------------------------------------------------------------
  // The same by lines
  // ------------------------------------------------------------------

  /** The terminated lines of s, the first of them begun with `line`, and the unterminated rest. */
  function SplitFrom(s: string, line: string): (seq<string>, string)
    decreases |s|
  {
    if s == "" then ([], line)
    else if !EndsLine(s[0]) then SplitFrom(s[1..], line + [s[0]])
    else
      var (lines, tail) := SplitFrom(AfterEnd(s), "");
      ([line] + lines, tail)
  }

  function SplitLines(s: string): (seq<string>, string) { SplitFrom(s, "") }

  function Join(lines: seq<string>): string {
    if lines == [] then "" else if |lines| == 1 then lines[0] else lines[0] + [LF] + Join(lines[1..])
  }

  /** The non-empty lines lines starts with. */
  function Run(lines: seq<string>): (r: seq<string>)
    ensures |r| <= |lines| && r == lines[..|r|]
    ensures forall k | 0 <= k < |r| :: r[k] != ""
    ensures |r| < |lines| ==> lines[|r|] == ""
    ensures lines != [] && lines[0] != "" ==> r != []
  {
    if lines == [] || lines[0] == "" then [] else [lines[0]] + Run(lines[1..])
  }

  /** The maximal runs of non-empty lines. */
  function Groups(lines: seq<string>): seq<seq<string>>
    decreases |lines|
  {
    if lines == [] then []
    else if lines[0] == "" then Groups(lines[1..])
    else [Run(lines)] + Groups(lines[|Run(lines)|..])
  }

  function JoinAll(groups: seq<seq<string>>): seq<string> {
    if groups == [] then [] else [Join(groups[0])] + JoinAll(groups[1..])
  }

  /** The blocks that lines and an unterminated rest make, from within a block. */
  function BlocksOf(lines: seq<string>, tail: string, block: string): seq<string>
    decreases |lines|
  {
    if lines == [] then if block + tail == "" then [] else [block + tail]
    else if lines[0] != "" then
      BlocksOf(lines[1..], tail, (if block == "" then "" else block + [LF]) + lines[0])
    else (if block == "" then [] else [block]) + BlocksOf(lines[1..], tail, "")
  }

  function BlocksFrom(s: string, line: string, block: string): seq<string> {
    var (next, rest) := NextBlock(s, line, block);
    if next.None? then [] else [next.value] + AllBlocks(rest)
  }

  lemma {:induction false} BytesAreLines(s: string, line: string, block: string)
    ensures BlocksFrom(s, line, block) == BlocksOf(SplitFrom(s, line).0, SplitFrom(s, line).1, block)
    decreases |s|
  {
    if s == "" {
      assert AllBlocks("") == [];
      if line == "" && block == "" {
      } else {
        assert BlocksFrom(s, line, block) == [block + line] + [];
      }
    } else if !EndsLine(s[0]) {
      BytesAreLines(s[1..], line + [s[0]], block);
    } else {
      var rest := AfterEnd(s);
      var (lines, tail) := SplitFrom(rest, "");
      assert ([line] + lines)[1..] == lines;
      if line == "" {
        BytesAreLines(rest, "", "");
        assert BlocksFrom(rest, "", "") == AllBlocks(rest);
        if block == "" {
          assert [] + BlocksOf(lines, tail, "") == BlocksOf(lines, tail, "");
        }
      } else {
        BytesAreLines(rest, "", (if block == "" then "" else block + [LF]) + line);
      }
    }
  }

  lemma JoinSnoc(lines: seq<string>, line: string)
    ensures Join(lines + [line]) == if lines == [] then line else Join(lines) + [LF] + line
  {
    if |lines| == 0 {
      assert lines + [line] == [line];
    } else {
      assert (lines + [line])[1..] == lines[1..] + [line];
      JoinSnoc(lines[1..], line);
      if |lines| > 1 {
        assert lines[0] + [LF] + (Join(lines[1..]) + [LF] + line) == (lines[0] + [LF] + Join(lines[1..])) + [LF] + line;
      } else {
        assert lines[1..] == [];
      }
    }
  }

  lemma {:induction false} JoinOfRun(run: seq<string>)
    requires run != [] && forall k | 0 <= k < |run| :: run[k] != ""
    ensures Join(run) != ""
  {
  }

  /** Terminated lines, the block in progress being the run of lines before them. */
  lemma {:induction false} LinesAreRuns(run: seq<string>, lines: seq<string>)
    requires forall k | 0 <= k < |run| :: run[k] != ""
    ensures BlocksOf(lines, "", Join(run)) == JoinAll(Groups(run + lines))
    decreases |lines|
  {
    if run != [] {
      JoinOfRun(run);
    }
    if lines == [] {
      assert run + lines == run && Join(run) + "" == Join(run);
      OneGroup(run, []);
    } else if lines[0] != "" {
      JoinSnoc(run, lines[0]);
      assert "" + lines[0] == lines[0];
      assert (run + [lines[0]]) + lines[1..] == run + lines;
      LinesAreRuns(run + [lines[0]], lines[1..]);
    } else {
      LinesAreRuns([], lines[1..]);
      assert [] + lines[1..] == lines[1..];
      OneGroup(run, lines);
    }
  }

  /** A run before an empty line, or before the end, is a group of its own. */
  lemma {:induction false} OneGroup(run: seq<string>, lines: seq<string>)
    requires forall k | 0 <= k < |run| :: run[k] != ""
    requires lines == [] || lines[0] == ""
    ensures JoinAll(Groups(run + lines))
         == (if run == [] then [] else [Join(run)]) + JoinAll(Groups(if lines == [] then [] else lines[1..]))
  {
    RunOf(run, lines);
    var all := run + lines;
    if run == [] {
      assert all == lines;
      assert [] + JoinAll(Groups(if lines == [] then [] else lines[1..])) == JoinAll(Groups(if lines == [] then [] else lines[1..]));
    } else {
      assert all[0] == run[0] && all[|run|..] == lines;
      assert Groups(all) == [run] + Groups(lines);
      assert ([run] + Groups(lines))[1..] == Groups(lines);
    }
  }

  lemma {:induction false} RunOf(run: seq<string>, lines: seq<string>)
    requires forall k | 0 <= k < |run| :: run[k] != ""
    requires lines == [] || lines[0] == ""
    ensures Run(run + lines) == run
  {
    if run == [] {
      assert run + lines == lines;
    } else {
      assert (run + lines)[1..] == run[1..] + lines;
      RunOf(run[1..], lines);
    }
  }

  /** Every input: the byte loop returns the blocks its lines make, a rest without a line end being joined on as it is. */
  lemma ReadingIsByLines(s: string)
    ensures AllBlocks(s) == BlocksOf(SplitLines(s).0, SplitLines(s).1, "")
  {
    BytesAreLines(s, "", "");
  }

  /** Terminated input: the byte loop returns the maximal runs of non-empty lines. */
  lemma ReadingIsGrouping(s: string)
    requires SplitLines(s).1 == ""
    ensures AllBlocks(s) == JoinAll(Groups(SplitLines(s).0))
  {
    ReadingIsByLines(s);
    LinesAreRuns([], SplitLines(s).0);
    assert [] + SplitLines(s).0 == SplitLines(s).0;
  }

  predicate TailStandsAlone(lines: seq<string>, tail: string, block: string) {
    tail == "" || (if lines == [] then block == "" else lines[|lines| - 1] == "")
  }

  lemma {:induction false} TailJoined(lines: seq<string>, tail: string, block: string)
    ensures BlocksOf(lines, tail, block) == BlocksOf(lines + [tail], "", block) <==> TailStandsAlone(lines, tail, block)
    decreases |lines|
  {
    if lines == [] {
      assert lines + [tail] == [tail] && [tail][1..] == [];
      if tail == "" {
        assert block + "" == block && [block] + [] == [block];
      } else {
        var joined := (if block == "" then "" else block + [LF]) + tail;
        assert joined + "" == joined;
        assert BlocksOf([tail], "", block) == BlocksOf([], "", joined) == [joined];
        assert |joined| == if block == "" then |tail| else |block + tail| + 1;
        assert block == "" ==> joined == block + tail;
      }
    } else {
      assert (lines + [tail])[1..] == lines[1..] + [tail];
      var next := if lines[0] != "" then (if block == "" then "" else block + [LF]) + lines[0] else "";
      TailJoined(lines[1..], tail, next);
      if lines[0] == "" {
        var first := if block == "" then [] else [block];
        var a, b := BlocksOf(lines[1..], tail, ""), BlocksOf(lines[1..] + [tail], "", "");
        assert (first + a)[|first|..] == a && (first + b)[|first|..] == b;
      }
    }
  }

  /**
   For every input: a rest without a line end is read as one more line exactly when
   it is empty, or nothing but an empty line or nothing at all comes before it.
   Otherwise it is joined to the line before it without a line end between them.
   */
  lemma UnterminatedIff(s: string)
    ensures
      var (lines, tail) := SplitLines(s);
      AllBlocks(s) == JoinAll(Groups(lines + [tail])) <==> tail == "" || lines == [] || lines[|lines| - 1] == ""
  {
    var (lines, tail) := SplitLines(s);
    ReadingIsByLines(s);
    TailJoined(lines, tail, "");
    LinesAreRuns([], lines + [tail]);
    assert [] + (lines + [tail]) == lines + [tail];
  }

  // ------------------------------------------------------------------
  // Line ends
  // ------------------------------------------------------------------

  datatype LineEnd = Lf | Cr | CrLf

  function EndText(end: LineEnd): string {
    match end case Lf => [LF] case Cr => [CR] case CrLf => [CR, LF]
  }

  predicate IsLine(line: string) {
    forall k | 0 <= k < |line| :: !EndsLine(line[k])
  }

  predicate AreLines(lines: seq<string>) {
    forall k | 0 <= k < |lines| :: IsLine(lines[k])
  }

  function PrintLines(lines: seq<string>, ends: seq<LineEnd>): string
    requires |ends| == |lines|
  {
    if lines == [] then "" else lines[0] + EndText(ends[0]) + PrintLines(lines[1..], ends[1..])
  }

  /** No CR is followed at once by the LF of an empty line: those two would be one line end. */
  predicate Distinct(lines: seq<string>, ends: seq<LineEnd>)
    requires |ends| == |lines|
  {
    forall k | 0 <= k < |lines| - 1 :: !(ends[k] == Cr && lines[k + 1] == "" && ends[k + 1] == Lf)
  }

  lemma {:induction false} SplitLine(line: string, rest: string, begun: string)
    requires IsLine(line)
    ensures SplitFrom(line + rest, begun) == SplitFrom(rest, begun + line)
    decreases |line|
  {
    if line == "" {
      assert line + rest == rest && begun + line == begun;
    } else {
      assert (line + rest)[0] == line[0] && (line + rest)[1..] == line[1..] + rest;
      assert begun + line == (begun + [line[0]]) + line[1..];
      SplitLine(line[1..], rest, begun + [line[0]]);
    }
  }

  lemma EndSplits(end: LineEnd, rest: string)
    requires end == Cr ==> rest == "" || rest[0] != LF
    ensures (EndText(end) + rest) != "" && EndsLine((EndText(end) + rest)[0]) && AfterEnd(EndText(end) + rest) == rest
  {
    assert [CR][0] == CR;
    if end == CrLf {
      assert ([CR, LF] + rest)[2..] == rest;
    } else {
      assert (EndText(end) + rest)[1..] == rest;
    }
  }

  lemma PrintedFirst(lines: seq<string>, ends: seq<LineEnd>)
    requires |ends| == |lines| && AreLines(lines)
    ensures
      var s := PrintLines(lines, ends);
      s == "" || s[0] != LF || (lines != [] && lines[0] == "" && ends[0] == Lf)
  {
    if lines != [] && lines[0] != "" {
      assert IsLine(lines[0]);
      assert PrintLines(lines, ends)[0] == lines[0][0];
    }
  }

  lemma DistinctRest(lines: seq<string>, ends: seq<LineEnd>)
    requires |ends| == |lines| > 0 && AreLines(lines) && Distinct(lines, ends)
    ensures Distinct(lines[1..], ends[1..])
    ensures
      var rest := PrintLines(lines[1..], ends[1..]);
      ends[0] == Cr ==> rest == "" || rest[0] != LF
  {
    PrintedFirst(lines[1..], ends[1..]);
    forall k | 0 <= k < |lines[1..]| - 1
      ensures !(ends[1..][k] == Cr && lines[1..][k + 1] == "" && ends[1..][k + 1] == Lf)
    {
      assert lines[1..][k + 1] == lines[k + 2] && ends[1..][k] == ends[k + 1];
    }
    if lines[1..] != [] {
      assert lines[1..][0] == lines[1] && ends[1..][0] == ends[1];
    }
  }

  /** Splitting undoes printing, whichever line ends are used. */
  lemma {:induction false} LinesComeBack(lines: seq<string>, ends: seq<LineEnd>)
    requires |ends| == |lines| && AreLines(lines) && Distinct(lines, ends)
    ensures SplitLines(PrintLines(lines, ends)) == (lines, "")
    decreases |lines|
  {
    if lines != [] {
      var rest := PrintLines(lines[1..], ends[1..]);
      assert AreLines(lines[1..]);
      DistinctRest(lines, ends);
      LinesComeBack(lines[1..], ends[1..]);
      EndSplits(ends[0], rest);
      assert IsLine(lines[0]);
      SplitLine(lines[0], EndText(ends[0]) + rest, "");
      assert lines[0] + EndText(ends[0]) + rest == lines[0] + (EndText(ends[0]) + rest);
      assert "" + lines[0] == lines[0];
      assert [lines[0]] + lines[1..] == lines;
    }
  }

  /** The reader sees the same blocks whether all lines end with LF, all with CR or all with CR LF, or in a mix that stays distinct. */
  lemma LineEndsDoNotMatter(lines: seq<string>, ends: seq<LineEnd>)
    requires |ends| == |lines| && AreLines(lines) && Distinct(lines, ends)
    ensures AllBlocks(PrintLines(lines, ends)) == JoinAll(Groups(lines))
  {
    LinesComeBack(lines, ends);
    ReadingIsGrouping(PrintLines(lines, ends));
  }

  // ------------------------------------------------------------------
  // Frames
  // ------------------------------------------------------------------

  datatype SSEFrame = SSEFrame(event: string, data: string, id: string, retry: int)

  const NO_FRAME := SSEFrame("", "", "", 0)

  /** strings.Split(s, "\n"), the first part begun with `part`. */
  function SplitParts(s: string, part: string): (r: seq<string>)
    ensures r != []
    decreases |s|
  {
    if s == "" then [part]
    else if s[0] == LF then [part] + SplitParts(s[1..], "")
    else SplitParts(s[1..], part + [s[0]])
  }

  function TrimSuffix(line: string): string {
    if line != "" && line[|line| - 1] == CR then line[..|line| - 1] else line
  }

  /** The field before the first colon, and what follows it without one leading space. */
  function CutField(line: string, field: string): (string, string)
    decreases |line|
  {
    if line == "" then (field, "")
    else if line[0] == ':' then (field, if |line| > 1 && line[1] == ' ' then line[2..] else line[1..])
    else CutField(line[1..], field + [line[0]])
  }

  function DigitsValue(s: string): Option<int> {
    if s == "" then Some(0)
    else
      var front := DigitsValue(s[..|s| - 1]);
      var last := s[|s| - 1];
      if front.Some? && '0' <= last <= '9' then Some(front.value * 10 + (last as int - '0' as int)) else None
  }

  /** strconv.Atoi: an optional sign and digits that make a 64-bit integer. */
  function Atoi(s: string): Option<int> {
    var signed := s != "" && (s[0] == '+' || s[0] == '-');
    var digits := if signed then s[1..] else s;
    if digits == "" then None
    else match DigitsValue(digits)
      case None => None
      case Some(n) =>
        var v := if signed && s[0] == '-' then -n else n;
        if -0x8000_0000_0000_0000 <= v < 0x8000_0000_0000_0000 then Some(v) else None
  }

  /** The lines of a frame, from the fields and data lines found so far. */
  function ParseFrom(lines: seq<string>, frame: SSEFrame, data: seq<string>): Option<SSEFrame> {
    if lines == [] then Some(frame.(data := Join(data)))
    else
      var line := TrimSuffix(lines[0]);
      if line == "" || line[0] == ':' then ParseFrom(lines[1..], frame, data)
      else
        var (field, value) := CutField(line, "");
        if field == "event" then ParseFrom(lines[1..], frame.(event := value), data)
        else if field == "data" then ParseFrom(lines[1..], frame, data + [value])
        else if field == "id" then ParseFrom(lines[1..], frame.(id := value), data)
        else if field == "retry" then
          if Atoi(value).None? then None else ParseFrom(lines[1..], frame.(retry := Atoi(value).value), data)
        else ParseFrom(lines[1..], frame, data)
  }

  function Parse(raw: string): Option<SSEFrame> { ParseFrom(SplitParts(raw, ""), NO_FRAME, []) }

  /** None is the error for a retry that is no number. */
  method ParseSSEFrame(raw: string) returns (r: Option<SSEFrame>)
    ensures r == Parse(raw)
  {
    var frame := NO_FRAME;
    var data: seq<string> := [];
    var lines := SplitParts(raw, "");
    for n := 0 to |lines|
      invariant ParseFrom(lines[n..], frame, data) == Parse(raw)
    {
      assert lines[n..][1..] == lines[n + 1..];
      var line := TrimSuffix(lines[n]);
      if line == "" || line[0] == ':' {
        continue;
      }
      var (field, value) := CutField(line, "");
      if field == "event" {
        frame := frame.(event := value);
      } else if field == "data" {
        data := data + [value];
      } else if field == "id" {
        frame := frame.(id := value);
      } else if field == "retry" {
        var retry := Atoi(value);
        if retry.None? {
          return None;
        }
        frame := frame.(retry := retry.value);
      }
    }
    frame := frame.(data := Join(data));
    return Some(frame);
  }

  // ------------------------------------------------------------------
  // What the endpoints write comes back
  // ------------------------------------------------------------------

  /** A frame as the endpoints write it: with an event line or without one. */
  datatype Written = Written(event: Option<string>, data: string)

  function FrameText(f: Written): seq<string> {
    (if f.event.Some? then ["event: " + f.event.value] else []) + ["data: " + f.data]
  }

  function PrintFrame(f: Written): string {
    (if f.event.Some? then "event: " + f.event.value + "\n" else "") + "data: " + f.data + "\n\n"
  }

  function PrintFrames(fs: seq<Written>): string {
    if fs == [] then "" else PrintFrame(fs[0]) + PrintFrames(fs[1..])
  }

  /** Marshalled JSON and event names hold no line ends. */
  predicate Printable(f: Written) {
    IsLine(f.data) && (f.event.Some? ==> IsLine(f.event.value))
  }

  function ParseAll(blocks: seq<string>): seq<Option<SSEFrame>> {
    if blocks == [] then [] else [Parse(blocks[0])] + ParseAll(blocks[1..])
  }

  function AsRead(fs: seq<Written>): seq<Option<SSEFrame>> {
    if fs == [] then []
    else [Some(NO_FRAME.(event := if fs[0].event.Some? then fs[0].event.value else "", data := fs[0].data))] + AsRead(fs[1..])
  }

  function Lfs(n: nat): seq<LineEnd> {
    if n == 0 then [] else [Lf] + Lfs(n - 1)
  }

  lemma {:induction false} LfsLength(n: nat)
    ensures |Lfs(n)| == n && forall k | 0 <= k < n :: Lfs(n)[k] == Lf
  {
    if n > 0 {
      LfsLength(n - 1);
    }
  }

  function AllLines(fs: seq<Written>): seq<string> {
    if fs == [] then [] else FrameText(fs[0]) + [""] + AllLines(fs[1..])
  }

  /** The lines of the frames, each ended by LF. */
  function PrintLf(lines: seq<string>): string {
    if lines == [] then "" else lines[0] + [LF] + PrintLf(lines[1..])
  }

  lemma {:induction false} PrintLfIsPrint(lines: seq<string>)
    ensures |Lfs(|lines|)| == |lines| && PrintLf(lines) == PrintLines(lines, Lfs(|lines|))
  {
    LfsLength(|lines|);
    if lines != [] {
      LfsLength(|lines| - 1);
      PrintLfIsPrint(lines[1..]);
      assert Lfs(|lines|)[1..] == Lfs(|lines| - 1);
    }
  }

  lemma {:induction false} PrintLfConcat(a: seq<string>, b: seq<string>)
    ensures PrintLf(a + b) == PrintLf(a) + PrintLf(b)
  {
    if a == [] {
      assert a + b == b;
    } else {
      assert (a + b)[1..] == a[1..] + b;
      PrintLfConcat(a[1..], b);
      assert a[0] + [LF] + (PrintLf(a[1..]) + PrintLf(b)) == (a[0] + [LF] + PrintLf(a[1..])) + PrintLf(b);
    }
  }

  lemma PrintLfOne(line: string)
    ensures PrintLf([line]) == line + [LF]
  {
    assert [line][1..] == [];
  }

  lemma FrameIsLines(f: Written)
    ensures PrintFrame(f) == PrintLf(FrameText(f) + [""])
  {
    var data := "data: " + f.data;
    PrintLfOne(data);
    PrintLfOne("");
    PrintLfConcat([data], [""]);
    assert "\n\n" == [LF] + ("" + [LF]);
    assert data + [LF] + ("" + [LF]) == data + "\n\n";
    if f.event.Some? {
      var event := "event: " + f.event.value;
      PrintLfOne(event);
      PrintLfConcat([event], [data] + [""]);
      assert FrameText(f) + [""] == [event] + ([data] + [""]);
      assert (event + "\n") + (data + "\n\n") == event + "\n" + "data: " + f.data + "\n\n";
    } else {
      assert FrameText(f) + [""] == [data] + [""];
      assert "" + "data: " + f.data + "\n\n" == data + "\n\n";
    }
  }

  lemma {:induction false} FramesAreLines(fs: seq<Written>)
    ensures PrintFrames(fs) == PrintLf(AllLines(fs))
  {
    if fs != [] {
      FrameIsLines(fs[0]);
      FramesAreLines(fs[1..]);
      PrintLfConcat(FrameText(fs[0]) + [""], AllLines(fs[1..]));
    }
  }

  lemma FrameTextIsLines(f: Written)
    requires Printable(f)
    ensures AreLines(FrameText(f)) && forall k | 0 <= k < |FrameText(f)| :: FrameText(f)[k] != ""
  {
  }

  lemma {:induction false} AllLinesAreLines(fs: seq<Written>)
    requires forall f | f in fs :: Printable(f)
    ensures AreLines(AllLines(fs))
  {
    if fs != [] {
      assert fs[0] in fs && forall f | f in fs[1..] :: f in fs;
      FrameTextIsLines(fs[0]);
      AllLinesAreLines(fs[1..]);
    }
  }

  function Texts(fs: seq<Written>): seq<string> {
    if fs == [] then [] else [Join(FrameText(fs[0]))] + Texts(fs[1..])
  }

  lemma {:induction false} FramesAreGroups(fs: seq<Written>)
    requires forall f | f in fs :: Printable(f)
    ensures JoinAll(Groups(AllLines(fs))) == Texts(fs)
  {
    if fs != [] {
      assert fs[0] in fs && forall f | f in fs[1..] :: f in fs;
      FrameTextIsLines(fs[0]);
      FramesAreGroups(fs[1..]);
      var rest := [""] + AllLines(fs[1..]);
      assert AllLines(fs) == FrameText(fs[0]) + rest && rest[1..] == AllLines(fs[1..]);
      OneGroup(FrameText(fs[0]), rest);
    }
  }

  lemma {:induction false} SplitPart(line: string, rest: string, part: string)
    requires IsLine(line)
    ensures SplitParts(line + rest, part) == SplitParts(rest, part + line)
    decreases |line|
  {
    if line == "" {
      assert line + rest == rest && part + line == part;
    } else {
      assert (line + rest)[0] == line[0] && (line + rest)[1..] == line[1..] + rest;
      assert part + line == (part + [line[0]]) + line[1..];
      SplitPart(line[1..], rest, part + [line[0]]);
    }
  }

  lemma {:induction false} PartsComeBack(lines: seq<string>)
    requires lines != [] && AreLines(lines)
    ensures SplitParts(Join(lines), "") == lines
  {
    assert IsLine(lines[0]);
    assert "" + lines[0] == lines[0];
    if |lines| == 1 {
      assert lines[0] + "" == lines[0];
      SplitPart(lines[0], "", "");
      assert lines == [lines[0]];
    } else {
      var rest := [LF] + Join(lines[1..]);
      assert Join(lines) == lines[0] + rest;
      SplitPart(lines[0], rest, "");
      assert rest[1..] == Join(lines[1..]);
      assert AreLines(lines[1..]);
      PartsComeBack(lines[1..]);
      assert [lines[0]] + lines[1..] == lines;
    }
  }

  lemma {:induction false} FieldCut(field: string, value: string, begun: string)
    requires forall k | 0 <= k < |field| :: field[k] != ':'
    ensures CutField(field + ": " + value, begun) == (begun + field, value)
    decreases |field|
  {
    var line := field + ": " + value;
    if field == "" {
      assert line == ": " + value && line[2..] == value && begun + field == begun;
    } else {
      assert line[1..] == field[1..] + ": " + value;
      assert begun + field == (begun + [field[0]]) + field[1..];
      FieldCut(field[1..], value, begun + [field[0]]);
    }
  }

  lemma FieldLine(field: string, value: string)
    requires field == "event" || field == "data"
    requires IsLine(value)
    ensures
      var line := field + ": " + value;
      && TrimSuffix(line) == line && line != "" && line[0] != ':' && IsLine(line)
      && CutField(line, "") == (field, value)
  {
    var line := field + ": " + value;
    FieldCut(field, value, "");
    assert "" + field == field;
    if value != "" {
      assert line[|line| - 1] == value[|value| - 1];
    } else {
      assert line[|line| - 1] == ' ';
    }
  }

  lemma DataParsed(frame: SSEFrame, data: string)
    requires IsLine(data)
    ensures ParseFrom(["data: " + data], frame, []) == Some(frame.(data := data))
  {
    FieldLine("data", data);
    var line := "data: " + data;
    assert line == "data" + ": " + data;
    assert [line][1..] == [] && [] + [data] == [data];
    assert ParseFrom([], frame, [data]) == Some(frame.(data := data));
  }

  lemma FrameParsed(f: Written)
    requires Printable(f)
    ensures Parse(Join(FrameText(f)))
         == Some(NO_FRAME.(event := if f.event.Some? then f.event.value else "", data := f.data))
  {
    FrameTextIsLines(f);
    PartsComeBack(FrameText(f));
    if f.event.Some? {
      var line := "event: " + f.event.value;
      FieldLine("event", f.event.value);
      assert line == "event" + ": " + f.event.value;
      assert FrameText(f)[0] == line && FrameText(f)[1..] == ["data: " + f.data];
      DataParsed(NO_FRAME.(event := f.event.value), f.data);
    } else {
      assert FrameText(f) == ["data: " + f.data];
      DataParsed(NO_FRAME, f.data);
    }
  }

  lemma {:induction false} FramesParsed(fs: seq<Written>)
    requires forall f | f in fs :: Printable(f)
    ensures ParseAll(Texts(fs)) == AsRead(fs)
  {
    if fs != [] {
      assert fs[0] in fs && forall f | f in fs[1..] :: f in fs;
      FrameParsed(fs[0]);
      FramesParsed(fs[1..]);
      assert Texts(fs)[1..] == Texts(fs[1..]);
    }
  }

  /** Reading back any frames the endpoints print gives the same events and data, in the same order. */
  lemma FramesComeBack(fs: seq<Written>)
    requires forall f | f in fs :: Printable(f)
    ensures ParseAll(AllBlocks(PrintFrames(fs))) == AsRead(fs)
  {
    var lines := AllLines(fs);
    FramesAreLines(fs);
    PrintLfIsPrint(lines);
    LfsLength(|lines|);
    AllLinesAreLines(fs);
    LineEndsDoNotMatter(lines, Lfs(|lines|));
    FramesAreGroups(fs);
    FramesParsed(fs);
  }
}
