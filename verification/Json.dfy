/**
 JSON texts after section 2 of RFC 8259, as trees with the white space and the
 spelling they were written with, and why no part of an object's text that
 starts it and stops early is itself a JSON text.
 */
module Json {

  datatype Value =
    | Token(text: string)                  // true, false, null or a number
    | Str(body: string)                    // what stands between the quotes
    | EmptyArray(w: string)
    | Array(items: Items)
    | EmptyObject(w: string)
    | Object(members: Members)

  datatype Items =
    | LastItem(before: string, value: Value, after: string)
    | MoreItems(before: string, value: Value, after: string, rest: Items)

  datatype Members =
    | LastMember(before: string, key: string, mid: string, afterColon: string, value: Value, after: string)
    | MoreMembers(before: string, key: string, mid: string, afterColon: string, value: Value, after: string, rest: Members)

  predicate IsBlank(c: char) { c == ' ' || c == '\t' || c == '\n' || c == '\r' }

  predicate Blank(s: string) { forall i | 0 <= i < |s| :: IsBlank(s[i]) }

  predicate IsDigit(c: char) { '0' <= c <= '9' }

  predicate Digits(s: string) { s != "" && forall i | 0 <= i < |s| :: IsDigit(s[i]) }

  predicate IsHex(c: char) { IsDigit(c) || 'a' <= c <= 'f' || 'A' <= c <= 'F' }

  /** An optional fraction: nothing, or a point and digits. */
  predicate Fraction(s: string) { s == "" || (s[0] == '.' && Digits(s[1..])) }

  predicate Exponent(s: string) {
    s == "" || ((s[0] == 'e' || s[0] == 'E')
                && (Digits(s[1..]) || (|s| > 1 && (s[1] == '+' || s[1] == '-') && Digits(s[2..]))))
  }

  predicate Whole(s: string) { Digits(s) && (s[0] == '0' ==> |s| == 1) }

  ghost predicate IsNumber(s: string) {
    exists minus: string, whole: string, fraction: string, exponent: string ::
      && (minus == "" || minus == "-") && Whole(whole) && Fraction(fraction) && Exponent(exponent)
      && s == minus + whole + fraction + exponent
  }

  /** The characters of a string: no quote, backslash or control character but in an escape. */
  predicate StringBody(s: string) {
    if s == "" then true
    else if s[0] == '\\' then
      |s| >= 2 &&
      if s[1] == 'u' then
        |s| >= 6 && IsHex(s[2]) && IsHex(s[3]) && IsHex(s[4]) && IsHex(s[5]) && StringBody(s[6..])
      else s[1] in "\"\\/bfnrt" && StringBody(s[2..])
    else s[0] != '"' && s[0] >= ' ' && StringBody(s[1..])
  }

  ghost predicate ValueOk(v: Value) {
    match v
    case Token(text) => text == "true" || text == "false" || text == "null" || IsNumber(text)
    case Str(body) => StringBody(body)
    case EmptyArray(w) => Blank(w)
    case Array(items) => ItemsOk(items)
    case EmptyObject(w) => Blank(w)
    case Object(members) => MembersOk(members)
  }

  ghost predicate ItemsOk(items: Items) {
    && Blank(items.before) && ValueOk(items.value) && Blank(items.after)
    && (items.MoreItems? ==> ItemsOk(items.rest))
  }

  ghost predicate MembersOk(m: Members) {
    && Blank(m.before) && StringBody(m.key) && Blank(m.mid) && Blank(m.afterColon) && ValueOk(m.value) && Blank(m.after)
    && (m.MoreMembers? ==> MembersOk(m.rest))
  }

  function Text(v: Value): string {
    match v
    case Token(text) => text
    case Str(body) => "\"" + body + "\""
    case EmptyArray(w) => "[" + w + "]"
    case Array(items) => "[" + ItemsText(items) + "]"
    case EmptyObject(w) => "{" + w + "}"
    case Object(members) => "{" + MembersText(members) + "}"
  }

  function ItemsText(items: Items): string {
    items.before + Text(items.value) + items.after + if items.MoreItems? then "," + ItemsText(items.rest) else ""
  }

  function MembersText(m: Members): string {
    m.before + ("\"" + m.key + "\"") + m.mid + ":" + m.afterColon + Text(m.value) + m.after
    + if m.MoreMembers? then "," + MembersText(m.rest) else ""
  }

  /** A JSON text: a value with white space around it. */
  ghost predicate JsonText(s: string) {
    exists before, v, after :: Blank(before) && ValueOk(v) && Blank(after) && s == before + Text(v) + after
  }

  /** The text of an object, without white space around it. */
  ghost predicate ObjectText(s: string) {
    exists v :: ValueOk(v) && (v.Object? || v.EmptyObject?) && s == Text(v)
  }

  // ------------------------------------------------------------------
  // Nesting
  // ------------------------------------------------------------------

  /** Where a scanner stands: how many brackets are open, and whether it is in a string or behind a backslash in one. */
  datatype Scan = Outside(depth: int) | Inside(depth: int) | Escaped(depth: int)

  function Step(st: Scan, c: char): Scan {
    match st
    case Escaped(d) => Inside(d)
    case Inside(d) => if c == '\\' then Escaped(d) else if c == '"' then Outside(d) else st
    case Outside(d) =>
      if c == '"' then Inside(d)
      else if c == '{' || c == '[' then Outside(d + 1)
      else if c == '}' || c == ']' then Outside(d - 1)
      else st
  }

  function Run(st: Scan, s: string): Scan
    decreases |s|
  {
    if s == "" then st else Run(Step(st, s[0]), s[1..])
  }

  /** Scanning s from st never gets below depth k. */
  predicate Above(st: Scan, s: string, k: int)
    decreases |s|
  {
    st.depth >= k && (s != "" ==> Above(Step(st, s[0]), s[1..], k))
  }

  /** Scanning s at depth d outside strings comes back there and never gets below. */
  predicate Balanced(s: string, d: int) {
    Run(Outside(d), s) == Outside(d) && Above(Outside(d), s, d)
  }

  lemma {:induction false} RunConcat(st: Scan, a: string, b: string, k: int)
    ensures Run(st, a + b) == Run(Run(st, a), b)
    ensures Above(st, a + b, k) <==> Above(st, a, k) && Above(Run(st, a), b, k)
    decreases |a|
  {
    if a == "" {
      assert a + b == b;
      AboveStarts(st, b, k);
    } else {
      assert (a + b)[1..] == a[1..] + b;
      RunConcat(Step(st, a[0]), a[1..], b, k);
    }
  }

  lemma AboveStarts(st: Scan, s: string, k: int)
    ensures Above(st, s, k) ==> st.depth >= k
  {
  }

  lemma BalancedConcat(a: string, b: string, d: int)
    requires Balanced(a, d) && Balanced(b, d)
    ensures Balanced(a + b, d)
  {
    RunConcat(Outside(d), a, b, d);
  }

  predicate IsPlain(c: char) { c != '"' && c != '{' && c != '[' && c != '}' && c != ']' }

  lemma {:induction false} PlainIsBalanced(s: string, d: int)
    requires forall i | 0 <= i < |s| :: IsPlain(s[i])
    ensures Balanced(s, d)
    decreases |s|
  {
    if s != "" {
      assert IsPlain(s[0]);
      forall i | 0 <= i < |s[1..]| ensures IsPlain(s[1..][i]) {
        assert IsPlain(s[i + 1]);
      }
      PlainIsBalanced(s[1..], d);
    }
  }

  lemma BlankIsBalanced(w: string, d: int)
    requires Blank(w)
    ensures Balanced(w, d)
  {
    forall i | 0 <= i < |w| ensures IsPlain(w[i]) {
      assert IsBlank(w[i]);
    }
    PlainIsBalanced(w, d);
  }

  lemma TokenIsBalanced(text: string, d: int)
    requires ValueOk(Token(text))
    ensures Balanced(text, d)
  {
    forall i | 0 <= i < |text| ensures IsPlain(text[i]) {
      if IsNumber(text) {
        NumberIsPlain(text, i);
      }
    }
    PlainIsBalanced(text, d);
  }

  lemma NumberIsPlain(text: string, i: nat)
    requires IsNumber(text) && i < |text|
    ensures IsPlain(text[i])
  {
    var minus: string, whole: string, fraction: string, exponent: string :|
      && (minus == "" || minus == "-") && Whole(whole) && Fraction(fraction) && Exponent(exponent)
      && text == minus + whole + fraction + exponent;
    var j := i - |minus| - |whole|;
    if i >= |minus| && j < 0 {
      assert IsDigit(whole[i - |minus|]);
    } else if 0 <= j < |fraction| {
      assert j > 0 ==> IsDigit(fraction[1..][j - 1]);
    } else if j >= |fraction| {
      var k := j - |fraction|;
      assert k > 1 ==> exponent[k] == exponent[1..][k - 1] == exponent[2..][k - 2];
    }
  }

  lemma {:induction false} BodyStaysInside(body: string, d: int)
    requires StringBody(body)
    ensures Run(Inside(d), body) == Inside(d) && Above(Inside(d), body, d)
    decreases |body|
  {
    if body == "" {
    } else if body[0] == '\\' {
      var n := if body[1] == 'u' then 6 else 2;
      assert body == body[..n] + body[n..];
      EscapeStaysInside(body[..n], d);
      RunConcat(Inside(d), body[..n], body[n..], d);
      BodyStaysInside(body[n..], d);
    } else {
      BodyStaysInside(body[1..], d);
    }
  }

  lemma EscapeStaysInside(e: string, d: int)
    requires |e| >= 2 && e[0] == '\\' && forall i | 2 <= i < |e| :: IsHex(e[i])
    ensures Run(Inside(d), e) == Inside(d) && Above(Inside(d), e, d)
  {
    var rest := e[2..];
    assert e[1..][1..] == rest;
    forall i | 0 <= i < |rest| ensures IsHex(rest[i]) {
      assert IsHex(e[i + 2]);
    }
    HexStaysInside(rest, d);
    assert Run(Escaped(d), e[1..]) == Run(Inside(d), rest);
    assert Above(Escaped(d), e[1..], d);
  }

  lemma {:induction false} HexStaysInside(s: string, d: int)
    requires forall i | 0 <= i < |s| :: IsHex(s[i])
    ensures Run(Inside(d), s) == Inside(d) && Above(Inside(d), s, d)
    decreases |s|
  {
    if s != "" {
      assert IsHex(s[0]);
      forall i | 0 <= i < |s[1..]| ensures IsHex(s[1..][i]) {
        assert IsHex(s[i + 1]);
      }
      HexStaysInside(s[1..], d);
    }
  }

  lemma QuotedIsBalanced(body: string, d: int)
    requires StringBody(body)
    ensures Balanced("\"" + body + "\"", d)
  {
    BodyStaysInside(body, d);
    RunConcat(Inside(d), body, "\"", d);
    var s := "\"" + body + "\"";
    assert s[1..] == body + "\"";
    assert "\""[1..] == "";
  }

  /** Brackets around something balanced one level deeper. */
  lemma BracketsAreBalanced(open: char, inner: string, close: char, d: int)
    requires (open == '{' || open == '[') && (close == '}' || close == ']')
    requires Balanced(inner, d + 1)
    ensures Balanced([open] + inner + [close], d)
  {
    var s := [open] + inner + [close];
    assert s[1..] == inner + [close];
    RunConcat(Outside(d + 1), inner, [close], d);
    AboveWeaker(Outside(d + 1), inner, d + 1, d);
    assert [close][1..] == "";
  }

  lemma {:induction false} AboveWeaker(st: Scan, s: string, k: int, j: int)
    requires Above(st, s, k) && j <= k
    ensures Above(st, s, j)
    decreases |s|
  {
    if s != "" {
      AboveWeaker(Step(st, s[0]), s[1..], k, j);
    }
  }

  lemma {:induction false} ValueIsBalanced(v: Value, d: int)
    requires ValueOk(v)
    ensures Balanced(Text(v), d)
    decreases v
  {
    match v
    case Token(text) => TokenIsBalanced(text, d);
    case Str(body) => QuotedIsBalanced(body, d);
    case EmptyArray(w) => BlankIsBalanced(w, d + 1); BracketsAreBalanced('[', w, ']', d);
    case Array(items) => ItemsAreBalanced(items, d + 1); BracketsAreBalanced('[', ItemsText(items), ']', d);
    case EmptyObject(w) => BlankIsBalanced(w, d + 1); BracketsAreBalanced('{', w, '}', d);
    case Object(members) => MembersAreBalanced(members, d + 1); BracketsAreBalanced('{', MembersText(members), '}', d);
  }

  lemma {:induction false} ItemsAreBalanced(items: Items, d: int)
    requires ItemsOk(items)
    ensures Balanced(ItemsText(items), d)
    decreases items
  {
    BlankIsBalanced(items.before, d);
    ValueIsBalanced(items.value, d);
    BlankIsBalanced(items.after, d);
    BalancedConcat(items.before, Text(items.value), d);
    var s := items.before + Text(items.value);
    BalancedConcat(s, items.after, d);
    if items.MoreItems? {
      PlainIsBalanced(",", d);
      ItemsAreBalanced(items.rest, d);
      BalancedConcat(",", ItemsText(items.rest), d);
      BalancedConcat(s + items.after, "," + ItemsText(items.rest), d);
    } else {
      assert ItemsText(items) == s + items.after;
    }
  }

  lemma {:induction false} MembersAreBalanced(m: Members, d: int)
    requires MembersOk(m)
    ensures Balanced(MembersText(m), d)
    decreases m
  {
    var s0 := m.before + ("\"" + m.key + "\"");
    BlankIsBalanced(m.before, d);
    QuotedIsBalanced(m.key, d);
    BalancedConcat(m.before, "\"" + m.key + "\"", d);
    BlankIsBalanced(m.mid, d);
    BalancedConcat(s0, m.mid, d);
    PlainIsBalanced(":", d);
    BalancedConcat(s0 + m.mid, ":", d);
    BlankIsBalanced(m.afterColon, d);
    BalancedConcat(s0 + m.mid + ":", m.afterColon, d);
    ValueIsBalanced(m.value, d);
    var s1 := s0 + m.mid + ":" + m.afterColon;
    BalancedConcat(s1, Text(m.value), d);
    BlankIsBalanced(m.after, d);
    BalancedConcat(s1 + Text(m.value), m.after, d);
    if m.MoreMembers? {
      PlainIsBalanced(",", d);
      MembersAreBalanced(m.rest, d);
      BalancedConcat(",", MembersText(m.rest), d);
      BalancedConcat(s1 + Text(m.value) + m.after, "," + MembersText(m.rest), d);
    } else {
      assert MembersText(m) == s1 + Text(m.value) + m.after;
    }
  }

  // ------------------------------------------------------------------
  // No early stop
  // ------------------------------------------------------------------

  lemma JsonTextIsBalanced(s: string)
    requires JsonText(s)
    ensures Run(Outside(0), s) == Outside(0)
  {
    var before, v, after :| Blank(before) && ValueOk(v) && Blank(after) && s == before + Text(v) + after;
    BlankIsBalanced(before, 0);
    ValueIsBalanced(v, 0);
    BlankIsBalanced(after, 0);
    BalancedConcat(before, Text(v), 0);
    BalancedConcat(before + Text(v), after, 0);
  }

  /** An object's text is a brace, something balanced, and a brace. */
  lemma ObjectShape(s: string) returns (inner: string)
    requires ObjectText(s)
    ensures s == "{" + inner + "}" && Balanced(inner, 1)
  {
    var v :| ValueOk(v) && (v.Object? || v.EmptyObject?) && s == Text(v);
    if v.EmptyObject? {
      BlankIsBalanced(v.w, 1);
      inner := v.w;
    } else {
      MembersAreBalanced(v.members, 1);
      inner := MembersText(v.members);
    }
  }

  lemma PartIsDeep(inner: string, n: nat, d: int)
    requires Balanced(inner, d) && n <= |inner|
    ensures Run(Outside(d), inner[..n]).depth >= d
  {
    assert inner == inner[..n] + inner[n..];
    RunConcat(Outside(d), inner[..n], inner[n..], d);
    AboveStarts(Run(Outside(d), inner[..n]), inner[n..], d);
  }

  lemma AfterBrace(part: string)
    ensures Run(Outside(0), "{" + part) == Run(Outside(1), part)
  {
    assert ("{" + part)[1..] == part;
  }

  /** Part of an object's text that starts it and stops before its end is no JSON text. */
  lemma NoEarlyStop(s: string, n: nat)
    requires ObjectText(s) && 0 < n < |s|
    ensures !JsonText(s[..n])
  {
    var inner := ObjectShape(s);
    PartIsDeep(inner, n - 1, 1);
    AfterBrace(inner[..n - 1]);
    assert s[..n] == "{" + inner[..n - 1];
    if JsonText(s[..n]) {
      JsonTextIsBalanced(s[..n]);
    }
  }

  lemma ObjectIsJsonText(s: string)
    requires ObjectText(s)
    ensures JsonText(s)
  {
    var v :| ValueOk(v) && (v.Object? || v.EmptyObject?) && s == Text(v);
    var none: string := "";
    assert Blank(none);
    assert s == none + Text(v) + none;
  }
}
