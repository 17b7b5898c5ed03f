/**
 Pretty-printed JSON log bodies (frontend/src/components/LogRow.tsx): a log line that is one JSON object or array is
 re-indented, and string values that are themselves JSON objects or arrays are expanded in place down to depth 8.
 */
module LogRow {
  import opened Options
  import opened JsonText
  import opened JsonParse

  const MAX_EXPANSION := 8

  /** JavaScript's white space, which `trim` removes. */
  predicate IsTrimmed(u: Unit) {
    || 9 <= u <= 13 || u == 32 || u == 0xA0 || u == 0x1680 || 0x2000 <= u <= 0x200A
    || u == 0x2028 || u == 0x2029 || u == 0x202F || u == 0x205F || u == 0x3000 || u == 0xFEFF
  }

  function TrimStart(t: Text): Text {
    if t != [] && IsTrimmed(t[0]) then TrimStart(t[1..]) else t
  }

  function TrimEnd(t: Text): Text {
    if t != [] && IsTrimmed(t[|t| - 1]) then TrimEnd(t[..|t| - 1]) else t
  }

  /** `parseJsonBody`: the value of a body that is exactly one object or array literal. */
  function ParseJsonBody(num: NumberText, body: Text): (r: Option<Value>)
    ensures r.Some? ==> r.value.Arr? || r.value.Obj?
  {
    var t := TrimEnd(TrimStart(body));
    if |t| < 2 || !Bracketed(t) then None
    else
      var v := Parse(num, t);
      if v.Some? && (v.value.Arr? || v.value.Obj?) then v else None
  }

  predicate Bracketed(t: Text)
    requires |t| >= 2
  {
    (t[0] == LBRACE && t[|t| - 1] == RBRACE) || (t[0] == LBRACKET && t[|t| - 1] == RBRACKET)
  }

  lemma {:induction false} TrimmedStart(t: Text)
    ensures TrimStart(t) != [] ==> !IsTrimmed(TrimStart(t)[0])
    ensures |TrimStart(t)| <= |t| && TrimStart(t) == t[|t| - |TrimStart(t)|..]
    ensures forall i :: 0 <= i < |t| - |TrimStart(t)| ==> IsTrimmed(t[i])
  {
    hide IsTrimmed;
    if t != [] && IsTrimmed(t[0]) {
      TrimmedStart(t[1..]);
      forall i | 0 <= i < |t| - |TrimStart(t)|
        ensures IsTrimmed(t[i])
      {
        assert i > 0 ==> t[1..][i - 1] == t[i];
      }
    }
  }

  lemma {:induction false} TrimmedEnd(t: Text)
    ensures TrimEnd(t) <= t && (TrimEnd(t) != [] ==> !IsTrimmed(TrimEnd(t)[|TrimEnd(t)| - 1]))
    ensures forall i :: |TrimEnd(t)| <= i < |t| ==> IsTrimmed(t[i])
  {
    hide IsTrimmed;
    if t != [] && IsTrimmed(t[|t| - 1]) {
      TrimmedEnd(t[..|t| - 1]);
    }
  }

  predicate IsWhite(u: Unit) {
    u in {9, 10, 11, 12, 13, 32, 0xA0, 0x1680, 0x2000, 0x2001, 0x2002, 0x2003, 0x2004, 0x2005, 0x2006, 0x2007, 0x2008,
          0x2009, 0x200A, 0x2028, 0x2029, 0x202F, 0x205F, 0x3000, 0xFEFF}
  }

  lemma WhiteIff(u: Unit)
    ensures IsTrimmed(u) <==> IsWhite(u)
  {
  }

  /** Trimming takes white space away at both ends, all of it and nothing else. */
  lemma TrimmedBoth(t: Text) returns (from: nat, to: nat)
    ensures from <= to <= |t| && TrimEnd(TrimStart(t)) == t[from..to]
    ensures forall i :: 0 <= i < from || to <= i < |t| ==> IsWhite(t[i])
    ensures from < to ==> !IsWhite(t[from]) && !IsWhite(t[to - 1])
  {
    hide IsTrimmed, IsWhite;
    var s := TrimStart(t);
    TrimmedStart(t);
    TrimmedEnd(s);
    from, to := |t| - |s|, |t| - |s| + |TrimEnd(s)|;
    forall i | 0 <= i < |t|
      ensures IsTrimmed(t[i]) <==> IsWhite(t[i])
    {
      WhiteIff(t[i]);
    }
    forall i | to <= i < |t|
      ensures IsTrimmed(t[i])
    {
      assert t[i] == s[i - from];
    }
  }

  /** White space of JSON is white space of `trim`, so a trimmed text that parses has no space to skip at its ends. */
  lemma TrimmedIsBracketed(num: NumberText, t: Text)
    requires t != [] ==> !IsTrimmed(t[0]) && !IsTrimmed(t[|t| - 1])
    requires Parse(num, t).Some? && (Parse(num, t).value.Arr? || Parse(num, t).value.Obj?)
    ensures |t| >= 2 && Bracketed(t)
  {
    hide ParseValue;
    var r := ParseValue(num, t);
    ValueSpans(num, t);
    assert SkipSpace(t) == t;
    if r.rest != [] {
      assert r.rest[|r.rest| - 1] == t[|t| - 1];
      LastIsNotSpace(r.rest);
    }
  }

  lemma {:induction false} LastIsNotSpace(t: Text)
    requires t != [] && !IsJsonSpace(t[|t| - 1])
    ensures SkipSpace(t) != []
    decreases |t|
  {
    if IsJsonSpace(t[0]) {
      LastIsNotSpace(t[1..]);
    }
  }

  /**
   A body is taken for JSON if and only if, trimmed, it parses as an object or an array: looking at its first and
   last characters first turns nothing away.
   */
  lemma TakenIff(num: NumberText, body: Text, v: Value)
    ensures ParseJsonBody(num, body) == Some(v)
      <==> Parse(num, TrimEnd(TrimStart(body))) == Some(v) && (v.Arr? || v.Obj?)
  {
    hide Parse, TrimStart, TrimEnd, IsTrimmed, IsWhite;
    var t := TrimEnd(TrimStart(body));
    var from, to := TrimmedBoth(body);
    if from < to {
      WhiteIff(body[from]);
      WhiteIff(body[to - 1]);
    }
    if Parse(num, t) == Some(v) && (v.Arr? || v.Obj?) {
      TrimmedIsBracketed(num, t);
    }
  }

  function Embedded(num: NumberText, v: Value, indent: nat): (r: Option<Value>)
    ensures r.Some? ==> indent < MAX_EXPANSION && v.Str? && (r.value.Arr? || r.value.Obj?)
  {
    if v.Str? && indent < MAX_EXPANSION then ParseJsonBody(num, v.s) else None
  }

  // ---- the measure: how deep expansion may still go, then strings before what they contain, then structure ----

  function DepthLeft(indent: nat): nat {
    if indent < MAX_EXPANSION then MAX_EXPANSION - indent else 0
  }

  function Rank(v: Value, indent: nat): nat {
    if indent >= MAX_EXPANSION then 2 else if v.Str? then 1 else 0
  }

  // ---- what a reader should see: the value with its embedded payloads expanded ----

  function Expand(num: NumberText, v: Value, indent: nat): Value
    decreases DepthLeft(indent), Rank(v, indent), v
  {
    match v
    case Arr(es) => Arr(ExpandAll(num, es, indent + 1))
    case Obj(ms) => Obj(ExpandMembers(num, ms, indent + 1))
    case Str(s) =>
      var e := Embedded(num, v, indent);
      if e.Some? then Expand(num, e.value, indent) else v
    case _ => v
  }

  function ExpandAll(num: NumberText, es: seq<Value>, indent: nat): (r: seq<Value>)
    ensures |r| == |es|
    decreases DepthLeft(indent), 2, es
  {
    if es == [] then [] else [Expand(num, es[0], indent)] + ExpandAll(num, es[1..], indent)
  }

  function ExpandMembers(num: NumberText, ms: seq<Member>, indent: nat): (r: seq<Member>)
    ensures |r| == |ms| && forall i :: 0 <= i < |r| ==> r[i].key == ms[i].key
    decreases DepthLeft(indent), 2, ms
  {
    if ms == [] then []
    else [Member(ms[0].key, Expand(num, ms[0].value, indent))] + ExpandMembers(num, ms[1..], indent)
  }

  /** No number in the value is an infinity. */
  predicate Finite(v: Value) {
    match v
    case Num(t) => !IsInfinite(t)
    case Arr(es) => forall i :: 0 <= i < |es| ==> Finite(es[i])
    case Obj(ms) => forall i :: 0 <= i < |ms| ==> Finite(ms[i].value)
    case _ => true
  }

  // ---- the text the row shows ----

  function Pad(indent: nat): (r: Text)
    ensures |r| == 2 * indent
  {
    if indent == 0 then [] else [SPACE, SPACE] + Pad(indent - 1)
  }

  /** `scalarText`. */
  function ScalarText(v: Value): Text
    requires !v.Arr? && !v.Obj?
  {
    match v
    case Null => NULL_TEXT
    case Bool(b) => if b then TRUE_TEXT else FALSE_TEXT
    case Num(t) => t
    case Str(s) => Quote(s)
  }

  function Separator(last: bool): Text {
    if last then [] else [COMMA]
  }

  function Pretty(num: NumberText, v: Value, indent: nat): Text
    decreases DepthLeft(indent), Rank(v, indent), v
  {
    match v
    case Arr(es) =>
      if es == [] then [LBRACKET, RBRACKET]
      else [LBRACKET, NEWLINE] + PrettyAll(num, es, indent + 1) + Pad(indent) + [RBRACKET]
    case Obj(ms) =>
      if ms == [] then [LBRACE, RBRACE]
      else [LBRACE, NEWLINE] + PrettyMembers(num, ms, indent + 1) + Pad(indent) + [RBRACE]
    case Str(s) =>
      var e := Embedded(num, v, indent);
      if e.Some? then Pretty(num, e.value, indent) else ScalarText(v)
    case _ => ScalarText(v)
  }

  function PrettyAll(num: NumberText, es: seq<Value>, indent: nat): Text
    decreases DepthLeft(indent), 2, es
  {
    if es == [] then []
    else Pad(indent)
         + (Pretty(num, es[0], indent) + (Separator(|es| == 1) + [NEWLINE] + PrettyAll(num, es[1..], indent)))
  }

  function PrettyMembers(num: NumberText, ms: seq<Member>, indent: nat): Text
    decreases DepthLeft(indent), 2, ms
  {
    if ms == [] then []
    else Pad(indent) + (Quote(ms[0].key) + ([COLON, SPACE] + (Pretty(num, ms[0].value, indent)
                        + (Separator(|ms| == 1) + [NEWLINE] + PrettyMembers(num, ms[1..], indent)))))
  }

  // ---- reading the text back ----

  lemma {:induction false} SkipPad(indent: nat, t: Text)
    ensures SkipSpace(Pad(indent) + t) == SkipSpace(t)
  {
    if indent == 0 {
      assert Pad(0) + t == t;
    } else {
      var more := Pad(indent - 1) + t;
      assert Pad(indent) + t == [SPACE] + ([SPACE] + more);
      assert ([SPACE] + ([SPACE] + more))[1..] == [SPACE] + more && ([SPACE] + more)[1..] == more;
      SkipPad(indent - 1, t);
    }
  }

  lemma SkipOne(u: Unit, t: Text)
    ensures SkipSpace([u] + t) == if IsJsonSpace(u) then SkipSpace(t) else [u] + t
  {
    assert ([u] + t)[1..] == t;
  }

  /** Parsing a value depends on the text after its leading white space only. */
  lemma LeadingSpace(num: NumberText, t: Text, s: Text)
    requires SkipSpace(t) == SkipSpace(s)
    ensures ParseValue(num, t) == ParseValue(num, s) && ParseElements(num, t) == ParseElements(num, s)
    ensures ParseKey(t) == ParseKey(s)
    ensures forall done :: ParseMembers(num, t, done) == ParseMembers(num, s, done)
  {
  }

  /** A text after which a number lexeme cannot go on. */
  predicate EndsNumber(rest: Text) {
    rest == [] || !IsNumberUnit(rest[0])
  }

  lemma {:induction false} NumberRunOf(t: Text, rest: Text)
    requires EndsNumber(rest) && forall i :: 0 <= i < |t| ==> IsNumberUnit(t[i])
    ensures NumberRun(t + rest) == |t|
  {
    if t == [] {
      assert t + rest == rest;
    } else {
      assert (t + rest)[1..] == t[1..] + rest;
      NumberRunOf(t[1..], rest);
    }
  }

  lemma {:induction false} DigitRunUnits(t: Text, i: nat)
    requires i < DigitRun(t)
    ensures IsDigit(t[i])
  {
    if i > 0 {
      DigitRunUnits(t[1..], i - 1);
    }
  }

  lemma ExponentUnits(t: Text, i: nat)
    requires IsExponent(t) && i < |t|
    ensures IsNumberUnit(t[i])
  {
    var u := if |t| > 1 && (t[1] == MINUS || t[1] == '+' as int) then t[2..] else t[1..];
    if i >= |t| - |u| {
      DigitRunUnits(u, i - (|t| - |u|));
    }
  }

  lemma FractionUnits(t: Text, i: nat)
    requires IsFractionAndExponent(t) && i < |t|
    ensures IsNumberUnit(t[i])
  {
    if t[0] == '.' as int {
      var n := DigitRun(t[1..]);
      if 1 <= i <= n {
        DigitRunUnits(t[1..], i - 1);
      } else if i > n {
        ExponentUnits(t[1 + n..], i - 1 - n);
      }
    } else {
      ExponentUnits(t, i);
    }
  }

  /** A number lexeme consists of number units. */
  lemma NumberUnits(t: Text, i: nat)
    requires IsNumber(t) && i < |t|
    ensures IsNumberUnit(t[i])
  {
    var sign := if t[0] == MINUS then 1 else 0;
    var u := if t[0] == MINUS then t[1..] else t;
    var n := DigitRun(u);
    if i >= sign {
      if i - sign < n {
        DigitRunUnits(u, i - sign);
      } else {
        FractionUnits(u[n..], i - sign - n);
      }
    }
  }

  lemma NumberStart(t: Text)
    requires IsNumber(t)
    ensures t != [] && (IsDigit(t[0]) || t[0] == MINUS)
  {
    if t != [] && t[0] != MINUS {
      DigitRunUnits(t, 0);
    }
  }

  lemma ParseLexeme(num: NumberText, t: Text, rest: Text)
    requires IsNumber(t) && EndsNumber(rest)
    ensures ParseValue(num, t + rest) == Ok(Num(num(t)), rest)
  {
    NumberStart(t);
    forall i | 0 <= i < |t|
      ensures IsNumberUnit(t[i])
    {
      NumberUnits(t, i);
    }
    NumberRunOf(t, rest);
    StartsScalar(num, t + rest);
    assert (t + rest)[..|t|] == t && (t + rest)[|t|..] == rest;
  }

  lemma ParsePrintedNumber(num: NumberText, t: Text, rest: Text)
    requires IsNumber(t) && num(t) == t && EndsNumber(rest)
    ensures ParseValue(num, t + rest) == Ok(Num(t), rest)
  {
    ParseLexeme(num, t, rest);
  }

  lemma StartsScalar(num: NumberText, t: Text)
    requires t != [] && !IsJsonSpace(t[0]) && t[0] != LBRACKET && t[0] != LBRACE
    ensures ParseValue(num, t) == ParseScalar(num, t)
  {
  }

  lemma ParseInfinity(num: NumberText, t: Text, rest: Text)
    requires IsInfinite(t)
    ensures ParseValue(num, t + rest) == Fail
  {
    var s := t + rest;
    StartsScalar(num, s);
    if t == INFINITY_TEXT {
      assert NumberRun(s) == 0 && s[..0] == [];
    } else {
      assert s[1..][0] == 'I' as int;
      assert NumberRun(s[1..]) == 0;
      assert NumberRun(s) == 1 && s[..1] == [MINUS];
      assert [MINUS][1..] == [];
    }
  }

  lemma ParseLiteralText(num: NumberText, v: Value, rest: Text)
    requires v.Null? || v.Bool?
    ensures ParseValue(num, ScalarText(v) + rest) == Ok(v, rest)
  {
    var p := ScalarText(v);
    var t := p + rest;
    assert t[..|p|] == p && t[|p|..] == rest;
    StartsScalar(num, t);
  }

  lemma ParseQuoted(num: NumberText, s: Text, rest: Text)
    ensures ParseValue(num, Quote(s) + rest) == Ok(Str(s), rest)
  {
    var t := Quote(s) + rest;
    assert t[1..] == Escape(s) + [QUOTE] + rest;
    QuoteRoundTrip(s, rest);
    StartsScalar(num, t);
  }

  lemma ParsePrintedScalar(num: NumberText, v: Value, rest: Text)
    requires !v.Arr? && !v.Obj? && Normal(num, v) && EndsNumber(rest)
    ensures ParseValue(num, ScalarText(v) + rest) == if Finite(v) then Ok(v, rest) else Fail
  {
    match v
    case Num(t) =>
      if IsInfinite(t) {
        ParseInfinity(num, t, rest);
      } else {
        ParsePrintedNumber(num, t, rest);
      }
    case Str(s) => ParseQuoted(num, s, rest);
    case _ => ParseLiteralText(num, v, rest);
  }

  /** Can a unit be the first of a value's text? */
  predicate StartsValue(u: Unit) {
    !IsJsonSpace(u) && u != RBRACKET && u != RBRACE && u != COMMA
  }

  lemma ScalarStart(num: NumberText, v: Value)
    requires !v.Arr? && !v.Obj? && Normal(num, v)
    ensures ScalarText(v) != [] && StartsValue(ScalarText(v)[0])
  {
    if v.Num? && !IsInfinite(v.text) {
      NumberStart(v.text);
    }
  }

  lemma {:induction false} PrettyStart(num: NumberText, v: Value, indent: nat)
    requires Normal(num, v)
    ensures Pretty(num, v, indent) != [] && StartsValue(Pretty(num, v, indent)[0])
  {
    if !v.Arr? && !v.Obj? && Embedded(num, v, indent).None? {
      ScalarStart(num, v);
    }
  }

  predicate AllFinite(es: seq<Value>) {
    forall i :: 0 <= i < |es| ==> Finite(es[i])
  }

  predicate MembersFinite(ms: seq<Member>) {
    forall i :: 0 <= i < |ms| ==> Finite(ms[i].value)
  }

  lemma AllFiniteCons(e: Value, es: seq<Value>)
    ensures AllFinite([e] + es) <==> Finite(e) && AllFinite(es)
  {
    var all := [e] + es;
    assert all[0] == e && forall i :: 0 <= i < |es| ==> all[i + 1] == es[i];
  }

  lemma MembersFiniteCons(m: Member, ms: seq<Member>)
    ensures MembersFinite([m] + ms) <==> Finite(m.value) && MembersFinite(ms)
  {
    var all := [m] + ms;
    assert all[0] == m && forall i :: 0 <= i < |ms| ==> all[i + 1] == ms[i];
  }

  /** What reading back the text of v must give. */
  function Expected<T>(finite: bool, value: T, rest: Text): Parsed<T> {
    if finite then Ok(value, rest) else Fail
  }

  /**
   The text of a value, followed by anything that cannot continue a number, reads back as the value with its
   embedded payloads expanded, unless a number is an infinity: then it is not JSON.
   */
  lemma {:induction false} ParsePretty(num: NumberText, v: Value, indent: nat, rest: Text)
    requires NumbersPrint(num) && Normal(num, v) && EndsNumber(rest)
    ensures var x := Expand(num, v, indent);
      ParseValue(num, Pretty(num, v, indent) + rest) == Expected(Finite(x), x, rest)
    decreases DepthLeft(indent), Rank(v, indent), v
  {
    hide NumbersPrint, ParseJsonBody;
    match v
    case Arr(es) =>
      if es != [] {
        ParsePrettyArray(num, es, indent, rest);
      } else {
        EmptyBrackets(num, rest);
      }
    case Obj(ms) =>
      if ms != [] {
        ParsePrettyObject(num, ms, indent, rest);
      } else {
        EmptyBrackets(num, rest);
      }
    case Str(s) =>
      if Embedded(num, v, indent).Some? {
        EmbeddedIsNormal(num, v, indent);
        ParsePretty(num, Embedded(num, v, indent).value, indent, rest);
      } else {
        ParsePrintedScalar(num, v, rest);
      }
    case _ => ParsePrintedScalar(num, v, rest);
  }

  lemma EmptyBrackets(num: NumberText, rest: Text)
    ensures ParseValue(num, [LBRACKET, RBRACKET] + rest) == Ok(Arr([]), rest)
    ensures ParseValue(num, [LBRACE, RBRACE] + rest) == Ok(Obj([]), rest)
  {
    assert ([LBRACKET, RBRACKET] + rest)[1..] == [RBRACKET] + rest && ([RBRACKET] + rest)[1..] == rest;
    assert ([LBRACE, RBRACE] + rest)[1..] == [RBRACE] + rest && ([RBRACE] + rest)[1..] == rest;
  }

  lemma EmbeddedIsNormal(num: NumberText, v: Value, indent: nat)
    requires NumbersPrint(num) && Embedded(num, v, indent).Some?
    ensures Normal(num, Embedded(num, v, indent).value)
  {
    hide NumbersPrint;
    ParsedIsNormal(num, TrimEnd(TrimStart(v.s)));
  }

  lemma OpenArray(num: NumberText, body: Text)
    requires SkipSpace(body) != [] && SkipSpace(body)[0] != RBRACKET
    ensures var r := ParseElements(num, body);
      ParseValue(num, [LBRACKET] + body) == if r.Fail? then Fail else Ok(Arr(r.value), r.rest)
  {
    assert ([LBRACKET] + body)[1..] == body;
  }

  lemma OpenObject(num: NumberText, body: Text)
    requires SkipSpace(body) != [] && SkipSpace(body)[0] != RBRACE
    ensures var r := ParseMembers(num, body, []);
      ParseValue(num, [LBRACE] + body) == if r.Fail? then Fail else Ok(Obj(r.value), r.rest)
  {
    assert ([LBRACE] + body)[1..] == body;
  }

  /** What the reader meets after an item: the closing bracket's text, or a comma and the next line. */
  function AfterItem(last: bool, others: Text): Text {
    Separator(last) + ([NEWLINE] + others)
  }

  lemma ReadAfterItem(last: bool, others: Text)
    ensures EndsNumber(AfterItem(last, others))
    ensures last ==> SkipSpace(AfterItem(last, others)) == SkipSpace(others)
    ensures !last ==> SkipSpace(AfterItem(last, others)) == AfterItem(last, others) == [COMMA] + ([NEWLINE] + others)
    ensures SkipSpace([NEWLINE] + others) == SkipSpace(others)
  {
    SkipOne(NEWLINE, others);
    SkipOne(COMMA, [NEWLINE] + others);
    assert [] + ([NEWLINE] + others) == [NEWLINE] + others;
  }

  lemma Behind(u: Unit, t: Text)
    ensures ([u] + t)[0] == u && ([u] + t)[1..] == t
  {
  }

  lemma ElementsText(num: NumberText, es: seq<Value>, indent: nat, tail: Text)
    requires es != []
    ensures var others := PrettyAll(num, es[1..], indent) + tail;
      PrettyAll(num, es, indent) + tail == Pad(indent) + (Pretty(num, es[0], indent) + AfterItem(|es| == 1, others))
  {
    hide Pretty;
    var a, b := Pad(indent), Pretty(num, es[0], indent);
    var c, d := Separator(|es| == 1), PrettyAll(num, es[1..], indent);
    assert PrettyAll(num, es, indent) == a + (b + (c + [NEWLINE] + d));
    Regroup(a, b, c, d, tail);
  }

  lemma Regroup(a: Text, b: Text, c: Text, d: Text, tail: Text)
    ensures a + (b + (c + [NEWLINE] + d)) + tail == a + (b + (c + ([NEWLINE] + (d + tail))))
  {
  }

  lemma MembersText(num: NumberText, ms: seq<Member>, indent: nat, tail: Text)
    requires ms != []
    ensures var others := PrettyMembers(num, ms[1..], indent) + tail;
      PrettyMembers(num, ms, indent) + tail ==
        Pad(indent)
        + (Quote(ms[0].key) + ([COLON, SPACE] + (Pretty(num, ms[0].value, indent) + AfterItem(|ms| == 1, others))))
  {
    hide Pretty, Quote;
    var a, k, b := Pad(indent), Quote(ms[0].key), Pretty(num, ms[0].value, indent);
    var c, d := Separator(|ms| == 1), PrettyMembers(num, ms[1..], indent);
    assert PrettyMembers(num, ms, indent) == a + (k + ([COLON, SPACE] + (b + (c + [NEWLINE] + d))));
    Regroup([], b, c, d, tail);
    RegroupKey(a, k, b + (c + [NEWLINE] + d), tail);
    assert [] + (b + (c + [NEWLINE] + d)) == b + (c + [NEWLINE] + d);
    assert [] + (b + (c + ([NEWLINE] + (d + tail)))) == b + (c + ([NEWLINE] + (d + tail)));
  }

  lemma RegroupKey(a: Text, k: Text, b: Text, tail: Text)
    ensures a + (k + ([COLON, SPACE] + b)) + tail == a + (k + ([COLON, SPACE] + (b + tail)))
  {
  }

  lemma ElementsStart(num: NumberText, es: seq<Value>, indent: nat, tail: Text)
    requires es != [] && AllNormal(num, es)
    ensures var s := SkipSpace(PrettyAll(num, es, indent) + tail);
      s != [] && StartsValue(s[0])
  {
    PrettyStart(num, es[0], indent);
    var others := PrettyAll(num, es[1..], indent) + tail;
    ElementsText(num, es, indent, tail);
    SkipPad(indent, Pretty(num, es[0], indent) + AfterItem(|es| == 1, others));
  }

  lemma {:induction false} ParsePrettyArray(num: NumberText, es: seq<Value>, indent: nat, rest: Text)
    requires NumbersPrint(num) && Normal(num, Arr(es)) && es != []
    ensures var x := Expand(num, Arr(es), indent);
      ParseValue(num, Pretty(num, Arr(es), indent) + rest) == Expected(Finite(x), x, rest)
    decreases DepthLeft(indent), if indent >= MAX_EXPANSION then 2 else 0, Arr(es), 0
  {
    hide NumbersPrint, SkipSpace, ParseElements, PrettyAll, ExpandAll, Normal, Finite, ParseValue, Pretty;
    var tail := Pad(indent) + ([RBRACKET] + rest);
    var items := PrettyAll(num, es, indent + 1) + tail;
    NormalArray(num, es);
    SkipPad(indent, [RBRACKET] + rest);
    SkipOne(RBRACKET, rest);
    ParsePrettyElements(num, es, indent + 1, tail, rest);
    SkipOne(NEWLINE, items);
    LeadingSpace(num, [NEWLINE] + items, items);
    ElementsStart(num, es, indent + 1, tail);
    OpenArray(num, [NEWLINE] + items);
    ArrayText(num, es, indent, rest);
    FiniteArray(ExpandAll(num, es, indent + 1));
  }

  lemma ArrayText(num: NumberText, es: seq<Value>, indent: nat, rest: Text)
    requires es != []
    ensures Pretty(num, Arr(es), indent) + rest ==
      [LBRACKET] + ([NEWLINE] + (PrettyAll(num, es, indent + 1) + (Pad(indent) + ([RBRACKET] + rest))))
  {
    hide PrettyAll;
    Brackets(LBRACKET, PrettyAll(num, es, indent + 1), Pad(indent), RBRACKET, rest);
  }

  lemma ObjectText(num: NumberText, ms: seq<Member>, indent: nat, rest: Text)
    requires ms != []
    ensures Pretty(num, Obj(ms), indent) + rest ==
      [LBRACE] + ([NEWLINE] + (PrettyMembers(num, ms, indent + 1) + (Pad(indent) + ([RBRACE] + rest))))
  {
    hide PrettyMembers;
    Brackets(LBRACE, PrettyMembers(num, ms, indent + 1), Pad(indent), RBRACE, rest);
  }

  lemma Brackets(l: Unit, items: Text, pad: Text, r: Unit, rest: Text)
    ensures [l, NEWLINE] + items + pad + [r] + rest == [l] + ([NEWLINE] + (items + (pad + ([r] + rest))))
  {
  }

  lemma NormalArray(num: NumberText, es: seq<Value>)
    ensures Normal(num, Arr(es)) <==> AllNormal(num, es)
  {
  }

  lemma FiniteArray(es: seq<Value>)
    ensures Finite(Arr(es)) <==> AllFinite(es)
  {
  }

  lemma {:induction false} ParsePrettyElements(num: NumberText, es: seq<Value>, indent: nat, tail: Text, rest: Text)
    requires NumbersPrint(num) && AllNormal(num, es) && es != []
    requires SkipSpace(tail) == [RBRACKET] + rest
    ensures var xs := ExpandAll(num, es, indent);
      ParseElements(num, PrettyAll(num, es, indent) + tail) == Expected(AllFinite(xs), xs, rest)
    decreases DepthLeft(indent), 2, es
  {
    hide NumbersPrint, SkipSpace, Pretty, Expand, Normal, Finite, ParseValue, AfterItem, PrettyAll, EndsNumber;
    var x, xs := Expand(num, es[0], indent), ExpandAll(num, es[1..], indent);
    var text, others := Pretty(num, es[0], indent), PrettyAll(num, es[1..], indent) + tail;
    var after := AfterItem(|es| == 1, others);
    ElementsText(num, es, indent, tail);
    SkipPad(indent, text + after);
    LeadingSpace(num, PrettyAll(num, es, indent) + tail, text + after);
    ReadAfterItem(|es| == 1, others);
    ParsePretty(num, es[0], indent, after);
    AllFiniteCons(x, xs);
    if |es| == 1 {
      LastElement(num, es, indent, tail);
      Behind(RBRACKET, rest);
    } else {
      Behind(COMMA, [NEWLINE] + others);
      LeadingSpace(num, [NEWLINE] + others, others);
      ParsePrettyElements(num, es[1..], indent, tail, rest);
    }
  }

  lemma LastElement(num: NumberText, es: seq<Value>, indent: nat, tail: Text)
    requires |es| == 1
    ensures PrettyAll(num, es[1..], indent) + tail == tail && ExpandAll(num, es[1..], indent) == []
    ensures ExpandAll(num, es, indent) == [Expand(num, es[0], indent)]
  {
  }

  lemma MembersStart(num: NumberText, ms: seq<Member>, indent: nat, tail: Text)
    requires ms != []
    ensures var s := SkipSpace(PrettyMembers(num, ms, indent) + tail);
      s != [] && s[0] == QUOTE
  {
    hide Pretty;
    var others := PrettyMembers(num, ms[1..], indent) + tail;
    MembersText(num, ms, indent, tail);
    SkipPad(indent,
            Quote(ms[0].key) + ([COLON, SPACE] + (Pretty(num, ms[0].value, indent) + AfterItem(|ms| == 1, others))));
  }

  lemma {:induction false} ParsePrettyObject(num: NumberText, ms: seq<Member>, indent: nat, rest: Text)
    requires NumbersPrint(num) && Normal(num, Obj(ms)) && ms != []
    ensures var x := Expand(num, Obj(ms), indent);
      ParseValue(num, Pretty(num, Obj(ms), indent) + rest) == Expected(Finite(x), x, rest)
    decreases DepthLeft(indent), if indent >= MAX_EXPANSION then 2 else 0, Obj(ms), 0
  {
    hide NumbersPrint, SkipSpace, ParseMembers, PrettyMembers, ExpandMembers, Normal, Finite,
         ParseValue, MembersNormal, Pretty;
    var tail := Pad(indent) + ([RBRACE] + rest);
    var items := PrettyMembers(num, ms, indent + 1) + tail;
    NormalObject(num, ms);
    SkipPad(indent, [RBRACE] + rest);
    SkipOne(RBRACE, rest);
    ExpandedKeys(num, ms, indent + 1);
    assert [] + ExpandMembers(num, ms, indent + 1) == ExpandMembers(num, ms, indent + 1);
    ParsePrettyMembers(num, ms, indent + 1, [], tail, rest);
    SkipOne(NEWLINE, items);
    LeadingSpace(num, [NEWLINE] + items, items);
    MembersStart(num, ms, indent + 1, tail);
    OpenObject(num, [NEWLINE] + items);
    ObjectText(num, ms, indent, rest);
    FiniteObject(ExpandMembers(num, ms, indent + 1));
  }

  lemma NormalObject(num: NumberText, ms: seq<Member>)
    ensures Normal(num, Obj(ms)) <==> MembersNormal(num, ms)
  {
  }

  lemma FiniteObject(ms: seq<Member>)
    ensures Finite(Obj(ms)) <==> MembersFinite(ms)
  {
  }

  lemma ExpandedKeys(num: NumberText, ms: seq<Member>, indent: nat)
    requires MembersNormal(num, ms)
    ensures NormalKeys(ExpandMembers(num, ms, indent)) && ValuesNormal(num, ms)
  {
  }

  ghost predicate ValuesNormal(num: NumberText, ms: seq<Member>) {
    forall i :: 0 <= i < |ms| ==> Normal(num, ms[i].value)
  }

  lemma KeyText(num: NumberText, k: Text, rest: Text)
    ensures ParseKey(Quote(k) + ([COLON, SPACE] + rest)) == Ok(k, [SPACE] + rest)
  {
    var t := Quote(k) + ([COLON, SPACE] + rest);
    assert t[1..] == Escape(k) + [QUOTE] + ([COLON, SPACE] + rest);
    QuoteRoundTrip(k, [COLON, SPACE] + rest);
    assert ([COLON, SPACE] + rest)[1..] == [SPACE] + rest;
  }

  lemma {:induction false} ParsePrettyMembers(num: NumberText, ms: seq<Member>, indent: nat,
                                              done: seq<Member>, tail: Text,
                                              rest: Text)
    requires NumbersPrint(num) && ValuesNormal(num, ms) && ms != []
    requires NormalKeys(done + ExpandMembers(num, ms, indent))
    requires SkipSpace(tail) == [RBRACE] + rest
    ensures var xs := ExpandMembers(num, ms, indent);
      ParseMembers(num, PrettyMembers(num, ms, indent) + tail, done) == Expected(MembersFinite(xs), done + xs, rest)
    decreases DepthLeft(indent), 2, ms
  {
    hide NumbersPrint, SkipSpace, Pretty, Expand, Normal, Finite, ParseValue, ParseKey, Put,
         NormalKeys, Quote, AfterItem,
      PrettyMembers, EndsNumber;
    var x, xs := Member(ms[0].key, Expand(num, ms[0].value, indent)), ExpandMembers(num, ms[1..], indent);
    var others := PrettyMembers(num, ms[1..], indent) + tail;
    var after := AfterItem(|ms| == 1, others);
    FirstMember(num, ms, indent, tail, done);
    ReadAfterItem(|ms| == 1, others);
    ParsePretty(num, ms[0].value, indent, after);
    NextKey(done, x, xs);
    MembersFiniteCons(x, xs);
    assert done + ([x] + xs) == done + [x] + xs;
    if |ms| == 1 {
      LastMember(num, ms, indent, tail);
      Behind(RBRACE, rest);
    } else {
      Behind(COMMA, [NEWLINE] + others);
      LeadingSpace(num, [NEWLINE] + others, others);
      ParsePrettyMembers(num, ms[1..], indent, done + [x], tail, rest);
    }
  }

  /** The reader gets past the first key: the rest is decided by the value behind it. */
  lemma FirstMember(num: NumberText, ms: seq<Member>, indent: nat, tail: Text, done: seq<Member>)
    requires ms != []
    ensures var others := PrettyMembers(num, ms[1..], indent) + tail;
      var v := ParseValue(num, Pretty(num, ms[0].value, indent) + AfterItem(|ms| == 1, others));
      ParseMembers(num, PrettyMembers(num, ms, indent) + tail, done) ==
        if v.Fail? then Fail else MoreMembers(num, Put(done, Member(ms[0].key, v.value)), v.rest)
  {
    hide SkipSpace, Pretty, ParseValue, ParseKey, Put, Quote, AfterItem, PrettyMembers, MoreMembers;
    var others := PrettyMembers(num, ms[1..], indent) + tail;
    var item := Pretty(num, ms[0].value, indent) + AfterItem(|ms| == 1, others);
    var member := Quote(ms[0].key) + ([COLON, SPACE] + item);
    MembersText(num, ms, indent, tail);
    SkipPad(indent, member);
    LeadingSpace(num, PrettyMembers(num, ms, indent) + tail, member);
    KeyText(num, ms[0].key, item);
    SpaceBefore(item);
    LeadingSpace(num, [SPACE] + item, item);
    MembersStep(num, member, done);
  }

  lemma SpaceBefore(t: Text)
    ensures SkipSpace([SPACE] + t) == SkipSpace(t)
  {
    SkipOne(SPACE, t);
  }

  /** What follows a member: the end of the object, or a comma and more members. */
  function MoreMembers(num: NumberText, ms: seq<Member>, t: Text): Parsed<seq<Member>> {
    var s := SkipSpace(t);
    if s == [] then Fail
    else if s[0] == RBRACE then Ok(ms, s[1..])
    else if s[0] == COMMA then ParseMembers(num, s[1..], ms)
    else Fail
  }

  lemma MembersStep(num: NumberText, t: Text, done: seq<Member>)
    ensures var k := ParseKey(t);
      ParseMembers(num, t, done) ==
        if k.Fail? then Fail
        else
          var v := ParseValue(num, k.rest);
          if v.Fail? then Fail else MoreMembers(num, Put(done, Member(k.value, v.value)), v.rest)
  {
  }

  lemma LastMember(num: NumberText, ms: seq<Member>, indent: nat, tail: Text)
    requires |ms| == 1
    ensures PrettyMembers(num, ms[1..], indent) + tail == tail && ExpandMembers(num, ms[1..], indent) == []
    ensures ExpandMembers(num, ms, indent) == [Member(ms[0].key, Expand(num, ms[0].value, indent))]
  {
  }

  lemma NextKey(done: seq<Member>, x: Member, xs: seq<Member>)
    requires NormalKeys(done + ([x] + xs))
    ensures Put(done, x) == done + [x]
  {
    var all := done + ([x] + xs);
    forall i | 0 <= i < |done|
      ensures Precedes(done[i].key, x.key)
    {
      assert all[i] == done[i] && all[|done|] == x;
    }
    PutAtEnd(done, x);
  }

  /**
   For every log body that is a JSON object or array: the displayed text is a JSON text whose value is the parsed
   body with its embedded payloads expanded, if and only if no number in it overflows to an infinity.
   */
  lemma PrettyRoundTrip(num: NumberText, body: Text)
    requires NumbersPrint(num) && ParseJsonBody(num, body).Some?
    ensures var v := ParseJsonBody(num, body).value;
      Parse(num, Pretty(num, v, 0)) == if Finite(Expand(num, v, 0)) then Some(Expand(num, v, 0)) else None
  {
    hide NumbersPrint, Expand, Pretty;
    var v := ParseJsonBody(num, body).value;
    BodyIsNormal(num, body);
    ParsePretty(num, v, 0, []);
    assert Pretty(num, v, 0) + [] == Pretty(num, v, 0);
  }

  lemma BodyIsNormal(num: NumberText, body: Text)
    requires NumbersPrint(num) && ParseJsonBody(num, body).Some?
    ensures Normal(num, ParseJsonBody(num, body).value)
  {
    hide NumbersPrint;
    ParsedIsNormal(num, TrimEnd(TrimStart(body)));
  }

  /** The array that holds one number lexeme. */
  function OneNumber(lexeme: Text): Text {
    [LBRACKET] + lexeme + [RBRACKET]
  }

  lemma OneNumberIsBody(num: NumberText, lexeme: Text)
    requires IsNumber(lexeme)
    ensures ParseJsonBody(num, OneNumber(lexeme)) == Some(Arr([Num(num(lexeme))]))
  {
    hide IsNumber;
    var t, tail := OneNumber(lexeme), lexeme + [RBRACKET];
    assert t[1..] == tail && [RBRACKET][1..] == [];
    NumberStart(lexeme);
    assert SkipSpace(t) == t && SkipSpace(tail) == tail && SkipSpace([RBRACKET]) == [RBRACKET];
    ParseLexeme(num, lexeme, [RBRACKET]);
    assert ParseElements(num, tail) == Ok([Num(num(lexeme))], []);
    assert ParseValue(num, t) == Ok(Arr([Num(num(lexeme))]), []);
    assert TrimEnd(TrimStart(t)) == t;
    TakenIff(num, t, Arr([Num(num(lexeme))]));
  }

  /** Such a body: the display of a number too large for a double is not a JSON text. */
  lemma OverflowIsNotJson(num: NumberText, lexeme: Text)
    requires NumbersPrint(num) && IsNumber(lexeme) && IsInfinite(num(lexeme))
    ensures ParseJsonBody(num, OneNumber(lexeme)).Some?
    ensures Parse(num, Pretty(num, ParseJsonBody(num, OneNumber(lexeme)).value, 0)) == None
  {
    hide NumbersPrint, Pretty, Parse, ParseJsonBody;
    OneNumberIsBody(num, lexeme);
    PrettyRoundTrip(num, OneNumber(lexeme));
    InfiniteElement(num, num(lexeme));
  }

  lemma InfiniteElement(num: NumberText, t: Text)
    requires IsInfinite(t)
    ensures !Finite(Expand(num, Arr([Num(t)]), 0))
  {
    assert [Num(t)][1..] == [] && ExpandAll(num, [Num(t)], 1) == [Num(t)];
    assert Expand(num, Arr([Num(t)]), 0).elems[0] == Num(t);
  }

  const LARGE: Text := ['1' as int, 'e' as int, '9' as int, '9' as int, '9' as int]

  /** Such a lexeme, and numbers that print as assumed. */
  lemma LargeLexeme()
    ensures IsNumber(LARGE)
    ensures NumbersPrint((t: Text) => INFINITY_TEXT) && IsInfinite(((t: Text) => INFINITY_TEXT)(LARGE))
  {
    var e := LARGE[1..];
    assert LARGE[2..] == e[1..];
    assert DigitRun(e) == 0 && DigitRun(LARGE) == 1;
    var d := e[1..];
    var d1 := d[1..];
    var d2 := d1[1..];
    assert d2[1..] == [] && DigitRun(d2) == 1 && DigitRun(d1) == 2 && DigitRun(d) == 3;
  }

  /** Expanding is complete: expanding what is shown once more finds nothing left to expand. */
  lemma {:induction false} ExpandIsComplete(num: NumberText, v: Value, indent: nat)
    ensures Expand(num, Expand(num, v, indent), indent) == Expand(num, v, indent)
    decreases DepthLeft(indent), Rank(v, indent), v
  {
    hide ParseJsonBody;
    match v
    case Arr(es) => ExpandAllIsComplete(num, es, indent + 1);
    case Obj(ms) => ExpandMembersIsComplete(num, ms, indent + 1);
    case Str(s) =>
      if Embedded(num, v, indent).Some? {
        ExpandIsComplete(num, Embedded(num, v, indent).value, indent);
      }
    case _ =>
  }

  lemma {:induction false} ExpandAllIsComplete(num: NumberText, es: seq<Value>, indent: nat)
    ensures ExpandAll(num, ExpandAll(num, es, indent), indent) == ExpandAll(num, es, indent)
    decreases DepthLeft(indent), 2, es
  {
    hide Expand;
    if es != [] {
      var rest := ExpandAll(num, es[1..], indent);
      ExpandIsComplete(num, es[0], indent);
      ExpandAllIsComplete(num, es[1..], indent);
      assert ([Expand(num, es[0], indent)] + rest)[1..] == rest;
    }
  }

  lemma {:induction false} ExpandMembersIsComplete(num: NumberText, ms: seq<Member>, indent: nat)
    ensures ExpandMembers(num, ExpandMembers(num, ms, indent), indent) == ExpandMembers(num, ms, indent)
    decreases DepthLeft(indent), 2, ms
  {
    hide Expand;
    if ms != [] {
      var rest := ExpandMembers(num, ms[1..], indent);
      ExpandIsComplete(num, ms[0].value, indent);
      ExpandMembersIsComplete(num, ms[1..], indent);
      assert ([Member(ms[0].key, Expand(num, ms[0].value, indent))] + rest)[1..] == rest;
    }
  }
}
