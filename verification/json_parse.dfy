/** `JSON.parse` (RFC 8259, section 2): values, with objects in the key order a JavaScript object has. */
module JsonParse {
  import opened Options
  import opened JsonText

  /** The text `String(Number(lexeme))` of a number lexeme. */
  type NumberText = Text -> Text

  predicate IsJsonSpace(u: Unit) {
    u == 32 || u == 9 || u == 10 || u == 13
  }

  function SkipSpace(t: Text): (r: Text)
    ensures |r| <= |t|
    ensures r != [] ==> !IsJsonSpace(r[0])
    decreases |t|
  {
    if t != [] && IsJsonSpace(t[0]) then SkipSpace(t[1..]) else t
  }

  /** Length of the run of units a number lexeme may consist of. */
  function NumberRun(t: Text): (n: nat)
    ensures n <= |t|
    decreases |t|
  {
    if t != [] && IsNumberUnit(t[0]) then 1 + NumberRun(t[1..]) else 0
  }

  predicate IsNumberUnit(u: Unit) {
    IsDigit(u) || u == MINUS || u == '+' as int || u == '.' as int || u == 'e' as int || u == 'E' as int
  }

  function DigitRun(t: Text): (n: nat)
    ensures n <= |t|
    decreases |t|
  {
    if t != [] && IsDigit(t[0]) then 1 + DigitRun(t[1..]) else 0
  }

  /** The number grammar of RFC 8259, section 6. */
  predicate IsNumber(t: Text) {
    var u := if t != [] && t[0] == MINUS then t[1..] else t;
    var n := DigitRun(u);
    n > 0 && (u[0] == ZERO ==> n == 1) && IsFractionAndExponent(u[n..])
  }

  predicate IsFractionAndExponent(t: Text) {
    if t != [] && t[0] == '.' as int then DigitRun(t[1..]) > 0 && IsExponent(t[1 + DigitRun(t[1..])..])
    else IsExponent(t)
  }

  predicate IsExponent(t: Text) {
    t == [] || (
      && (t[0] == 'e' as int || t[0] == 'E' as int)
      && var u := if |t| > 1 && (t[1] == MINUS || t[1] == '+' as int) then t[2..] else t[1..];
         u != [] && DigitRun(u) == |u|)
  }

  // ---- the number grammar, part by part ----

  predicate IsDigits(t: Text) {
    t != [] && forall i :: 0 <= i < |t| ==> 48 <= t[i] <= 57
  }

  /** `e` or `E`, perhaps a sign, and digits. */
  predicate IsPower(t: Text) {
    |t| >= 2 && (t[0] == 101 || t[0] == 69) && (IsDigits(t[1..]) || ((t[1] == 43 || t[1] == 45) && IsDigits(t[2..])))
  }

  /** A minus sign, digits without a leading zero, a point with digits, and a power of ten; all but the digits optional. */
  predicate IsNumberOf(t: Text, sign: Text, whole: Text, fraction: Text, power: Text) {
    && t == sign + (whole + (fraction + power))
    && (sign == [] || sign == [45])
    && IsDigits(whole) && (whole[0] == 48 ==> |whole| == 1)
    && (fraction == [] || (fraction[0] == 46 && IsDigits(fraction[1..])))
    && (power == [] || IsPower(power))
  }

  lemma {:induction false} DigitRunIs(t: Text, n: nat)
    requires n <= |t|
    ensures DigitRun(t) == n <==>
      (forall i :: 0 <= i < n ==> 48 <= t[i] <= 57) && (n < |t| ==> !(48 <= t[n] <= 57))
    decreases |t|
  {
    if t != [] && IsDigit(t[0]) {
      if n > 0 {
        DigitRunIs(t[1..], n - 1);
        assert forall i :: 0 < i < n ==> t[i] == t[1..][i - 1];
        assert (forall i :: 0 <= i < n ==> 48 <= t[i] <= 57) ==>
          forall i :: 0 <= i < n - 1 ==> 48 <= t[1..][i] == t[i + 1] <= 57;
      }
    }
  }

  lemma AllDigitRun(t: Text)
    ensures t != [] && DigitRun(t) == |t| <==> IsDigits(t)
  {
    DigitRunIs(t, |t|);
  }

  lemma PowerIff(t: Text)
    ensures IsExponent(t) <==> t == [] || IsPower(t)
  {
    if |t| >= 1 {
      AllDigitRun(t[1..]);
    }
    if |t| >= 2 {
      AllDigitRun(t[2..]);
      assert t[1..][0] == t[1];
    }
  }

  lemma RunBefore(digits: Text, rest: Text)
    requires IsDigits(digits) && (rest != [] ==> !IsDigit(rest[0]))
    ensures DigitRun(digits + rest) == |digits| && (digits + rest)[|digits|..] == rest
  {
    DigitRunIs(digits + rest, |digits|);
  }

  lemma RunOf(t: Text)
    ensures DigitRun(t) > 0 ==> IsDigits(t[..DigitRun(t)])
  {
    DigitRunIs(t, DigitRun(t));
  }

  lemma FractionIff(t: Text, fraction: Text, power: Text)
    requires t == fraction + power && (power == [] || IsPower(power))
    requires fraction == [] || (fraction[0] == 46 && IsDigits(fraction[1..]))
    ensures IsFractionAndExponent(t)
  {
    hide IsPower, IsExponent;
    PowerIff(power);
    if fraction == [] {
      assert t == power;
      assert power != [] ==> power[0] != 46 by { PowerStart(power); }
    } else {
      assert t[1..] == fraction[1..] + power;
      PowerStart(power);
      RunBefore(fraction[1..], power);
      assert t[1 + |fraction[1..]|..] == power;
    }
  }

  lemma PowerStart(power: Text)
    requires power == [] || IsPower(power)
    ensures power != [] ==> !IsDigit(power[0]) && power[0] != 46
  {
  }

  /** The lexemes taken for numbers are those of RFC 8259, section 6. */
  lemma NumberIff(t: Text)
    ensures IsNumber(t) <==> exists sign, whole, fraction, power :: IsNumberOf(t, sign, whole, fraction, power)
  {
    if sign, whole, fraction, power :| IsNumberOf(t, sign, whole, fraction, power) {
      NumberOfIsNumber(t, sign, whole, fraction, power);
    }
    if IsNumber(t) {
      NumberSplits(t);
    }
  }

  lemma NumberOfIsNumber(t: Text, sign: Text, whole: Text, fraction: Text, power: Text)
    requires IsNumberOf(t, sign, whole, fraction, power)
    ensures IsNumber(t)
  {
    var u, rest := whole + (fraction + power), fraction + power;
    assert t[|sign|..] == u && u[0] == whole[0];
    PowerStart(power);
    assert rest != [] ==> rest[0] == if fraction != [] then fraction[0] else power[0];
    RunBefore(whole, rest);
    FractionIff(rest, fraction, power);
  }

  lemma NumberSplits(t: Text)
    requires IsNumber(t)
    ensures exists sign, whole, fraction, power :: IsNumberOf(t, sign, whole, fraction, power)
  {
    hide IsPower, IsFractionAndExponent;
    var sign: Text := if t[0] == MINUS then [MINUS] else [];
    var u := t[|sign|..];
    var whole, rest := u[..DigitRun(u)], u[DigitRun(u)..];
    RunOf(u);
    var fraction, power := FractionSplits(rest);
    Parts(t, sign, whole, fraction, power);
    assert IsNumberOf(t, sign, whole, fraction, power);
  }

  lemma Parts(t: Text, sign: Text, whole: Text, fraction: Text, power: Text)
    requires |sign| <= |t| && sign == t[..|sign|] && |whole| <= |t| - |sign|
    requires whole == t[|sign|..][..|whole|] && fraction + power == t[|sign|..][|whole|..]
    ensures t == sign + (whole + (fraction + power))
  {
    assert t[|sign|..] == whole + (fraction + power);
  }

  lemma FractionSplits(t: Text) returns (fraction: Text, power: Text)
    requires IsFractionAndExponent(t)
    ensures t == fraction + power && (power == [] || IsPower(power))
    ensures fraction == [] || (fraction[0] == 46 && IsDigits(fraction[1..]))
  {
    if t != [] && t[0] == '.' as int {
      var n := DigitRun(t[1..]);
      RunOf(t[1..]);
      fraction, power := t[..1 + n], t[1 + n..];
      assert fraction[1..] == t[1..][..n];
    } else {
      fraction, power := [], t;
    }
    PowerIff(power);
  }

  /**
   What is used about JavaScript's numbers: printing a finite double gives a number lexeme that reads as the same
   double; a lexeme too large for a double reads as an infinity.
   */
  ghost predicate NumbersPrint(num: NumberText) {
    forall t: Text :: IsNumber(t) ==> IsInfinite(num(t)) || (IsNumber(num(t)) && num(num(t)) == num(t))
  }

  predicate IsInfinite(t: Text) {
    t == INFINITY_TEXT || t == [MINUS] + INFINITY_TEXT
  }

  function StartsWith(t: Text, p: Text): bool {
    |p| <= |t| && t[..|p|] == p
  }

  function ParseLiteral(t: Text, p: Text, v: Value): Parsed<Value> {
    if StartsWith(t, p) then Ok(v, t[|p|..]) else Fail
  }

  function ParseNumber(num: NumberText, t: Text): Parsed<Value> {
    var n := NumberRun(t);
    if IsNumber(t[..n]) then Ok(Num(num(t[..n])), t[n..]) else Fail
  }

  lemma NumberConsumes(num: NumberText, t: Text)
    ensures ParseNumber(num, t).Ok? ==> |ParseNumber(num, t).rest| < |t|
  {
    if NumberRun(t) == 0 {
      assert t[..0] == [];
    }
  }

  function ParseScalar(num: NumberText, t: Text): (r: Parsed<Value>)
    requires t != []
    ensures r.Ok? ==> |r.rest| < |t|
  {
    if t[0] == QUOTE then
      var r := ParseString(t[1..]);
      if r.Fail? then Fail else Ok(Str(r.value), r.rest)
    else if t[0] == 'n' as int then ParseLiteral(t, NULL_TEXT, Null)
    else if t[0] == 't' as int then ParseLiteral(t, TRUE_TEXT, Bool(true))
    else if t[0] == 'f' as int then ParseLiteral(t, FALSE_TEXT, Bool(false))
    else
      NumberConsumes(num, t);
      ParseNumber(num, t)
  }

  /** One value, after optional white space. */
  function ParseValue(num: NumberText, t: Text): (r: Parsed<Value>)
    ensures r.Ok? ==> |r.rest| < |t|
    decreases |t|, 1
  {
    var s := SkipSpace(t);
    if s == [] then Fail
    else if s[0] == LBRACKET then
      var inner := SkipSpace(s[1..]);
      if inner != [] && inner[0] == RBRACKET then Ok(Arr([]), inner[1..])
      else
        var r := ParseElements(num, s[1..]);
        if r.Fail? then Fail else Ok(Arr(r.value), r.rest)
    else if s[0] == LBRACE then
      var inner := SkipSpace(s[1..]);
      if inner != [] && inner[0] == RBRACE then Ok(Obj([]), inner[1..])
      else
        var r := ParseMembers(num, s[1..], []);
        if r.Fail? then Fail else Ok(Obj(r.value), r.rest)
    else ParseScalar(num, s)
  }

  /** The elements of an array that is not empty, up to and including its closing bracket. */
  function ParseElements(num: NumberText, t: Text): (r: Parsed<seq<Value>>)
    ensures r.Ok? ==> |r.rest| < |t|
    decreases |t|, 2
  {
    var v := ParseValue(num, t);
    if v.Fail? then Fail
    else
      var s := SkipSpace(v.rest);
      if s == [] then Fail
      else if s[0] == RBRACKET then Ok([v.value], s[1..])
      else if s[0] == COMMA then
        var r := ParseElements(num, s[1..]);
        if r.Fail? then Fail else Ok([v.value] + r.value, r.rest)
      else Fail
  }

  /** A key and its colon, after optional white space. */
  function ParseKey(t: Text): (r: Parsed<Text>)
    ensures r.Ok? ==> |r.rest| < |t|
  {
    var s := SkipSpace(t);
    if s == [] || s[0] != QUOTE then Fail
    else
      var k := ParseString(s[1..]);
      if k.Fail? then Fail
      else
        var c := SkipSpace(k.rest);
        if c == [] || c[0] != COLON then Fail else Ok(k.value, c[1..])
  }

  /** The members of an object that is not empty, up to and including its closing brace. */
  function ParseMembers(num: NumberText, t: Text, done: seq<Member>): (r: Parsed<seq<Member>>)
    ensures r.Ok? ==> |r.rest| < |t|
    decreases |t|, 2
  {
    var k := ParseKey(t);
    if k.Fail? then Fail
    else
      var v := ParseValue(num, k.rest);
      if v.Fail? then Fail
      else
        var ms := Put(done, Member(k.value, v.value));
        var s := SkipSpace(v.rest);
        if s == [] then Fail
        else if s[0] == RBRACE then Ok(ms, s[1..])
        else if s[0] == COMMA then ParseMembers(num, s[1..], ms)
        else Fail
  }

  /** A whole JSON text. */
  function Parse(num: NumberText, t: Text): Option<Value> {
    var r := ParseValue(num, t);
    if r.Ok? && SkipSpace(r.rest) == [] then Some(r.value) else None
  }

  // ---- what a parsed value looks like ----

  /** Numbers are printed doubles, objects list their keys in JavaScript's order. */
  ghost predicate Normal(num: NumberText, v: Value)
    decreases v
  {
    match v
    case Num(t) => IsInfinite(t) || (IsNumber(t) && num(t) == t)
    case Arr(es) => forall i :: 0 <= i < |es| ==> Normal(num, es[i])
    case Obj(ms) => NormalKeys(ms) && forall i :: 0 <= i < |ms| ==> Normal(num, ms[i].value)
    case _ => true
  }

  ghost predicate AllNormal(num: NumberText, es: seq<Value>) {
    forall i :: 0 <= i < |es| ==> Normal(num, es[i])
  }

  ghost predicate MembersNormal(num: NumberText, ms: seq<Member>) {
    NormalKeys(ms) && forall i :: 0 <= i < |ms| ==> Normal(num, ms[i].value)
  }

  lemma PutMembersNormal(num: NumberText, ms: seq<Member>, m: Member)
    requires MembersNormal(num, ms) && Normal(num, m.value)
    ensures MembersNormal(num, Put(ms, m))
  {
    hide NormalKeys;
    PutKeepsNormal(ms, m);
    var r := Put(ms, m);
    forall i | 0 <= i < |r|
      ensures Normal(num, r[i].value)
    {
      if HasKey(ms, m.key) {
        ReplaceAt(ms, m, i);
      } else {
        InsertMembers(ms, m, i);
        if r[i] != m {
          var j :| 0 <= j < |ms| && ms[j] == r[i];
        }
      }
    }
  }

  lemma ScalarNormal(num: NumberText, t: Text)
    requires NumbersPrint(num) && t != []
    ensures ParseScalar(num, t).Ok? ==> Normal(num, ParseScalar(num, t).value)
  {
  }

  /** Whatever text is parsed, the value is normal. */
  lemma {:induction false} ParsedIsNormal(num: NumberText, t: Text)
    requires NumbersPrint(num)
    ensures ParseValue(num, t).Ok? ==> Normal(num, ParseValue(num, t).value)
    decreases |t|, 1
  {
    hide NumbersPrint, ParseScalar, NormalKeys;
    var s := SkipSpace(t);
    if s != [] {
      if s[0] == LBRACKET {
        ElementsNormal(num, s[1..]);
      } else if s[0] == LBRACE {
        NoMembers(num);
        MembersAreNormal(num, s[1..], []);
      } else {
        ScalarNormal(num, s);
      }
    }
  }

  lemma NoMembers(num: NumberText)
    ensures MembersNormal(num, []) && Normal(num, Obj([]))
  {
  }

  lemma {:induction false} ElementsNormal(num: NumberText, t: Text)
    requires NumbersPrint(num)
    ensures ParseElements(num, t).Ok? ==> AllNormal(num, ParseElements(num, t).value)
    decreases |t|, 2
  {
    hide NumbersPrint;
    ParsedIsNormal(num, t);
    var v := ParseValue(num, t);
    if v.Ok? {
      var s := SkipSpace(v.rest);
      if s != [] && s[0] == COMMA {
        ElementsNormal(num, s[1..]);
      }
    }
  }

  lemma {:induction false} MembersAreNormal(num: NumberText, t: Text, done: seq<Member>)
    requires NumbersPrint(num) && MembersNormal(num, done)
    ensures ParseMembers(num, t, done).Ok? ==> MembersNormal(num, ParseMembers(num, t, done).value)
    decreases |t|, 2
  {
    hide NumbersPrint, MembersNormal, Put;
    var k := ParseKey(t);
    if k.Ok? {
      ParsedIsNormal(num, k.rest);
      var v := ParseValue(num, k.rest);
      if v.Ok? {
        PutMembersNormal(num, done, Member(k.value, v.value));
        var s := SkipSpace(v.rest);
        if s != [] && s[0] == COMMA {
          MembersAreNormal(num, s[1..], Put(done, Member(k.value, v.value)));
        }
      }
    }
  }

  // ---- where a value ends ----

  ghost predicate IsTail(r: Text, t: Text) {
    |r| <= |t| && r == t[|t| - |r|..]
  }

  /** What was read of t, down to the rest r, ends with this unit. */
  ghost predicate EndsWith(t: Text, r: Text, u: Unit) {
    |r| < |t| && IsTail(r, t) && t[|t| - |r| - 1] == u
  }

  lemma TailOfTail(r: Text, s: Text, t: Text)
    requires IsTail(r, s) && IsTail(s, t)
    ensures IsTail(r, t)
  {
    assert s[|s| - |r|..] == t[|t| - |r|..];
  }

  lemma EndOfTail(r: Text, s: Text, t: Text, u: Unit)
    requires EndsWith(s, r, u) && IsTail(s, t)
    ensures EndsWith(t, r, u)
  {
    TailOfTail(r, s, t);
    assert s[|s| - |r| - 1] == t[|t| - |s| + (|s| - |r| - 1)];
  }

  lemma DropIsTail(t: Text, n: nat)
    requires n <= |t|
    ensures IsTail(t[n..], t)
    ensures n > 0 ==> EndsWith(t, t[n..], t[n - 1])
  {
  }

  lemma {:induction false} SpaceTail(t: Text)
    ensures IsTail(SkipSpace(t), t)
    decreases |t|
  {
    if t != [] && IsJsonSpace(t[0]) {
      SpaceTail(t[1..]);
      TailOfTail(SkipSpace(t[1..]), t[1..], t);
    }
  }

  lemma EscapeTail(t: Text)
    requires t != []
    ensures ParseEscape(t).Ok? ==> IsTail(ParseEscape(t).rest, t)
  {
    DropIsTail(t, 1);
    if |t| >= 5 {
      DropIsTail(t, 5);
    }
  }

  lemma {:induction false} StringTail(t: Text)
    ensures ParseString(t).Ok? ==> IsTail(ParseString(t).rest, t)
    decreases |t|
  {
    hide ParseEscape, IsTail;
    if t != [] && ParseString(t).Ok? {
      DropIsTail(t, 1);
      if t[0] == BACKSLASH {
        EscapeTail(t[1..]);
        var e := ParseEscape(t[1..]);
        StringTail(e.rest);
        TailOfTail(e.rest, t[1..], t);
        TailOfTail(ParseString(t).rest, e.rest, t);
      } else if t[0] != QUOTE {
        StringTail(t[1..]);
        TailOfTail(ParseString(t).rest, t[1..], t);
      }
    }
  }

  lemma ScalarTail(num: NumberText, t: Text)
    requires t != []
    ensures ParseScalar(num, t).Ok? ==>
      IsTail(ParseScalar(num, t).rest, t) && !ParseScalar(num, t).value.Arr? && !ParseScalar(num, t).value.Obj?
  {
    hide ParseString, IsNumber;
    DropIsTail(t, 1);
    StringTail(t[1..]);
    if t[0] == QUOTE && ParseString(t[1..]).Ok? {
      TailOfTail(ParseString(t[1..]).rest, t[1..], t);
    }
    DropIsTail(t, NumberRun(t));
  }

  lemma KeyTail(t: Text)
    ensures ParseKey(t).Ok? ==> IsTail(ParseKey(t).rest, t)
  {
    hide ParseString, IsTail;
    if ParseKey(t).Ok? {
      var s := SkipSpace(t);
      SpaceTail(t);
      DropIsTail(s, 1);
      StringTail(s[1..]);
      var k := ParseString(s[1..]);
      SpaceTail(k.rest);
      var c := SkipSpace(k.rest);
      DropIsTail(c, 1);
      TailOfTail(c[1..], c, k.rest);
      TailOfTail(c[1..], k.rest, s[1..]);
      TailOfTail(c[1..], s[1..], s);
      TailOfTail(c[1..], s, t);
    }
  }

  /** A bracketed value starts with its opening bracket, after white space, and ends with its closing one. */
  ghost predicate Spans(t: Text, v: Value, r: Text) {
    && IsTail(r, t)
    && (v.Arr? ==> SkipSpace(t) != [] && SkipSpace(t)[0] == LBRACKET && EndsWith(t, r, RBRACKET))
    && (v.Obj? ==> SkipSpace(t) != [] && SkipSpace(t)[0] == LBRACE && EndsWith(t, r, RBRACE))
  }

  lemma {:induction false} ValueSpans(num: NumberText, t: Text)
    ensures ParseValue(num, t).Ok? ==> Spans(t, ParseValue(num, t).value, ParseValue(num, t).rest)
    decreases |t|, 1
  {
    hide ParseScalar, IsTail, EndsWith, ParseElements, ParseMembers;
    var s, r := SkipSpace(t), ParseValue(num, t);
    if r.Ok? {
      SpaceTail(t);
      DropIsTail(s, 1);
      if s[0] == LBRACKET {
        BracketSpans(s[1..], RBRACKET);
        ElementsEnd(num, s[1..]);
        EndOfTail(r.rest, s[1..], s, RBRACKET);
        EndOfTail(r.rest, s, t, RBRACKET);
        EndIsTail(t, r.rest, RBRACKET);
      } else if s[0] == LBRACE {
        BracketSpans(s[1..], RBRACE);
        MembersEnd(num, s[1..], []);
        EndOfTail(r.rest, s[1..], s, RBRACE);
        EndOfTail(r.rest, s, t, RBRACE);
        EndIsTail(t, r.rest, RBRACE);
      } else {
        ScalarTail(num, s);
        TailOfTail(r.rest, s, t);
      }
    }
  }

  lemma EndIsTail(t: Text, r: Text, u: Unit)
    requires EndsWith(t, r, u)
    ensures IsTail(r, t)
  {
  }

  lemma BracketSpans(t: Text, u: Unit)
    ensures var inner := SkipSpace(t); inner != [] && inner[0] == u ==> EndsWith(t, inner[1..], u)
  {
    var inner := SkipSpace(t);
    SpaceTail(t);
    if inner != [] && inner[0] == u {
      DropIsTail(inner, 1);
      EndOfTail(inner[1..], inner, t, u);
    }
  }

  /** What follows a value, white space and one unit. */
  lemma AfterValue(t: Text, rest: Text)
    requires IsTail(rest, t)
    ensures var s := SkipSpace(rest); s != [] ==> EndsWith(t, s[1..], s[0])
  {
    hide IsTail, EndsWith;
    var s := SkipSpace(rest);
    SpaceTail(rest);
    TailOfTail(s, rest, t);
    if s != [] {
      DropIsTail(s, 1);
      EndOfTail(s[1..], s, t, s[0]);
    }
  }

  lemma {:induction false} ElementsEnd(num: NumberText, t: Text)
    ensures ParseElements(num, t).Ok? ==> EndsWith(t, ParseElements(num, t).rest, RBRACKET)
    decreases |t|, 2
  {
    hide IsTail, EndsWith, ParseValue;
    var v, r := ParseValue(num, t), ParseElements(num, t);
    if r.Ok? {
      ValueSpans(num, t);
      AfterValue(t, v.rest);
      var s := SkipSpace(v.rest);
      if s[0] == COMMA {
        ElementsEnd(num, s[1..]);
        EndIsTail(t, s[1..], COMMA);
        EndOfTail(r.rest, s[1..], t, RBRACKET);
      }
    }
  }

  lemma {:induction false} MembersEnd(num: NumberText, t: Text, done: seq<Member>)
    ensures ParseMembers(num, t, done).Ok? ==> EndsWith(t, ParseMembers(num, t, done).rest, RBRACE)
    decreases |t|, 2
  {
    hide IsTail, EndsWith, ParseValue, ParseKey, Put;
    var k, r := ParseKey(t), ParseMembers(num, t, done);
    if r.Ok? {
      KeyTail(t);
      ValueSpans(num, k.rest);
      var v := ParseValue(num, k.rest);
      TailOfTail(v.rest, k.rest, t);
      AfterValue(t, v.rest);
      var s := SkipSpace(v.rest);
      if s[0] == COMMA {
        MembersEnd(num, s[1..], Put(done, Member(k.value, v.value)));
        EndIsTail(t, s[1..], COMMA);
        EndOfTail(r.rest, s[1..], t, RBRACE);
      }
    }
  }
}
