/**
 JSON texts (RFC 8259) over UTF-16 code units, as `JSON.parse` and `JSON.stringify` treat them. A number is carried
 as the text `String(x)` gives for it; how the double is found is the caller's `NumberText`.
 */
module JsonText {
  import opened Options

  type Unit = u: int | 0 <= u < 0x1_0000
  type Text = seq<Unit>

  const QUOTE: Unit := '"' as int
  const BACKSLASH: Unit := '\\' as int
  const SLASH: Unit := '/' as int
  const COMMA: Unit := ',' as int
  const COLON: Unit := ':' as int
  const LBRACE: Unit := '{' as int
  const RBRACE: Unit := '}' as int
  const LBRACKET: Unit := '[' as int
  const RBRACKET: Unit := ']' as int
  const SPACE: Unit := ' ' as int
  const NEWLINE: Unit := 10
  const MINUS: Unit := '-' as int
  const ZERO: Unit := '0' as int
  const NULL_TEXT: Text := ['n' as int, 'u' as int, 'l' as int, 'l' as int]
  const TRUE_TEXT: Text := ['t' as int, 'r' as int, 'u' as int, 'e' as int]
  const FALSE_TEXT: Text := ['f' as int, 'a' as int, 'l' as int, 's' as int, 'e' as int]
  const INFINITY_TEXT: Text :=
    ['I' as int, 'n' as int, 'f' as int, 'i' as int, 'n' as int, 'i' as int, 't' as int, 'y' as int]

  datatype Value =
    | Null
    | Bool(b: bool)
    | Num(text: Text)
    | Str(s: Text)
    | Arr(elems: seq<Value>)
    | Obj(members: seq<Member>)

  datatype Member = Member(key: Text, value: Value)

  datatype Parsed<T> = Fail | Ok(value: T, rest: Text)

  // ---- objects: the order in which a JavaScript object lists its keys ----

  predicate IsDigit(u: Unit) {
    '0' as int <= u <= '9' as int
  }

  function Decimal(k: Text): nat {
    if k == [] then 0
    else
      var n := |k| - 1;
      Decimal(k[..n]) * 10 + (if IsDigit(k[n]) then k[n] - ZERO else 0)
  }

  predicate AllDigits(k: Text) {
    forall i :: 0 <= i < |k| ==> IsDigit(k[i])
  }

  /** An array index in canonical form; such keys come first, in numeric order. */
  predicate IsIndex(k: Text) {
    && k != [] && AllDigits(k) && (k[0] == ZERO ==> |k| == 1)
    && Decimal(k) < 0xFFFF_FFFF
  }

  /** The decimal numeral of n. */
  function Numeral(n: nat): (r: Text)
    ensures r != []
  {
    if n < 10 then [48 + n] else Numeral(n / 10) + [48 + n % 10]
  }

  lemma {:induction false} NumeralIsDecimal(n: nat)
    ensures Decimal(Numeral(n)) == n && AllDigits(Numeral(n)) && (Numeral(n)[0] == 48 <==> n == 0)
  {
    var k := Numeral(n);
    if n >= 10 {
      NumeralIsDecimal(n / 10);
      assert k[..|k| - 1] == Numeral(n / 10);
    } else {
      assert k[..0] == [];
    }
  }

  lemma {:induction false} DecimalIsNumeral(k: Text)
    requires k != [] && AllDigits(k) && (k[0] == 48 ==> |k| == 1)
    ensures Numeral(Decimal(k)) == k
  {
    var n := |k| - 1;
    if n == 0 {
      assert k[..0] == [];
    } else {
      DecimalIsNumeral(k[..n]);
      PositiveDecimal(k[..n]);
      assert k == k[..n] + [k[n]];
    }
  }

  /** The keys listed first are the numerals of the numbers below 2 to the power of 32, less one. */
  lemma IndexIff(k: Text)
    ensures IsIndex(k) <==> exists n: nat :: n < 4_294_967_295 && k == Numeral(n)
  {
    if IsIndex(k) {
      DecimalIsNumeral(k);
    }
    if n: nat :| n < 4_294_967_295 && k == Numeral(n) {
      NumeralIsDecimal(n);
      if n < 10 {
        assert k == [48 + n];
      }
    }
  }

  lemma {:induction false} PositiveDecimal(k: Text)
    requires AllDigits(k) && k != [] && k[0] != ZERO
    ensures Decimal(k) > 0
  {
    if |k| > 1 {
      PositiveDecimal(k[..|k| - 1]);
    } else {
      assert k[..0] == [];
    }
  }

  lemma {:induction false} DecimalIsInjective(a: Text, b: Text)
    requires AllDigits(a) && AllDigits(b) && Decimal(a) == Decimal(b)
    requires (a == [] || a[0] != ZERO) && (b == [] || b[0] != ZERO)
    ensures a == b
  {
    if a == [] {
      if b != [] {
        PositiveDecimal(b);
      }
    } else if b == [] {
      PositiveDecimal(a);
    } else {
      var m, n := |a| - 1, |b| - 1;
      assert a[m] == b[n] && Decimal(a[..m]) == Decimal(b[..n]);
      DecimalIsInjective(a[..m], b[..n]);
      assert a == a[..m] + [a[m]] && b == b[..n] + [b[n]];
    }
  }

  lemma IndexIsItsNumber(a: Text, b: Text)
    requires IsIndex(a) && IsIndex(b) && Decimal(a) == Decimal(b)
    ensures a == b
  {
    if a[0] == ZERO || b[0] == ZERO {
      var zero := if a[0] == ZERO then a else b;
      var other := if a[0] == ZERO then b else a;
      assert zero[..0] == [];
      assert Decimal(zero) == 0;
      if other[0] != ZERO {
        PositiveDecimal(other);
      }
    } else {
      DecimalIsInjective(a, b);
    }
  }

  /** May key a stand before key b? */
  predicate Precedes(a: Text, b: Text) {
    a != b && (IsIndex(b) ==> IsIndex(a) && Decimal(a) < Decimal(b))
  }

  ghost predicate NormalKeys(ms: seq<Member>) {
    forall i, j :: 0 <= i < j < |ms| ==> Precedes(ms[i].key, ms[j].key)
  }

  predicate HasKey(ms: seq<Member>, k: Text) {
    exists i :: 0 <= i < |ms| && ms[i].key == k
  }

  /** Assigning to a key the object has: its place does not change. */
  function Replace(ms: seq<Member>, m: Member): (r: seq<Member>)
    ensures |r| == |ms|
  {
    if ms == [] then [] else [if ms[0].key == m.key then m else ms[0]] + Replace(ms[1..], m)
  }

  /** Assigning to a new key. */
  function Insert(ms: seq<Member>, m: Member): (r: seq<Member>)
    ensures |r| == |ms| + 1
  {
    if ms == [] then [m]
    else if IsIndex(m.key) && !(IsIndex(ms[0].key) && Decimal(ms[0].key) < Decimal(m.key)) then [m] + ms
    else [ms[0]] + Insert(ms[1..], m)
  }

  function Put(ms: seq<Member>, m: Member): seq<Member> {
    if HasKey(ms, m.key) then Replace(ms, m) else Insert(ms, m)
  }

  lemma {:induction false} ReplaceAt(ms: seq<Member>, m: Member, i: nat)
    requires i < |ms|
    ensures Replace(ms, m)[i] == if ms[i].key == m.key then m else ms[i]
  {
    if i > 0 {
      ReplaceAt(ms[1..], m, i - 1);
    }
  }

  lemma {:induction false} InsertAtEnd(ms: seq<Member>, m: Member)
    requires forall i :: 0 <= i < |ms| ==> Precedes(ms[i].key, m.key)
    ensures Insert(ms, m) == ms + [m]
  {
    if ms != [] {
      assert Precedes(ms[0].key, m.key);
      InsertAtEnd(ms[1..], m);
    }
  }

  /** A key that may follow all present ones is appended. */
  lemma PutAtEnd(ms: seq<Member>, m: Member)
    requires forall i :: 0 <= i < |ms| ==> Precedes(ms[i].key, m.key)
    ensures Put(ms, m) == ms + [m]
  {
    InsertAtEnd(ms, m);
  }

  lemma KeyOrder(m: Text, h: Text, x: Text)
    requires IsIndex(m) && m != h && m != x && !(IsIndex(h) && Decimal(h) < Decimal(m)) && Precedes(h, x)
    ensures Precedes(m, h) && Precedes(m, x)
  {
    if IsIndex(h) && Decimal(h) == Decimal(m) {
      IndexIsItsNumber(m, h);
    }
  }

  lemma KeyBefore(m: Text, h: Text)
    requires IsIndex(m) && m != h && !(IsIndex(h) && Decimal(h) < Decimal(m))
    ensures Precedes(m, h)
  {
    if IsIndex(h) && Decimal(h) == Decimal(m) {
      IndexIsItsNumber(m, h);
    }
  }

  lemma {:induction false} InsertMembers(ms: seq<Member>, m: Member, i: nat)
    requires i < |ms| + 1
    ensures Insert(ms, m)[i] == m || Insert(ms, m)[i] in ms
  {
    if ms != [] && i > 0 && Insert(ms, m) == [ms[0]] + Insert(ms[1..], m) {
      InsertMembers(ms[1..], m, i - 1);
    }
  }

  lemma NormalCons(h: Member, ms: seq<Member>)
    requires NormalKeys(ms) && forall i :: 0 <= i < |ms| ==> Precedes(h.key, ms[i].key)
    ensures NormalKeys([h] + ms)
  {
  }

  lemma {:induction false} InsertKeepsNormal(ms: seq<Member>, m: Member)
    requires NormalKeys(ms) && !HasKey(ms, m.key)
    ensures NormalKeys(Insert(ms, m))
  {
    if ms == [] {
    } else if IsIndex(m.key) && !(IsIndex(ms[0].key) && Decimal(ms[0].key) < Decimal(m.key)) {
      forall i | 0 <= i < |ms|
        ensures Precedes(m.key, ms[i].key)
      {
        if i == 0 {
          KeyBefore(m.key, ms[0].key);
        } else {
          KeyOrder(m.key, ms[0].key, ms[i].key);
        }
      }
      NormalCons(m, ms);
    } else {
      var tail := ms[1..];
      assert !HasKey(tail, m.key) by {
        assert forall i :: 0 <= i < |tail| ==> tail[i] == ms[i + 1];
      }
      InsertKeepsNormal(tail, m);
      var r := Insert(tail, m);
      forall i | 0 <= i < |r|
        ensures Precedes(ms[0].key, r[i].key)
      {
        InsertMembers(tail, m, i);
        if r[i] in tail {
          var j :| 0 <= j < |tail| && tail[j] == r[i];
          assert ms[j + 1] == r[i];
        }
      }
      NormalCons(ms[0], r);
    }
  }

  lemma PutKeepsNormal(ms: seq<Member>, m: Member)
    requires NormalKeys(ms)
    ensures NormalKeys(Put(ms, m))
  {
    if HasKey(ms, m.key) {
      forall i, j | 0 <= i < j < |ms|
        ensures Precedes(Replace(ms, m)[i].key, Replace(ms, m)[j].key)
      {
        ReplaceAt(ms, m, i);
        ReplaceAt(ms, m, j);
      }
    } else {
      InsertKeepsNormal(ms, m);
    }
  }

  // ---- strings ----

  predicate IsLead(u: Unit) {
    0xD800 <= u <= 0xDBFF
  }

  predicate IsTrail(u: Unit) {
    0xDC00 <= u <= 0xDFFF
  }

  function HexDigit(d: int): Unit
    requires 0 <= d < 16
  {
    if d < 10 then ZERO + d else 'a' as int + (d - 10)
  }

  function HexValue(u: Unit): (d: Option<int>)
    ensures d.Some? ==> 0 <= d.value < 16
  {
    if IsDigit(u) then Some(u - ZERO)
    else if 'a' as int <= u <= 'f' as int then Some(u - 'a' as int + 10)
    else if 'A' as int <= u <= 'F' as int then Some(u - 'A' as int + 10)
    else None
  }

  function HexEscape(u: Unit): Text {
    [BACKSLASH, 'u' as int, HexDigit(u / 4096), HexDigit(u / 256 % 16), HexDigit(u / 16 % 16), HexDigit(u % 16)]
  }

  /** One code unit inside a string literal, unless it is part of a surrogate pair. */
  function EscapeUnit(u: Unit): Text {
    if u == QUOTE then [BACKSLASH, QUOTE]
    else if u == BACKSLASH then [BACKSLASH, BACKSLASH]
    else if u == 8 then [BACKSLASH, 'b' as int]
    else if u == 12 then [BACKSLASH, 'f' as int]
    else if u == 10 then [BACKSLASH, 'n' as int]
    else if u == 13 then [BACKSLASH, 'r' as int]
    else if u == 9 then [BACKSLASH, 't' as int]
    else if u < 0x20 || IsLead(u) || IsTrail(u) then HexEscape(u)
    else [u]
  }

  function Escape(s: Text): Text {
    if s == [] then []
    else if |s| >= 2 && IsLead(s[0]) && IsTrail(s[1]) then s[..2] + Escape(s[2..])
    else EscapeUnit(s[0]) + Escape(s[1..])
  }

  /**
   A unit is written with a backslash and a letter if there is such a form, with six units if it is any other control
   character or half of a broken pair, and as itself otherwise.
   */
  lemma EscapedLength(u: Unit)
    ensures |EscapeUnit(u)| ==
      if u in {34, 92, 8, 9, 10, 12, 13} then 2 else if u < 0x20 || 0xD800 <= u <= 0xDFFF then 6 else 1
    ensures |EscapeUnit(u)| == 1 ==> EscapeUnit(u) == [u]
  {
  }

  /** A pair of surrogates is written as itself, and any other unit on its own. */
  lemma EscapedFirst(u: Unit, s: Text)
    ensures Escape([u] + s) ==
      if s != [] && 0xD800 <= u <= 0xDBFF && 0xDC00 <= s[0] <= 0xDFFF then [u, s[0]] + Escape(s[1..])
      else EscapeUnit(u) + Escape(s)
  {
    var t := [u] + s;
    assert t[1..] == s;
    if s != [] {
      assert t[..2] == [u, s[0]] && t[2..] == s[1..];
    }
  }

  /** `JSON.stringify` of a string. */
  function Quote(s: Text): Text {
    [QUOTE] + Escape(s) + [QUOTE]
  }

  /** What follows a backslash, given that at least one unit does. */
  function ParseEscape(t: Text): (r: Parsed<Unit>)
    requires t != []
    ensures r.Ok? ==> |r.rest| < |t|
  {
    var c := t[0];
    if c == QUOTE || c == BACKSLASH || c == SLASH then Ok(c, t[1..])
    else if c == 'b' as int then Ok(8, t[1..])
    else if c == 'f' as int then Ok(12, t[1..])
    else if c == 'n' as int then Ok(10, t[1..])
    else if c == 'r' as int then Ok(13, t[1..])
    else if c == 't' as int then Ok(9, t[1..])
    else if c == 'u' as int && |t| >= 5 then ParseHex(t)
    else Fail
  }

  function ParseHex(t: Text): (r: Parsed<Unit>)
    requires |t| >= 5
    ensures r.Ok? ==> |r.rest| < |t|
  {
    var a, b, c, d := HexValue(t[1]), HexValue(t[2]), HexValue(t[3]), HexValue(t[4]);
    if a.Some? && b.Some? && c.Some? && d.Some? then Ok(a.value * 4096 + b.value * 256 + c.value * 16 + d.value, t[5..])
    else Fail
  }

  /** The rest of a string literal, after its opening quote. */
  function ParseString(t: Text): (r: Parsed<Text>)
    ensures r.Ok? ==> |r.rest| < |t|
    decreases |t|
  {
    if t == [] then Fail
    else if t[0] == QUOTE then Ok([], t[1..])
    else if t[0] == BACKSLASH then
      if |t| < 2 then Fail
      else
        var e := ParseEscape(t[1..]);
        if e.Fail? then Fail
        else
          var r := ParseString(e.rest);
          if r.Fail? then Fail else Ok([e.value] + r.value, r.rest)
    else if t[0] < 0x20 then Fail
    else
      var r := ParseString(t[1..]);
      if r.Fail? then Fail else Ok([t[0]] + r.value, r.rest)
  }

  lemma HexRoundTrip(u: Unit, rest: Text)
    ensures ParseHex(HexEscape(u)[1..] + rest) == Ok(u, rest)
  {
    HexPieces(u);
    var t := HexEscape(u)[1..] + rest;
    assert t[5..] == rest;
    assert t[1] == HexDigit(u / 4096) && t[2] == HexDigit(u / 256 % 16) && t[3] == HexDigit(u / 16 % 16)
      && t[4] == HexDigit(u % 16);
  }

  lemma HexPieces(u: Unit)
    ensures 0 <= u / 4096 < 16
    ensures u / 4096 * 4096 + u / 256 % 16 * 256 + u / 16 % 16 * 16 + u % 16 == u
  {
    var a, b, c := u / 16, u / 256, u / 4096;
    assert b == a / 16 && c == b / 16;
    assert u == a * 16 + u % 16 && a == b * 16 + a % 16 && b == c * 16 + b % 16;
  }

  function Prepend(u: Unit, r: Parsed<Text>): Parsed<Text> {
    if r.Fail? then Fail else Ok([u] + r.value, r.rest)
  }

  lemma PlainUnit(u: Unit, rest: Text)
    requires u >= 0x20 && u != QUOTE && u != BACKSLASH
    ensures ParseString([u] + rest) == Prepend(u, ParseString(rest))
  {
    assert ([u] + rest)[1..] == rest;
  }

  lemma AfterBackslash(e: Text, u: Unit, rest: Text)
    requires e != [] && ParseEscape(e + rest) == Ok(u, rest)
    ensures ParseString([BACKSLASH] + e + rest) == Prepend(u, ParseString(rest))
  {
    hide ParseEscape;
    var t := [BACKSLASH] + e + rest;
    assert t[1..] == e + rest;
  }

  lemma ShortEscape(c: Unit, u: Unit, rest: Text)
    requires c != 'u' as int && ParseEscape([c]) == Ok(u, [])
    ensures ParseEscape([c] + rest) == Ok(u, rest)
  {
    assert ([c] + rest)[1..] == rest;
  }

  lemma EscapedUnit(u: Unit, rest: Text)
    ensures ParseString(EscapeUnit(u) + rest) == Prepend(u, ParseString(rest))
  {
    hide ParseString;
    var e := EscapeUnit(u);
    if e == [u] {
      PlainUnit(u, rest);
    } else {
      assert e == [BACKSLASH] + e[1..];
      if |e| == 2 {
        assert e[1..] == [e[1]];
        assert [e[1]][1..] == [];
        ShortEscape(e[1], u, rest);
      } else {
        HexRoundTrip(u, rest);
      }
      AfterBackslash(e[1..], u, rest);
    }
  }

  /** Reading back a quoted string gives the string, whatever code units it has. */
  lemma {:induction false} QuoteRoundTrip(s: Text, rest: Text)
    ensures ParseString(Escape(s) + [QUOTE] + rest) == Ok(s, rest)
    decreases |s|
  {
    hide ParseString, EscapeUnit;
    if s == [] {
      assert Escape(s) + [QUOTE] + rest == [QUOTE] + rest;
      ClosingQuote(rest);
    } else if |s| >= 2 && IsLead(s[0]) && IsTrail(s[1]) {
      var more := Escape(s[2..]) + [QUOTE] + rest;
      QuoteRoundTrip(s[2..], rest);
      assert Escape(s) + [QUOTE] + rest == [s[0]] + ([s[1]] + more);
      PlainUnit(s[1], more);
      PlainUnit(s[0], [s[1]] + more);
      assert s == [s[0]] + ([s[1]] + s[2..]);
    } else {
      var more := Escape(s[1..]) + [QUOTE] + rest;
      QuoteRoundTrip(s[1..], rest);
      assert Escape(s) + [QUOTE] + rest == EscapeUnit(s[0]) + more;
      EscapedUnit(s[0], more);
      assert s == [s[0]] + s[1..];
    }
  }

  lemma ClosingQuote(rest: Text)
    ensures ParseString([QUOTE] + rest) == Ok([], rest)
  {
    assert ([QUOTE] + rest)[1..] == rest;
  }
}
