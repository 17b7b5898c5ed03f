/** `encodeURIComponent` and `decodeURIComponent` (RFC 3986, section 2.1, over UTF-8), and splitting at a separator. */
module Percent {
  import opened Options

  predicate Unreserved(c: char) {
    || 'A' <= c <= 'Z' || 'a' <= c <= 'z' || '0' <= c <= '9'
    || c == '-' || c == '_' || c == '.' || c == '!' || c == '~' || c == '*' || c == '\'' || c == '(' || c == ')'
  }

  function HexDigit(d: int): char
    requires 0 <= d < 16
  {
    if d < 10 then (d + '0' as int) as char else (d - 10 + 'A' as int) as char
  }

  function HexValue(c: char): (d: Option<int>)
    ensures d.Some? ==> 0 <= d.value < 16
  {
    if '0' <= c <= '9' then Some(c as int - '0' as int)
    else if 'A' <= c <= 'F' then Some(c as int - 'A' as int + 10)
    else if 'a' <= c <= 'f' then Some(c as int - 'a' as int + 10)
    else None
  }

  type Byte = b: int | 0 <= b < 256

  function Octet(b: Byte): string {
    ['%', HexDigit(b / 16), HexDigit(b % 16)]
  }

  function Octets(bs: seq<Byte>): string {
    if bs == [] then "" else Octet(bs[0]) + Octets(bs[1..])
  }

  /** The UTF-8 form of a character. */
  function Utf8(c: char): (bs: seq<Byte>)
    ensures 1 <= |bs| <= 4
  {
    var n := c as int;
    if n < 0x80 then [n]
    else if n < 0x800 then [0xC0 + n / 64, 0x80 + n % 64]
    else if n < 0x1_0000 then [0xE0 + n / 4096, 0x80 + n / 64 % 64, 0x80 + n % 64]
    else [0xF0 + n / 0x4_0000, 0x80 + n / 4096 % 64, 0x80 + n / 64 % 64, 0x80 + n % 64]
  }

  function EncodeChar(c: char): string {
    if Unreserved(c) then [c] else Octets(Utf8(c))
  }

  /** Letters, digits and `-_.!~*'()`. */
  predicate Stays(c: char) {
    var n := c as int;
    65 <= n <= 90 || 97 <= n <= 122 || 48 <= n <= 57 || n in {33, 39, 40, 41, 42, 45, 46, 95, 126}
  }

  /** These characters stay, and every other one becomes escapes that start with a percent sign. */
  lemma EncodedChar(c: char)
    ensures if Stays(c) then EncodeChar(c) == [c] else EncodeChar(c) != [] && EncodeChar(c)[0] == '%'
  {
    assert Unreserved(c) <==> Stays(c);
  }

  function Encode(s: string): string {
    if s == "" then "" else EncodeChar(s[0]) + Encode(s[1..])
  }

  /** The byte that an escape at the start of s stands for. */
  function ByteAt(s: string): (b: Option<Byte>)
    ensures b.Some? ==> |s| >= 3
  {
    if |s| >= 3 && s[0] == '%' && HexValue(s[1]).Some? && HexValue(s[2]).Some?
    then Some(HexValue(s[1]).value * 16 + HexValue(s[2]).value)
    else None
  }

  /** How many bytes a UTF-8 sequence has, by its first byte. */
  function SequenceLength(b: Byte): nat {
    if b < 0x80 then 1
    else if 0xC0 <= b < 0xE0 then 2
    else if 0xE0 <= b < 0xF0 then 3
    else if 0xF0 <= b < 0xF8 then 4
    else 0
  }

  /** The payload of n continuation bytes at the start of s, after the bits already read. */
  function Continue(s: string, n: nat, bits: nat): Option<nat> {
    if n == 0 then Some(bits)
    else
      var b := ByteAt(s);
      if b.None? || !(0x80 <= b.value < 0xC0) then None
      else Continue(s[3..], n - 1, bits * 64 + (b.value - 0x80))
  }

  function LeadBits(b: Byte, len: nat): nat {
    if len == 1 then b
    else if len == 2 && b >= 0xC0 then b - 0xC0
    else if len == 3 && b >= 0xE0 then b - 0xE0
    else if len == 4 && b >= 0xF0 then b - 0xF0
    else 0
  }

  /** A code point that is not overlong, not a surrogate and not beyond Unicode. */
  predicate WellFormed(n: nat, len: nat) {
    && (len == 2 ==> n >= 0x80) && (len == 3 ==> n >= 0x800) && (len == 4 ==> n >= 0x1_0000)
    && (n < 0xD800 || 0xE000 <= n < 0x11_0000)
  }

  /** `decodeURIComponent`; no value where the source throws. */
  function Decode(s: string): Option<string>
    decreases |s|
  {
    if s == "" then Some("")
    else if s[0] != '%' then
      var r := Decode(s[1..]);
      if r.None? then None else Some([s[0]] + r.value)
    else
      var b := ByteAt(s);
      if b.None? || SequenceLength(b.value) == 0 || |s| < 3 * SequenceLength(b.value) then None
      else
        var len := SequenceLength(b.value);
        var n := Continue(s[3..], len - 1, LeadBits(b.value, len));
        if n.None? || !WellFormed(n.value, len) then None
        else
          var r := Decode(s[3 * len..]);
          if r.None? then None else Some([n.value as char] + r.value)
  }

  function SafeDecode(s: string): string {
    var r := Decode(s);
    if r.Some? then r.value else s
  }

  // ---- the round trip ----

  lemma HexRoundTrip(d: int)
    requires 0 <= d < 16
    ensures HexValue(HexDigit(d)) == Some(d)
  {
  }

  lemma ReadOctet(b: Byte, rest: string)
    ensures ByteAt(Octet(b) + rest) == Some(b) && (Octet(b) + rest)[3..] == rest
  {
    HexRoundTrip(b / 16);
    HexRoundTrip(b % 16);
  }

  /** The value of continuation bytes read after the bits already there. */
  function Payload(bs: seq<Byte>, bits: nat): nat
    requires forall i :: 0 <= i < |bs| ==> 0x80 <= bs[i] < 0xC0
  {
    if bs == [] then bits else Payload(bs[1..], bits * 64 + (bs[0] - 0x80))
  }

  lemma {:induction false} ReadContinuation(bs: seq<Byte>, bits: nat, rest: string)
    requires forall i :: 0 <= i < |bs| ==> 0x80 <= bs[i] < 0xC0
    ensures Continue(Octets(bs) + rest, |bs|, bits) == Some(Payload(bs, bits))
  {
    if bs != [] {
      assert Octets(bs) + rest == Octet(bs[0]) + (Octets(bs[1..]) + rest);
      ReadOctet(bs[0], Octets(bs[1..]) + rest);
      ReadContinuation(bs[1..], bits * 64 + (bs[0] - 0x80), rest);
    }
  }

  lemma {:induction false} OctetsLength(bs: seq<Byte>)
    ensures |Octets(bs)| == 3 * |bs|
  {
    if bs != [] {
      OctetsLength(bs[1..]);
    }
  }

  lemma Base64Digits(n: nat)
    ensures n == n / 64 * 64 + n % 64
    ensures n / 64 == n / 4096 * 64 + n / 64 % 64
    ensures n / 4096 == n / 0x4_0000 * 64 + n / 4096 % 64
  {
    var a, b, c := n / 64, n / 4096, n / 0x4_0000;
    assert b == a / 64 && c == b / 64;
    assert a == b * 64 + a % 64 && b == c * 64 + b % 64;
  }

  predicate IsTail(b: Byte) {
    0x80 <= b < 0xC0
  }

  lemma FirstPayload(a: Byte, b: Byte, c: Byte, bits: nat)
    requires IsTail(a) && IsTail(b) && IsTail(c)
    ensures Payload([a], bits) == bits * 64 + (a - 0x80)
    ensures Payload([a, b], bits) == Payload([b], bits * 64 + (a - 0x80))
    ensures Payload([a, b, c], bits) == Payload([b, c], bits * 64 + (a - 0x80))
  {
    assert [a][1..] == [] && [a, b][1..] == [b] && [a, b, c][1..] == [b, c];
    assert Payload([], bits * 64 + (a - 0x80)) == bits * 64 + (a - 0x80);
  }

  lemma PayloadOf(a: Byte, b: Byte, c: Byte, bits: nat)
    requires IsTail(a) && IsTail(b) && IsTail(c)
    ensures Payload([], bits) == bits
    ensures Payload([a], bits) == bits * 64 + (a - 0x80)
    ensures Payload([a, b], bits) == (bits * 64 + (a - 0x80)) * 64 + (b - 0x80)
    ensures Payload([a, b, c], bits) == ((bits * 64 + (a - 0x80)) * 64 + (b - 0x80)) * 64 + (c - 0x80)
  {
    NoPayload(bits);
    hide Payload;
    var x: nat := bits * 64 + (a - 0x80);
    FirstPayload(a, b, c, bits);
    FirstPayload(b, c, c, x);
    FirstPayload(c, c, c, x * 64 + (b - 0x80));
  }

  lemma NoPayload(bits: nat)
    ensures Payload([], bits) == bits
  {
  }

  lemma Utf8Shape(c: char)
    ensures var bs := Utf8(c);
      && SequenceLength(bs[0]) == |bs| && WellFormed(c as int, |bs|)
      && forall i :: 0 <= i < |bs[1..]| ==> 0x80 <= bs[1..][i] < 0xC0
  {
  }

  lemma Utf8Payload(c: char)
    requires c as int >= 0x80
    ensures var bs := Utf8(c);
      && (forall i :: 0 <= i < |bs[1..]| ==> 0x80 <= bs[1..][i] < 0xC0)
      && Payload(bs[1..], LeadBits(bs[0], |bs|)) == c as int
  {
    hide Payload;
    var n, bs := c as int, Utf8(c);
    Base64Digits(n);
    Utf8Shape(c);
    if n < 0x800 {
      assert bs[1..] == [bs[1]];
      PayloadOf(bs[1], bs[1], bs[1], LeadBits(bs[0], 2));
    } else if n < 0x1_0000 {
      assert bs[1..] == [bs[1], bs[2]];
      PayloadOf(bs[1], bs[2], bs[2], LeadBits(bs[0], 3));
    } else {
      assert bs[1..] == [bs[1], bs[2], bs[3]];
      PayloadOf(bs[1], bs[2], bs[3], LeadBits(bs[0], 4));
    }
  }

  lemma Utf8Reads(c: char)
    ensures var bs := Utf8(c);
      && (forall i :: 0 <= i < |bs[1..]| ==> 0x80 <= bs[1..][i] < 0xC0)
      && Payload(bs[1..], LeadBits(bs[0], |bs|)) == c as int
  {
    if c as int >= 0x80 {
      Utf8Payload(c);
    }
  }

  function Prepend(c: char, r: Option<string>): Option<string> {
    if r.None? then None else Some([c] + r.value)
  }

  lemma DecodeEscaped(c: char, rest: string)
    requires !Unreserved(c)
    ensures Decode(Octets(Utf8(c)) + rest) == Prepend(c, Decode(rest))
  {
    hide Utf8;
    var bs := Utf8(c);
    var s := Octets(bs) + rest;
    var more := Octets(bs[1..]) + rest;
    Utf8Reads(c);
    Utf8Shape(c);
    assert s == Octet(bs[0]) + more;
    ReadOctet(bs[0], more);
    ReadContinuation(bs[1..], LeadBits(bs[0], |bs|), rest);
    OctetsLength(bs);
    assert s[3 * |bs|..] == rest;
    StepDecode(s, bs[0], |bs|, c as int, rest);
  }

  lemma StepDecode(s: string, b: Byte, len: nat, n: nat, rest: string)
    requires s != "" && s[0] == '%' && ByteAt(s) == Some(b) && SequenceLength(b) == len && len > 0 && |s| >= 3 * len
    requires Continue(s[3..], len - 1, LeadBits(b, len)) == Some(n) && WellFormed(n, len) && s[3 * len..] == rest
    ensures Decode(s) == Prepend(n as char, Decode(rest))
  {
  }

  lemma DecodeChar(c: char, rest: string)
    ensures Decode(EncodeChar(c) + rest) == Prepend(c, Decode(rest))
  {
    if Unreserved(c) {
      assert ([c] + rest)[1..] == rest;
    } else {
      DecodeEscaped(c, rest);
    }
  }

  /** Every string survives encoding and decoding. */
  lemma {:induction false} DecodeEncode(s: string)
    ensures Decode(Encode(s)) == Some(s)
  {
    if s != "" {
      DecodeEncode(s[1..]);
      DecodeChar(s[0], Encode(s[1..]));
      assert s == [s[0]] + s[1..];
    }
  }

  /** Different strings have different encodings. */
  lemma EncodeIsInjective(a: string, b: string)
    ensures Encode(a) == Encode(b) <==> a == b
  {
    DecodeEncode(a);
    DecodeEncode(b);
  }

  // ---- separators ----

  predicate Without(s: string, sep: char) {
    sep !in s
  }

  predicate IsSeparator(c: char) {
    c == '/' || c == '|'
  }

  lemma OctetsWithout(bs: seq<Byte>, sep: char)
    requires IsSeparator(sep)
    ensures Without(Octets(bs), sep)
  {
    if bs != [] {
      OctetsWithout(bs[1..], sep);
      assert HexDigit(bs[0] / 16) != sep && HexDigit(bs[0] % 16) != sep;
    }
  }

  /** An encoded string contains neither `/` nor `|`. */
  lemma {:induction false} EncodedWithout(s: string, sep: char)
    requires IsSeparator(sep)
    ensures Without(Encode(s), sep)
  {
    if s != "" {
      EncodedWithout(s[1..], sep);
      if !Unreserved(s[0]) {
        OctetsWithout(Utf8(s[0]), sep);
      }
    }
  }

  function Split(s: string, sep: char): (parts: seq<string>)
    ensures parts != []
    decreases |s|
  {
    if s == "" then [""]
    else if s[0] == sep then [""] + Split(s[1..], sep)
    else
      var rest := Split(s[1..], sep);
      [[s[0]] + rest[0]] + rest[1..]
  }

  function Join(parts: seq<string>, sep: char): string {
    if parts == [] then "" else if |parts| == 1 then parts[0] else parts[0] + [sep] + Join(parts[1..], sep)
  }

  lemma {:induction false} SplitFirst(a: string, rest: string, sep: char)
    requires Without(a, sep)
    ensures Split(a + [sep] + rest, sep) == [a] + Split(rest, sep)
    ensures Split(a, sep) == [a]
    decreases |a|
  {
    if a == "" {
      assert a + [sep] + rest == [sep] + rest && ([sep] + rest)[1..] == rest;
    } else {
      assert (a + [sep] + rest)[1..] == a[1..] + [sep] + rest;
      SplitFirst(a[1..], rest, sep);
      assert a == [a[0]] + a[1..];
    }
  }

  /** Splitting undoes joining when no part contains the separator. */
  lemma {:induction false} SplitJoin(parts: seq<string>, sep: char)
    requires parts != [] && forall i :: 0 <= i < |parts| ==> Without(parts[i], sep)
    ensures Split(Join(parts, sep), sep) == parts
  {
    if |parts| == 1 {
      SplitFirst(parts[0], "", sep);
    } else {
      SplitJoin(parts[1..], sep);
      SplitFirst(parts[0], Join(parts[1..], sep), sep);
    }
  }

  lemma {:induction false} JoinWithout(parts: seq<string>, sep: char, other: char)
    requires sep != other && forall i :: 0 <= i < |parts| ==> Without(parts[i], other)
    ensures Without(Join(parts, sep), other)
  {
    if |parts| > 1 {
      JoinWithout(parts[1..], sep, other);
    }
  }

  lemma {:induction false} SplitWithout(s: string, sep: char, i: nat)
    requires i < |Split(s, sep)|
    ensures Without(Split(s, sep)[i], sep)
    decreases |s|
  {
    if s != "" {
      if s[0] == sep {
        if i > 0 {
          SplitWithout(s[1..], sep, i - 1);
        }
      } else {
        SplitWithout(s[1..], sep, i);
        SplitWithout(s[1..], sep, 0);
      }
    }
  }
}
