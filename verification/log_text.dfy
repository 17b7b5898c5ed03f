/** The timestamp Kubernetes puts in front of a log line (frontend/src/lib/logStreams.ts). */
module LogText {
  import opened Options

  predicate IsDigit(c: char) {
    '0' <= c <= '9'
  }

  /** JavaScript's `\s` class. */
  predicate IsSpace(c: char) {
    || '\t' <= c <= '\r' || c == ' ' || c == '\U{00A0}' || c == '\U{1680}' || '\U{2000}' <= c <= '\U{200A}'
    || c == '\U{2028}' || c == '\U{2029}' || c == '\U{202F}' || c == '\U{205F}' || c == '\U{3000}' || c == '\U{FEFF}'
  }

  /** Does `s` carry at `at` what the pattern asks for? `d` stands for a digit, anything else for itself. */
  predicate Matches(s: string, at: nat, pattern: string)
    decreases |pattern|
  {
    pattern == [] || (
      && at < |s|
      && (if pattern[0] == 'd' then IsDigit(s[at]) else s[at] == pattern[0])
      && Matches(s, at + 1, pattern[1..]))
  }

  const DATE_AND_TIME := "dddd-dd-ddTdd:dd:dd"

  /** End of the run of digits that starts at `at`. */
  function DigitsEnd(s: string, at: nat): (e: nat)
    ensures at <= e && (e <= |s| || e == at)
    ensures forall i :: at <= i < e ==> IsDigit(s[i])
    ensures e < |s| ==> !IsDigit(s[e])
    decreases |s| - at
  {
    if at < |s| && IsDigit(s[at]) then DigitsEnd(s, at + 1) else at
  }

  function FractionEnd(s: string, at: nat): (e: nat)
    ensures at <= e && (e <= |s| || e == at)
  {
    if Matches(s, at, ".d") then DigitsEnd(s, at + 1) else at
  }

  /** The leading timestamp of a line, when the line has one that whitespace ends. */
  function LogLineTimestamp(line: string): Option<string> {
    if !Matches(line, 0, DATE_AND_TIME) then None
    else
      var e := FractionEnd(line, 19);
      var z := if Matches(line, e, "Z") then e + 1
               else if Matches(line, e, "+dd:dd") || Matches(line, e, "-dd:dd") then e + 6
               else |line|;
      if z < |line| && IsSpace(line[z]) then Some(line[..z]) else None
  }

  // ---- the grammar the search implements ----

  /** A fraction of a second between i and j: nothing, or a point and at least one digit. */
  predicate IsFraction(t: string, i: nat, j: nat)
    requires i <= j <= |t|
  {
    i == j || (i + 2 <= j && t[i] == '.' && forall k :: i < k < j ==> IsDigit(t[k]))
  }

  /** A zone from i to the end: `Z` or a signed offset. */
  predicate IsZone(t: string, i: nat) {
    || (|t| == i + 1 && Matches(t, i, "Z"))
    || (|t| == i + 6 && (Matches(t, i, "+dd:dd") || Matches(t, i, "-dd:dd")))
  }

  predicate IsTimestampWith(t: string, k: nat) {
    19 <= k <= |t| && Matches(t, 0, DATE_AND_TIME) && IsFraction(t, 19, k) && IsZone(t, k)
  }

  /** The language of the source's pattern: a date and time, an optional fraction, a zone. */
  ghost predicate IsTimestamp(t: string) {
    exists k: nat :: IsTimestampWith(t, k)
  }

  lemma {:induction false} MatchesLength(s: string, at: nat, pattern: string)
    requires Matches(s, at, pattern) && pattern != []
    ensures at + |pattern| <= |s|
    decreases |pattern|
  {
    if |pattern| > 1 {
      MatchesLength(s, at + 1, pattern[1..]);
    }
  }

  lemma {:induction false} MatchesPrefix(t: string, s: string, at: nat, pattern: string)
    requires t <= s && at + |pattern| <= |t|
    ensures Matches(t, at, pattern) <==> Matches(s, at, pattern)
    decreases |pattern|
  {
    if pattern != [] {
      MatchesPrefix(t, s, at + 1, pattern[1..]);
    }
  }

  lemma FirstMatches(s: string, at: nat, c: char, rest: string)
    requires Matches(s, at, [c] + rest) && c != 'd'
    ensures at < |s| && s[at] == c
  {
  }

  lemma ZoneStart(t: string, i: nat)
    requires IsZone(t, i)
    ensures i < |t| && (t[i] == 'Z' || t[i] == '+' || t[i] == '-')
  {
    if Matches(t, i, "+dd:dd") {
      FirstMatches(t, i, '+', "dd:dd");
    } else if Matches(t, i, "-dd:dd") {
      FirstMatches(t, i, '-', "dd:dd");
    }
  }

  lemma PointDigit(s: string, at: nat)
    ensures Matches(s, at, ".d") <==> at + 1 < |s| && s[at] == '.' && IsDigit(s[at + 1])
  {
    assert ".d"[1..] == "d" && "d"[1..] == "";
    assert at + 1 < |s| ==> (Matches(s, at + 1, "d") <==> IsDigit(s[at + 1]));
  }

  /** The fraction the search takes is the only one the grammar allows. */
  lemma FractionIsUnique(t: string, line: string, k: nat)
    requires t <= line && 19 <= k <= |t| && IsFraction(t, 19, k) && IsZone(t, k)
    ensures FractionEnd(line, 19) == k
  {
    ZoneStart(t, k);
    PointDigit(line, 19);
    assert line[k] == t[k];
    if k > 19 {
      assert line[19] == '.' && forall i :: 20 <= i < k ==> line[i] == t[i];
    }
  }

  lemma FoundZone(t: string, line: string, k: nat)
    requires t < line && IsZone(t, k) && IsSpace(line[|t|])
    ensures |t| == if Matches(line, k, "Z") then k + 1
                   else if Matches(line, k, "+dd:dd") || Matches(line, k, "-dd:dd") then k + 6 else |line|
  {
    ZoneStart(t, k);
    if |t| == k + 1 {
      MatchesPrefix(t, line, k, "Z");
      NotBothZones(t, line, k);
    } else {
      MatchesPrefix(t, line, k, "+dd:dd");
      MatchesPrefix(t, line, k, "-dd:dd");
      assert t[k] == line[k];
      NotBothZones(t, line, k);
    }
  }

  lemma NotBothZones(t: string, line: string, k: nat)
    requires t < line && k < |t|
    ensures Matches(line, k, "Z") ==> t[k] == 'Z'
    ensures Matches(t, k, "Z") ==> t[k] == 'Z'
    ensures Matches(t, k, "+dd:dd") || Matches(t, k, "-dd:dd") ==> t[k] != 'Z'
  {
    if Matches(t, k, "+dd:dd") {
      FirstMatches(t, k, '+', "dd:dd");
    }
    if Matches(t, k, "-dd:dd") {
      FirstMatches(t, k, '-', "dd:dd");
    }
    if Matches(line, k, "Z") {
      FirstMatches(line, k, 'Z', "");
    }
    if Matches(t, k, "Z") {
      FirstMatches(t, k, 'Z', "");
    }
  }

  lemma DateFits(t: string)
    requires Matches(t, 0, DATE_AND_TIME)
    ensures |DATE_AND_TIME| == 19 <= |t|
  {
    MatchesLength(t, 0, DATE_AND_TIME);
  }

  lemma GrammarIsFound(line: string, t: string)
    requires t < line && IsSpace(line[|t|]) && IsTimestamp(t)
    ensures LogLineTimestamp(line) == Some(t)
  {
    var k: nat :| IsTimestampWith(t, k);
    GrammarIsFoundWith(line, t, k);
  }

  lemma GrammarIsFoundWith(line: string, t: string, k: nat)
    requires t < line && IsSpace(line[|t|]) && IsTimestampWith(t, k)
    ensures LogLineTimestamp(line) == Some(t)
  {
    hide Matches, IsFraction, IsZone, FractionEnd, LogLineTimestamp;
    DateFits(t);
    MatchesPrefix(t, line, 0, DATE_AND_TIME);
    FractionIsUnique(t, line, k);
    FoundZone(t, line, k);
    FoundWhole(line, t, k);
  }

  lemma FoundWhole(line: string, t: string, k: nat)
    requires t < line && IsSpace(line[|t|]) && Matches(line, 0, DATE_AND_TIME) && FractionEnd(line, 19) == k
    requires |t| == if Matches(line, k, "Z") then k + 1
                    else if Matches(line, k, "+dd:dd") || Matches(line, k, "-dd:dd") then k + 6 else |line|
    ensures LogLineTimestamp(line) == Some(t)
  {
    hide Matches, FractionEnd;
    assert line[..|t|] == t;
  }

  lemma FoundIsGrammar(line: string, t: string)
    requires LogLineTimestamp(line) == Some(t)
    ensures t < line && IsSpace(line[|t|]) && IsTimestamp(t)
  {
    hide Matches;
    var k := FractionEnd(line, 19);
    FoundFraction(line, t, k);
    MatchesPrefix(t, line, 0, DATE_AND_TIME);
    if Matches(line, k, "Z") {
      MatchesPrefix(t, line, k, "Z");
    } else {
      MatchesPrefix(t, line, k, "+dd:dd");
      MatchesPrefix(t, line, k, "-dd:dd");
    }
    assert IsTimestampWith(t, k);
  }

  lemma FoundFraction(line: string, t: string, k: nat)
    requires LogLineTimestamp(line) == Some(t) && k == FractionEnd(line, 19)
    ensures t < line && IsSpace(line[|t|]) && 19 <= k < |t| && IsFraction(t, 19, k)
    ensures |t| == k + 1 || |t| == k + 6
    ensures |t| == k + 1 <==> Matches(line, k, "Z")
    ensures |t| == k + 6 ==> Matches(line, k, "+dd:dd") || Matches(line, k, "-dd:dd")
    ensures Matches(line, 0, DATE_AND_TIME)
  {
    PointDigit(line, 19);
    hide Matches;
  }

  // ---- the grammar, character by character ----

  predicate IsDecimal(c: char) {
    c in "0123456789"
  }

  predicate IsWhite(c: char) {
    c as int in {9, 10, 11, 12, 13, 32, 0xA0, 0x1680, 0x2000, 0x2001, 0x2002, 0x2003, 0x2004, 0x2005, 0x2006, 0x2007,
                 0x2008, 0x2009, 0x200A, 0x2028, 0x2029, 0x202F, 0x205F, 0x3000, 0xFEFF}
  }

  /** `2026-01-31T12:00:00` and the like. */
  predicate IsDateAndTime(t: string) {
    |t| >= 19 && forall i :: 0 <= i < 19 ==>
      if i == 4 || i == 7 then t[i] == '-'
      else if i == 10 then t[i] == 'T'
      else if i == 13 || i == 16 then t[i] == ':'
      else IsDecimal(t[i])
  }

  /** The end of t from k on: `Z`, or a sign with hours and minutes. */
  predicate IsOffset(t: string, k: nat) {
    || (|t| == k + 1 && t[k] == 'Z')
    || (|t| == k + 6 && (t[k] == '+' || t[k] == '-') && IsDecimal(t[k + 1]) && IsDecimal(t[k + 2])
        && t[k + 3] == ':' && IsDecimal(t[k + 4]) && IsDecimal(t[k + 5]))
  }

  /** Date and time, then nothing or a point and digits, then a zone. */
  ghost predicate InLanguage(t: string) {
    IsDateAndTime(t) && exists k: nat :: HasZoneAt(t, k)
  }

  predicate HasZoneAt(t: string, k: nat) {
    && 19 <= k <= |t| && IsOffset(t, k)
    && (k == 19 || (k >= 21 && t[19] == '.' && forall i :: 20 <= i < k ==> IsDecimal(t[i])))
  }

  lemma DecimalIff(c: char)
    ensures IsDigit(c) <==> IsDecimal(c)
  {
    if IsDigit(c) {
      assert "0123456789"[c as int - '0' as int] == c;
    }
  }

  lemma WhiteIff(c: char)
    ensures IsSpace(c) <==> IsWhite(c)
  {
  }

  /** A character of the pattern at its place. */
  predicate MatchesAt(c: char, p: char) {
    if p == 'd' then IsDecimal(c) else c == p
  }

  predicate AllMatch(s: string, at: nat, pattern: string)
    requires at + |pattern| <= |s|
  {
    forall i :: 0 <= i < |pattern| ==> MatchesAt(s[at + i], pattern[i])
  }

  lemma AllMatchCons(s: string, at: nat, pattern: string)
    requires at + |pattern| <= |s| && pattern != []
    ensures AllMatch(s, at, pattern) <==> MatchesAt(s[at], pattern[0]) && AllMatch(s, at + 1, pattern[1..])
  {
    var rest := pattern[1..];
    if AllMatch(s, at, pattern) {
      assert MatchesAt(s[at + 0], pattern[0]);
      forall i | 0 <= i < |rest|
        ensures MatchesAt(s[at + 1 + i], rest[i])
      {
        assert MatchesAt(s[at + (i + 1)], pattern[i + 1]);
      }
    }
    if MatchesAt(s[at], pattern[0]) && AllMatch(s, at + 1, rest) {
      forall i | 0 <= i < |pattern|
        ensures MatchesAt(s[at + i], pattern[i])
      {
        assert i > 0 ==> MatchesAt(s[at + 1 + (i - 1)], rest[i - 1]);
      }
    }
  }

  lemma {:induction false} MatchesIff(s: string, at: nat, pattern: string)
    requires at + |pattern| <= |s|
    ensures Matches(s, at, pattern) <==> AllMatch(s, at, pattern)
    decreases |pattern|
  {
    hide AllMatch, IsDigit, IsDecimal;
    if pattern == [] {
      NothingToMatch(s, at);
    } else {
      DecimalIff(s[at]);
      AllMatchCons(s, at, pattern);
      MatchesIff(s, at + 1, pattern[1..]);
    }
  }

  lemma NothingToMatch(s: string, at: nat)
    requires at <= |s|
    ensures AllMatch(s, at, [])
  {
  }

  lemma DateIff(t: string)
    ensures Matches(t, 0, DATE_AND_TIME) <==> IsDateAndTime(t)
  {
    var p := DATE_AND_TIME;
    assert |p| == 19 && p[4] == p[7] == '-' && p[10] == 'T' && p[13] == p[16] == ':';
    assert forall i :: 0 <= i < 19 && i != 4 && i != 7 && i != 10 && i != 13 && i != 16 ==> p[i] == 'd';
    if Matches(t, 0, p) {
      MatchesLength(t, 0, p);
    }
    if |t| >= 19 {
      MatchesIff(t, 0, p);
      forall i | 0 <= i < 19
        ensures MatchesAt(t[0 + i], p[i]) <==>
          if i == 4 || i == 7 then t[i] == '-'
          else if i == 10 then t[i] == 'T'
          else if i == 13 || i == 16 then t[i] == ':'
          else IsDecimal(t[i])
      {
      }
    }
  }

  lemma SignedIff(t: string, k: nat, sign: char)
    requires sign != 'd' && |t| == k + 6
    ensures Matches(t, k, [sign] + "dd:dd") <==>
      && t[k] == sign && IsDecimal(t[k + 1]) && IsDecimal(t[k + 2]) && t[k + 3] == ':'
      && IsDecimal(t[k + 4]) && IsDecimal(t[k + 5])
  {
    var p := [sign] + "dd:dd";
    MatchesIff(t, k, p);
    assert p[0] == sign && p[1] == p[2] == p[4] == p[5] == 'd' && p[3] == ':';
    if Matches(t, k, p) {
      assert MatchesAt(t[k + 0], p[0]) && MatchesAt(t[k + 1], p[1]) && MatchesAt(t[k + 2], p[2]);
      assert MatchesAt(t[k + 3], p[3]) && MatchesAt(t[k + 4], p[4]) && MatchesAt(t[k + 5], p[5]);
    }
  }

  lemma OffsetIff(t: string, k: nat)
    ensures IsZone(t, k) <==> IsOffset(t, k)
  {
    if |t| == k + 1 {
      MatchesIff(t, k, "Z");
      assert "Z"[0] == 'Z' && (Matches(t, k, "Z") ==> MatchesAt(t[k + 0], "Z"[0]));
    }
    if |t| == k + 6 {
      SignedIff(t, k, '+');
      SignedIff(t, k, '-');
      assert ['+'] + "dd:dd" == "+dd:dd" && ['-'] + "dd:dd" == "-dd:dd";
    }
  }

  lemma LanguageIff(t: string)
    ensures IsTimestamp(t) <==> InLanguage(t)
  {
    hide Matches, IsZone, IsOffset, IsDateAndTime, IsDigit, IsDecimal;
    DateIff(t);
    forall k: nat
      ensures IsTimestampWith(t, k) <==> IsDateAndTime(t) && HasZoneAt(t, k)
    {
      OffsetIff(t, k);
      forall i | 0 <= i < |t|
        ensures IsDigit(t[i]) <==> IsDecimal(t[i])
      {
        DecimalIff(t[i]);
      }
    }
  }

  /** The timestamp of a line is the prefix before whitespace that belongs to the pattern's language. */
  lemma TimestampIffGrammar(line: string, t: string)
    ensures LogLineTimestamp(line) == Some(t) <==> t < line && IsWhite(line[|t|]) && InLanguage(t)
  {
    hide LogLineTimestamp, IsTimestamp, InLanguage, IsSpace, IsWhite;
    LanguageIff(t);
    if |t| < |line| {
      WhiteIff(line[|t|]);
    }
    if LogLineTimestamp(line) == Some(t) {
      FoundIsGrammar(line, t);
    }
    if t < line && IsSpace(line[|t|]) && IsTimestamp(t) {
      GrammarIsFound(line, t);
    }
  }
}
