/**
 How a pretty-printed log body is laid out (frontend/src/components/LogRow.tsx): one item or bracket a line, every line
 indented by two spaces for each bracket that is open.
 */
module LogRowLayout {
  import opened Options
  import opened JsonText
  import opened JsonParse
  import opened LogRow

  /** In the indentation of a line, after its first other unit, in a string, or after a backslash in a string. */
  datatype Place = Indentation(spaces: nat) | Inside | Quoted | Escaped

  /** A reader of the text: how many brackets are open, what came last outside of strings, and where it stands. */
  datatype Reader = Reader(open: nat, last: Unit, place: Place)

  predicate IsOpening(u: Unit) {
    u == LBRACE || u == LBRACKET
  }

  predicate IsClosing(u: Unit) {
    u == RBRACE || u == RBRACKET
  }

  function Take(r: Reader, u: Unit): Reader {
    if IsOpening(u) then Reader(r.open + 1, u, Inside)
    else if u == NEWLINE then Reader(r.open, u, Indentation(0))
    else Reader(r.open, u, if u == QUOTE then Quoted else Inside)
  }

  function Close(r: Reader, u: Unit): Option<Reader> {
    if r.open > 0 then Some(Reader(r.open - 1, u, Inside)) else None
  }

  /**
   The next unit, if the layout allows it. A line starts with two spaces for each open bracket, one bracket less if it
   starts with a closing one, and is not empty. In a line, a bracket closes only what was opened just before, after an
   opening bracket or a comma the line ends, and a space comes after a colon and nowhere else. No string breaks a line.
   */
  function Next(r: Reader, u: Unit): Option<Reader> {
    match r.place
    case Indentation(n) =>
      if u == SPACE then Some(r.(place := Indentation(n + 1)))
      else if IsClosing(u) then if n + 2 == 2 * r.open then Close(r, u) else None
      else if n == 2 * r.open && u != NEWLINE && u != COMMA then Some(Take(r, u))
      else None
    case Inside =>
      if IsClosing(u) then if IsOpening(r.last) then Close(r, u) else None
      else if (IsOpening(r.last) || r.last == COMMA) && u != NEWLINE then None
      else if (r.last == COLON) != (u == SPACE) then None
      else Some(Take(r, u))
    case Quoted =>
      if u == NEWLINE then None
      else Some(r.(place := if u == BACKSLASH then Escaped else if u == QUOTE then Inside else Quoted))
    case Escaped => if u == NEWLINE then None else Some(r.(place := Quoted))
  }

  /** The reader after the whole text, if the layout allows all of it. */
  function Read(r: Option<Reader>, t: Text): Option<Reader>
    decreases |t|
  {
    if r.None? || t == [] then r else Read(Next(r.value, t[0]), t[1..])
  }

  lemma {:induction false} ReadConcat(r: Option<Reader>, a: Text, b: Text)
    ensures Read(r, a + b) == Read(Read(r, a), b)
    decreases |a|
  {
    hide Next;
    if a == [] {
      assert a + b == b;
    } else if r.Some? {
      assert (a + b)[1..] == a[1..] + b;
      ReadConcat(Next(r.value, a[0]), a[1..], b);
    }
  }

  lemma ReadNothing(r: Option<Reader>)
    ensures Read(r, []) == r
  {
  }

  lemma ReadOne(r: Reader, u: Unit)
    ensures Read(Some(r), [u]) == Next(r, u)
  {
    assert [u][1..] == [];
  }

  lemma ReadCons(r: Reader, u: Unit, t: Text)
    ensures Read(Some(r), [u] + t) == Read(Next(r, u), t)
  {
    assert ([u] + t)[1..] == t;
  }

  // ---- the parts of a text ----

  /** Where a value may start: in the right indentation, or after the space behind a key. */
  predicate Ready(r: Reader, indent: nat) {
    r.open == indent && (r.place == Indentation(2 * indent) || (r.place == Inside && r.last == SPACE))
  }

  /** After a value. */
  predicate Done(r: Option<Reader>, indent: nat) {
    r.Some? && r.value.open == indent && r.value.place == Inside
    && !IsOpening(r.value.last) && r.value.last != COMMA && r.value.last != COLON
  }

  /** A unit of a literal or a number. */
  predicate IsPlain(u: Unit) {
    && u != QUOTE && u != NEWLINE && u != SPACE && u != COMMA && u != COLON && !IsOpening(u) && !IsClosing(u)
  }

  lemma {:induction false} ReadPlain(r: Reader, indent: nat, t: Text)
    requires forall i :: 0 <= i < |t| ==> IsPlain(t[i])
    requires Done(Some(r), indent) || (Ready(r, indent) && t != [])
    ensures Done(Read(Some(r), t), indent)
    decreases |t|
  {
    if t != [] {
      ReadPlain(Next(r, t[0]).value, indent, t[1..]);
    }
  }

  lemma {:induction false} ReadPad(r: Reader, k: nat, n: nat)
    requires r.place == Indentation(k)
    ensures Read(Some(r), Pad(n)) == Some(r.(place := Indentation(k + 2 * n)))
    decreases n
  {
    if n > 0 {
      var more := Pad(n - 1);
      assert Pad(n) == [SPACE] + ([SPACE] + more);
      ReadCons(r, SPACE, [SPACE] + more);
      ReadCons(r.(place := Indentation(k + 1)), SPACE, more);
      ReadPad(r.(place := Indentation(k + 2)), k + 2, n - 1);
    }
  }

  lemma ReadEscapeUnit(r: Reader, u: Unit)
    requires r.place == Quoted
    ensures Read(Some(r), EscapeUnit(u)) == Some(r)
  {
    var t := EscapeUnit(u);
    ReadCons(r, t[0], t[1..]);
    assert t == [t[0]] + t[1..];
    if t[0] == BACKSLASH {
      var e := r.(place := Escaped);
      ReadCons(e, t[1], t[2..]);
      assert t[1..] == [t[1]] + t[2..];
      if |t| > 2 {
        ReadHex(r, t[2..]);
      }
    }
  }

  lemma {:induction false} ReadHex(r: Reader, t: Text)
    requires r.place == Quoted && forall i :: 0 <= i < |t| ==> t[i] != QUOTE && t[i] != BACKSLASH && t[i] != NEWLINE
    ensures Read(Some(r), t) == Some(r)
  {
    if t != [] {
      ReadHex(r, t[1..]);
    }
  }

  lemma {:induction false} ReadEscaped(r: Reader, s: Text)
    requires r.place == Quoted
    ensures Read(Some(r), Escape(s)) == Some(r)
  {
    hide EscapeUnit;
    if s == [] {
    } else if |s| >= 2 && IsLead(s[0]) && IsTrail(s[1]) {
      ReadConcat(Some(r), s[..2], Escape(s[2..]));
      ReadHex(r, s[..2]);
      ReadEscaped(r, s[2..]);
    } else {
      ReadConcat(Some(r), EscapeUnit(s[0]), Escape(s[1..]));
      ReadEscapeUnit(r, s[0]);
      ReadEscaped(r, s[1..]);
    }
  }

  lemma ReadQuoted(r: Reader, indent: nat, s: Text)
    requires Ready(r, indent)
    ensures Read(Some(r), Quote(s)) == Some(Reader(indent, QUOTE, Inside))
  {
    var q := Reader(indent, QUOTE, Quoted);
    assert Quote(s) == [QUOTE] + (Escape(s) + [QUOTE]);
    ReadCons(r, QUOTE, Escape(s) + [QUOTE]);
    ReadConcat(Some(q), Escape(s), [QUOTE]);
    ReadEscaped(q, s);
    ReadOne(q, QUOTE);
  }

  lemma ReadScalar(num: NumberText, r: Reader, indent: nat, v: Value)
    requires !v.Arr? && !v.Obj? && Normal(num, v) && Ready(r, indent)
    ensures Done(Read(Some(r), ScalarText(v)), indent)
  {
    match v
    case Str(s) => ReadQuoted(r, indent, s);
    case Num(t) =>
      if !IsInfinite(t) {
        NumberStart(t);
        forall i | 0 <= i < |t|
          ensures IsPlain(t[i])
        {
          NumberUnits(t, i);
        }
      }
      ReadPlain(r, indent, t);
    case Null => ReadPlain(r, indent, NULL_TEXT);
    case Bool(b) => ReadPlain(r, indent, if b then TRUE_TEXT else FALSE_TEXT);
  }

  /** The end of an item: a comma unless it is the last one, and the end of the line. */
  lemma ReadItemEnd(r: Reader, indent: nat, last: bool)
    requires Done(Some(r), indent)
    ensures Read(Some(r), Separator(last) + [NEWLINE]) == Some(Reader(indent, NEWLINE, Indentation(0)))
  {
    if last {
      assert [] + [NEWLINE] == [NEWLINE];
      ReadOne(r, NEWLINE);
    } else {
      ReadCons(r, COMMA, [NEWLINE]);
      ReadOne(Reader(indent, COMMA, Inside), NEWLINE);
    }
  }

  // ---- the whole text ----

  lemma ReadBrackets(r: Reader, indent: nat, open: Unit, items: Text, close: Unit)
    requires Ready(r, indent) && IsOpening(open) && IsClosing(close)
    requires Read(Some(Reader(indent + 1, NEWLINE, Indentation(0))), items)
      == Some(Reader(indent + 1, NEWLINE, Indentation(0)))
    ensures Done(Read(Some(r), [open, NEWLINE] + items + Pad(indent) + [close]), indent)
    ensures Done(Read(Some(r), [open, close]), indent)
  {
    var line := Reader(indent + 1, NEWLINE, Indentation(0));
    var tail := Pad(indent) + [close];
    assert [open, NEWLINE] + items + Pad(indent) + [close] == [open] + ([NEWLINE] + (items + tail));
    ReadCons(r, open, [NEWLINE] + (items + tail));
    ReadCons(Reader(indent + 1, open, Inside), NEWLINE, items + tail);
    ReadConcat(Some(line), items, tail);
    ReadConcat(Some(line), Pad(indent), [close]);
    ReadPad(line, 0, indent);
    ReadOne(line.(place := Indentation(2 * indent)), close);
    assert [open, close] == [open] + [close];
    ReadCons(r, open, [close]);
    ReadOne(Reader(indent + 1, open, Inside), close);
  }

  lemma {:induction false} ReadPretty(num: NumberText, v: Value, indent: nat, r: Reader)
    requires NumbersPrint(num) && Normal(num, v) && Ready(r, indent)
    ensures Done(Read(Some(r), Pretty(num, v, indent)), indent)
    decreases DepthLeft(indent), Rank(v, indent), v
  {
    hide NumbersPrint, ParseJsonBody, Read, Ready, Done;
    match v
    case Arr(es) =>
      ReadElements(num, es, indent + 1);
      ReadBrackets(r, indent, LBRACKET, PrettyAll(num, es, indent + 1), RBRACKET);
    case Obj(ms) =>
      ReadMembers(num, ms, indent + 1);
      ReadBrackets(r, indent, LBRACE, PrettyMembers(num, ms, indent + 1), RBRACE);
    case Str(s) =>
      if Embedded(num, v, indent).Some? {
        EmbeddedIsNormal(num, v, indent);
        ReadPretty(num, Embedded(num, v, indent).value, indent, r);
      } else {
        ReadScalar(num, r, indent, v);
      }
    case _ => ReadScalar(num, r, indent, v);
  }

  lemma {:induction false} ReadElements(num: NumberText, es: seq<Value>, indent: nat)
    requires NumbersPrint(num) && AllNormal(num, es)
    ensures Read(Some(Reader(indent, NEWLINE, Indentation(0))), PrettyAll(num, es, indent))
      == Some(Reader(indent, NEWLINE, Indentation(0)))
    decreases DepthLeft(indent), 2, es
  {
    hide NumbersPrint, Read, Pretty, Normal, Done;
    if es == [] {
      ReadNothing(Some(Reader(indent, NEWLINE, Indentation(0))));
    } else {
      var line := Reader(indent, NEWLINE, Indentation(0));
      var ready := line.(place := Indentation(2 * indent));
      var text, rest := Pretty(num, es[0], indent), PrettyAll(num, es[1..], indent);
      ReadPad(line, 0, indent);
      ReadPretty(num, es[0], indent, ready);
      ReadItem(line, ready, indent, Pad(indent), text, |es| == 1, rest);
      ReadElements(num, es[1..], indent);
    }
  }

  /** A line: what brings the reader to the value, the value, the end of the item, and the lines behind it. */
  lemma ReadItem(line: Reader, ready: Reader, indent: nat, lead: Text, text: Text, last: bool, rest: Text)
    requires Read(Some(line), lead) == Some(ready) && Done(Read(Some(ready), text), indent)
    ensures Read(Some(line), lead + (text + (Separator(last) + [NEWLINE] + rest)))
      == Read(Some(Reader(indent, NEWLINE, Indentation(0))), rest)
  {
    hide Read;
    ReadConcat(Some(line), lead, text + (Separator(last) + [NEWLINE] + rest));
    ReadConcat(Some(ready), text, Separator(last) + [NEWLINE] + rest);
    var done := Read(Some(ready), text);
    ReadConcat(done, Separator(last) + [NEWLINE], rest);
    ReadItemEnd(done.value, indent, last);
  }

  lemma {:induction false} ReadMembers(num: NumberText, ms: seq<Member>, indent: nat)
    requires NumbersPrint(num) && ValuesNormal(num, ms)
    ensures Read(Some(Reader(indent, NEWLINE, Indentation(0))), PrettyMembers(num, ms, indent))
      == Some(Reader(indent, NEWLINE, Indentation(0)))
    decreases DepthLeft(indent), 2, ms
  {
    hide NumbersPrint, Read, Pretty, Normal, Done, NormalKeys;
    if ms == [] {
      ReadNothing(Some(Reader(indent, NEWLINE, Indentation(0))));
    } else {
      var line := Reader(indent, NEWLINE, Indentation(0));
      var ready := Reader(indent, SPACE, Inside);
      var key := Quote(ms[0].key);
      var text, rest := Pretty(num, ms[0].value, indent), PrettyMembers(num, ms[1..], indent);
      ReadKey(line, indent, ms[0].key);
      ReadPretty(num, ms[0].value, indent, ready);
      ReadItem(line, ready, indent, Pad(indent) + (key + [COLON, SPACE]), text, |ms| == 1, rest);
      var end := Separator(|ms| == 1) + [NEWLINE] + rest;
      assert Pad(indent) + (key + [COLON, SPACE]) + (text + end)
        == Pad(indent) + (key + ([COLON, SPACE] + (text + end)));
      ReadMembers(num, ms[1..], indent);
    }
  }

  lemma ReadKey(line: Reader, indent: nat, key: Text)
    requires line == Reader(indent, NEWLINE, Indentation(0))
    ensures Read(Some(line), Pad(indent) + (Quote(key) + [COLON, SPACE])) == Some(Reader(indent, SPACE, Inside))
  {
    var ready, quoted := line.(place := Indentation(2 * indent)), Reader(indent, QUOTE, Inside);
    ReadConcat(Some(line), Pad(indent), Quote(key) + [COLON, SPACE]);
    ReadPad(line, 0, indent);
    ReadConcat(Some(ready), Quote(key), [COLON, SPACE]);
    ReadQuoted(ready, indent, key);
    assert [COLON, SPACE] == [COLON] + [SPACE];
    ReadCons(quoted, COLON, [SPACE]);
    ReadOne(Reader(indent, COLON, Inside), SPACE);
  }

  /** Every displayed body keeps to the layout and closes every bracket it opens. */
  lemma BodyIsLaidOut(num: NumberText, body: Text)
    requires NumbersPrint(num) && ParseJsonBody(num, body).Some?
    ensures Done(Read(Some(Reader(0, NEWLINE, Indentation(0))), Pretty(num, ParseJsonBody(num, body).value, 0)), 0)
  {
    BodyIsNormal(num, body);
    ReadPretty(num, ParseJsonBody(num, body).value, 0, Reader(0, NEWLINE, Indentation(0)));
  }
}
