/**
 The renderer of pretty-printed bodies as the source has it (frontend/src/components/LogRow.tsx): it appends plain
 text and coloured spans to `out` and numbers the spans through a counter.
 */
module LogRowRender {
  import opened Sequences
  import opened JsonText
  import opened JsonParse
  import opened LogRow

  datatype Colour = KeyColour | StringColour | NumberColour | KeywordColour | PunctColour

  datatype Node = Plain(text: Text) | Span(number: nat, colour: Colour, text: Text)

  /** The text without its colours. */
  function Erase(nodes: seq<Node>): Text {
    if nodes == [] then [] else Erase(nodes[..|nodes| - 1]) + nodes[|nodes| - 1].text
  }

  /** The numbers of the spans, in order. */
  function Numbers(nodes: seq<Node>): seq<nat> {
    if nodes == [] then []
    else
      var n := |nodes| - 1;
      Numbers(nodes[..n]) + (if nodes[n].Span? then [nodes[n].number] else [])
  }

  function UpTo(n: nat): (r: seq<nat>)
    ensures |r| == n && forall i :: 0 <= i < n ==> r[i] == i
  {
    if n == 0 then [] else UpTo(n - 1) + [n - 1]
  }

  lemma AppendNode(nodes: seq<Node>, x: Node)
    ensures Erase(nodes + [x]) == Erase(nodes) + x.text
    ensures Numbers(nodes + [x]) == Numbers(nodes) + (if x.Span? then [x.number] else [])
  {
    assert (nodes + [x])[..|nodes|] == nodes;
  }

  lemma {:induction false} UpToNoDup(n: nat)
    ensures NoDup(UpTo(n))
  {
    if n > 0 {
      var s, x: nat := UpTo(n - 1), n - 1;
      UpToNoDup(n - 1);
      forall i | 0 <= i < |s|
        ensures s[i] != x
      {
      }
      NoDupSnoc(s, x);
    }
  }

  function ScalarColour(v: Value): Colour {
    if v.Str? then StringColour else if v.Num? then NumberColour else KeywordColour
  }

  /** A node's colour is that of its text: white space has none, a quoted text is a key or a string. */
  predicate Fits(x: Node) {
    match x
    case Plain(t) => Blank(t)
    case Span(_, PunctColour, t) =>
      t != [] && t[0] in {LBRACE, RBRACE, LBRACKET, RBRACKET, COMMA, COLON}
    case Span(_, KeywordColour, t) => t == NULL_TEXT || t == TRUE_TEXT || t == FALSE_TEXT
    case Span(_, NumberColour, _) => true
    case Span(_, _, t) => t != [] && t[0] == QUOTE
  }

  predicate Blank(t: Text) {
    forall i :: 0 <= i < |t| ==> t[i] == SPACE || t[i] == NEWLINE
  }

  /** Numbers, and only they, have the colour of numbers. */
  lemma ScalarFits(v: Value, n: nat)
    requires !v.Arr? && !v.Obj?
    ensures Fits(Span(n, ScalarColour(v), ScalarText(v))) && (v.Num? <==> ScalarColour(v) == NumberColour)
    ensures v.Str? <==> ScalarColour(v) == StringColour
  {
  }

  lemma KeyFits(key: Text, n: nat)
    ensures Fits(Span(n, KeyColour, Quote(key)))
  {
  }

  lemma {:induction false} PadIsBlank(indent: nat)
    ensures Blank(Pad(indent))
  {
    if indent > 0 {
      PadIsBlank(indent - 1);
    }
  }

  class JsonRow {
    const num: NumberText
    var out: seq<Node>
    var keySeq: nat

    constructor (num: NumberText)
      ensures this.num == num && out == [] && Valid()
    {
      this.num := num;
      out, keySeq := [], 0;
    }

    /** The spans are numbered 0, 1, 2, … in the order they were appended, and every node has its text's colour. */
    ghost predicate Valid()
      reads this
    {
      Numbers(out) == UpTo(keySeq) && forall x :: x in out ==> Fits(x)
    }

    method Write(text: Text)
      requires Valid() && Blank(text)
      modifies this
      ensures Valid() && Erase(out) == Erase(old(out)) + text && keySeq == old(keySeq)
    {
      AppendNode(out, Plain(text));
      out := out + [Plain(text)];
    }

    method WriteSpan(colour: Colour, text: Text)
      requires Valid() && Fits(Span(keySeq, colour, text))
      modifies this
      ensures Valid() && Erase(out) == Erase(old(out)) + text && keySeq == old(keySeq) + 1
    {
      AppendNode(out, Span(keySeq, colour, text));
      out := out + [Span(keySeq, colour, text)];
      keySeq := keySeq + 1;
    }

    /** `renderJson`: appends exactly the pretty text of the value. */
    method RenderJson(value: Value, indent: nat)
      requires Valid()
      modifies this
      ensures Valid() && Erase(out) == Erase(old(out)) + Pretty(num, value, indent)
      decreases DepthLeft(indent), Rank(value, indent), value
    {
      hide NoDup, Erase, ParseJsonBody;
      ghost var before := Erase(out);
      match value
      case Arr(es) =>
        if es == [] {
          WriteSpan(PunctColour, [LBRACKET, RBRACKET]);
          return;
        }
        WriteSpan(PunctColour, [LBRACKET]);
        Write([NEWLINE]);
        RenderElements(es, indent + 1);
        PadIsBlank(indent);
        Write(Pad(indent));
        WriteSpan(PunctColour, [RBRACKET]);
        Assemble(before, LBRACKET, PrettyAll(num, es, indent + 1), Pad(indent), RBRACKET);
      case Obj(ms) =>
        if ms == [] {
          WriteSpan(PunctColour, [LBRACE, RBRACE]);
          return;
        }
        WriteSpan(PunctColour, [LBRACE]);
        Write([NEWLINE]);
        RenderMembers(ms, indent + 1);
        PadIsBlank(indent);
        Write(Pad(indent));
        WriteSpan(PunctColour, [RBRACE]);
        Assemble(before, LBRACE, PrettyMembers(num, ms, indent + 1), Pad(indent), RBRACE);
      case Str(_) =>
        var embedded := Embedded(num, value, indent);
        if embedded.Some? {
          RenderJson(embedded.value, indent);
          return;
        }
        ScalarFits(value, keySeq);
        WriteSpan(ScalarColour(value), ScalarText(value));
      case _ =>
        ScalarFits(value, keySeq);
        WriteSpan(ScalarColour(value), ScalarText(value));
    }

    method RenderElements(es: seq<Value>, indent: nat)
      requires Valid()
      modifies this
      ensures Valid() && Erase(out) == Erase(old(out)) + PrettyAll(num, es, indent)
      decreases DepthLeft(indent), 2, es
    {
      hide NoDup, Erase, Pretty;
      for i := 0 to |es|
        invariant Valid()
        invariant Erase(out) + PrettyAll(num, es[i..], indent) == Erase(old(out)) + PrettyAll(num, es, indent)
      {
        ghost var before := Erase(out);
        assert es[i..][1..] == es[i + 1..] && es[i..][0] == es[i];
        PadIsBlank(indent);
        Write(Pad(indent));
        RenderJson(es[i], indent);
        if i < |es| - 1 {
          WriteSpan(PunctColour, [COMMA]);
        } else {
          Write([]);
        }
        Write([NEWLINE]);
        AssembleItem(before, Pad(indent), Pretty(num, es[i], indent),
                     Separator(i == |es| - 1), PrettyAll(num, es[i + 1..], indent));
      }
      assert Erase(out) + [] == Erase(out);
    }

    method RenderMembers(ms: seq<Member>, indent: nat)
      requires Valid()
      modifies this
      ensures Valid() && Erase(out) == Erase(old(out)) + PrettyMembers(num, ms, indent)
      decreases DepthLeft(indent), 2, ms
    {
      hide NoDup, Erase, Pretty, Quote;
      for i := 0 to |ms|
        invariant Valid()
        invariant Erase(out) + PrettyMembers(num, ms[i..], indent) == Erase(old(out)) + PrettyMembers(num, ms, indent)
      {
        ghost var before := Erase(out);
        assert ms[i..][1..] == ms[i + 1..] && ms[i..][0] == ms[i];
        PadIsBlank(indent);
        Write(Pad(indent));
        KeyFits(ms[i].key, keySeq);
        WriteSpan(KeyColour, Quote(ms[i].key));
        WriteSpan(PunctColour, [COLON, SPACE]);
        RenderJson(ms[i].value, indent);
        if i < |ms| - 1 {
          WriteSpan(PunctColour, [COMMA]);
        } else {
          Write([]);
        }
        Write([NEWLINE]);
        AssembleMember(before, Pad(indent), Quote(ms[i].key), Pretty(num, ms[i].value, indent),
                       Separator(i == |ms| - 1),
                       PrettyMembers(num, ms[i + 1..], indent));
      }
      assert Erase(out) + [] == Erase(out);
    }
  }

  lemma Assemble(before: Text, l: Unit, items: Text, pad: Text, r: Unit)
    ensures before + [l] + [NEWLINE] + items + pad + [r] == before + ([l, NEWLINE] + items + pad + [r])
  {
  }

  lemma AssembleItem(before: Text, pad: Text, text: Text, sep: Text, others: Text)
    ensures before + pad + text + sep + [NEWLINE] + others == before + (pad + (text + (sep + [NEWLINE] + others)))
  {
  }

  lemma AssembleMember(before: Text, pad: Text, key: Text, text: Text, sep: Text, others: Text)
    ensures before + pad + key + [COLON, SPACE] + text + sep + [NEWLINE] + others
      == before + (pad + (key + ([COLON, SPACE] + (text + (sep + [NEWLINE] + others)))))
  {
  }

  /** `JsonBody`: a row's nodes have distinct numbers; without its colours the row is the pretty text of the body. */
  method RenderBody(num: NumberText, value: Value) returns (nodes: seq<Node>)
    ensures Erase(nodes) == Pretty(num, value, 0)
    ensures NoDup(Numbers(nodes)) && forall x :: x in nodes ==> Fits(x)
  {
    var row := new JsonRow(num);
    row.RenderJson(value, 0);
    nodes := row.out;
    UpToNoDup(row.keySeq);
    assert Erase([]) == [] && [] + Pretty(num, value, 0) == Pretty(num, value, 0);
  }
}
