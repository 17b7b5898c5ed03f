/**
 What expanding a log body finds (frontend/src/components/LogRow.tsx): every string above depth 8 that is, trimmed, the
 text of an object or an array gives way to what it stands for, and nothing else changes.
 */
module LogRowExpansion {
  import opened Options
  import opened JsonText
  import opened JsonParse
  import opened LogRow

  /** The trimmed text is that of the object or array p. */
  predicate IsPayload(num: NumberText, s: Text, p: Value) {
    Parse(num, TrimEnd(TrimStart(s))) == Some(p) && (p.Arr? || p.Obj?)
  }

  /** Following the positions of the path, one for each level, leads from v to x. */
  predicate Nests(v: Value, path: seq<nat>, x: Value)
    decreases |path|
  {
    if path == [] then x == v
    else
      match v
      case Arr(es) => path[0] < |es| && Nests(es[path[0]], path[1..], x)
      case Obj(ms) => path[0] < |ms| && Nests(ms[path[0]].value, path[1..], x)
      case _ => false
  }

  /** y may be shown where x stands: a payload is replaced by its own expansion, all other strings and scalars stay. */
  ghost predicate StandsFor(num: NumberText, x: Value, depth: nat, y: Value) {
    match x
    case Arr(es) => y.Arr? && |y.elems| == |es|
    case Obj(ms) =>
      && y.Obj? && |y.members| == |ms|
      && forall i :: 0 <= i < |ms| ==> y.members[i].key == ms[i].key
    case Str(s) =>
      && (forall p :: depth < 8 && IsPayload(num, s, p) ==> y == Expand(num, p, depth))
      && ((forall p :: depth < 8 ==> !IsPayload(num, s, p)) ==> y == x)
    case _ => y == x
  }

  lemma {:induction false} ElementAt(num: NumberText, es: seq<Value>, indent: nat, i: nat)
    requires i < |es|
    ensures ExpandAll(num, es, indent)[i] == Expand(num, es[i], indent)
  {
    hide Expand;
    if i > 0 {
      ElementAt(num, es[1..], indent, i - 1);
    }
  }

  lemma {:induction false} MemberAt(num: NumberText, ms: seq<Member>, indent: nat, i: nat)
    requires i < |ms|
    ensures ExpandMembers(num, ms, indent)[i].value == Expand(num, ms[i].value, indent)
  {
    hide Expand;
    if i > 0 {
      MemberAt(num, ms[1..], indent, i - 1);
    }
  }

  lemma EmbeddedIsPayload(num: NumberText, s: Text, indent: nat)
    ensures forall p :: Embedded(num, Str(s), indent) == Some(p) <==> indent < 8 && IsPayload(num, s, p)
  {
    hide ParseJsonBody, Parse;
    forall p
      ensures ParseJsonBody(num, s) == Some(p) <==> IsPayload(num, s, p)
    {
      TakenIff(num, s, p);
    }
  }

  lemma ExpandStandsFor(num: NumberText, x: Value, depth: nat)
    ensures StandsFor(num, x, depth, Expand(num, x, depth))
  {
    hide Embedded, IsPayload;
    if x.Str? {
      EmbeddedIsPayload(num, x.s, depth);
      assert x == Str(x.s);
    }
  }

  /** Whatever is nested in a value, at any depth: the expanded value has, at the same place, what stands for it. */
  lemma {:induction false} ExpandAt(num: NumberText, v: Value, indent: nat, path: seq<nat>, x: Value)
    requires Nests(v, path, x)
    ensures exists y :: Nests(Expand(num, v, indent), path, y) && StandsFor(num, x, indent + |path|, y)
    decreases |path|
  {
    hide StandsFor;
    if path == [] {
      ExpandStandsFor(num, x, indent);
      assert Nests(Expand(num, v, indent), path, Expand(num, v, indent));
    } else {
      var i := path[0];
      match v
      case Arr(es) =>
        ElementAt(num, es, indent + 1, i);
        ExpandAt(num, es[i], indent + 1, path[1..], x);
        var y :| Nests(Expand(num, es[i], indent + 1), path[1..], y) && StandsFor(num, x, indent + |path|, y);
        assert Nests(Expand(num, v, indent), path, y);
      case Obj(ms) =>
        MemberAt(num, ms, indent + 1, i);
        ExpandAt(num, ms[i].value, indent + 1, path[1..], x);
        var y :| Nests(Expand(num, ms[i].value, indent + 1), path[1..], y) && StandsFor(num, x, indent + |path|, y);
        assert Nests(Expand(num, v, indent), path, y);
    }
  }

  /** No string of an expanded value above depth 8 is a payload, those that payloads brought along included. */
  lemma {:induction false} NothingHidden(num: NumberText, v: Value, indent: nat, path: seq<nat>, s: Text, p: Value)
    requires Nests(Expand(num, v, indent), path, Str(s)) && indent + |path| < 8
    ensures !IsPayload(num, s, p)
    decreases DepthLeft(indent), Rank(v, indent)
  {
    hide IsPayload, Embedded;
    match v
    case Arr(es) =>
      ElementAt(num, es, indent + 1, path[0]);
      NothingHidden(num, es[path[0]], indent + 1, path[1..], s, p);
    case Obj(ms) =>
      MemberAt(num, ms, indent + 1, path[0]);
      NothingHidden(num, ms[path[0]].value, indent + 1, path[1..], s, p);
    case Str(t) =>
      EmbeddedIsPayload(num, t, indent);
      if Embedded(num, v, indent).Some? {
        NothingHidden(num, Embedded(num, v, indent).value, indent, path, s, p);
      }
    case _ =>
  }
}
