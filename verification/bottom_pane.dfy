/**
 The tabs of the bottom pane and their place in the URL (frontend/src/components/BottomPane.tsx). A reference is
 printed as percent-encoded segments joined by `/`, a list of references is joined by `|`.
 */
module BottomPane {
  import opened Options
  import opened Percent

  datatype Action = Logs | Exec | Attach | Terminal | Yaml | Create

  datatype Ref = Ref(
    action: Action,
    cluster: Option<string>,
    namespace: Option<string>,
    name: Option<string>,
    container: Option<string>,
    gvr: Option<string>)

  function ActionName(a: Action): string {
    match a
    case Logs => "logs"
    case Exec => "exec"
    case Attach => "attach"
    case Terminal => "terminal"
    case Yaml => "yaml"
    case Create => "create"
  }

  /** JavaScript's truth of an optional string. */
  predicate Truthy(o: Option<string>) {
    o.Some? && o.value != ""
  }

  function OrEmpty(o: Option<string>): string {
    if o.Some? then o.value else ""
  }

  function Kept(o: Option<string>): Option<string> {
    if Truthy(o) then o else None
  }

  function Part(parts: seq<string>, i: nat): Option<string> {
    if i < |parts| then Some(parts[i]) else None
  }

  /** A missing value inside a template string. */
  function Shown(o: Option<string>): string {
    if o.Some? then o.value else "undefined"
  }

  function OrCore(group: string): string {
    if group == "" then "core" else group
  }

  function OptionalSegment(o: Option<string>): seq<string> {
    if Truthy(o) then [Encode(o.value)] else []
  }

  // ---- printing ----

  /** The segments `bottomRefToQuery` joins; none when it gives up. */
  function Segments(r: Ref): seq<string> {
    match r.action
    case Terminal => ["terminal"]
    case Create =>
      if !Truthy(r.cluster) then []
      else
        var head := ["create", "c", Encode(r.cluster.value)];
        if !Truthy(r.gvr) then head
        else
          var g := Split(r.gvr.value, '/');
          if !Truthy(Part(g, 1)) || !Truthy(Part(g, 2)) then head
          else head + ["g", Encode(OrCore(g[0])), Encode(g[1]), Encode(g[2])]
    case Yaml =>
      if !Truthy(r.cluster) || !Truthy(r.gvr) || !Truthy(r.name) then []
      else
        var g := Split(r.gvr.value, '/');
        var head := ["yaml", "c", Encode(r.cluster.value), Encode(OrCore(g[0])),
                     Encode(Shown(Part(g, 1))), Encode(Shown(Part(g, 2)))];
        if Truthy(r.namespace) then head + ["ns", Encode(r.namespace.value), Encode(r.name.value)]
        else head + [Encode(r.name.value)]
    case _ =>
      [ActionName(r.action)] + (if Truthy(r.cluster) then ["c", Encode(r.cluster.value)] else [])
      + [Encode(OrEmpty(r.namespace)), Encode(OrEmpty(r.name))] + OptionalSegment(r.container)
  }

  /** `bottomRefToQuery`. */
  function Query(r: Ref): string {
    Join(Segments(r), '/')
  }

  /** `refsToQuery`. */
  function ListQuery(rs: seq<Ref>): string {
    Join(seq(|rs|, i requires 0 <= i < |rs| => Query(rs[i])), '|')
  }

  // ---- parsing ----

  function ParseGvr(group: string, version: string, kind: string): Option<string> {
    if version != "" && kind != "" then Some((if group == "core" then "" else group) + "/" + version + "/" + kind)
    else None
  }

  function ParseCreate(parts: seq<string>): Option<Ref> {
    if Part(parts, 1) != Some("c") || |parts| < 3 || SafeDecode(parts[2]) == "" then None
    else
      var gvr := if Part(parts, 3) == Some("g") && |parts| >= 7
                 then ParseGvr(SafeDecode(parts[4]), SafeDecode(parts[5]), SafeDecode(parts[6])) else None;
      Some(Ref(Create, Some(SafeDecode(parts[2])), None, None, None, gvr))
  }

  function ParseYaml(parts: seq<string>): Option<Ref> {
    if Part(parts, 1) != Some("c") || |parts| < 7 || (parts[6] == "ns" && |parts| < 9) then None
    else
      var cluster, group, version, resource :=
        SafeDecode(parts[2]), SafeDecode(parts[3]), SafeDecode(parts[4]), SafeDecode(parts[5]);
      var name := if parts[6] == "ns" then SafeDecode(parts[8]) else SafeDecode(parts[6]);
      if cluster == "" || group == "" || version == "" || resource == "" || name == "" then None
      else Some(Ref(Yaml, Some(cluster),
                    if parts[6] == "ns" then Some(SafeDecode(parts[7])) else None, Some(name), None,
                    Some(group + "/" + version + "/" + resource)))
  }

  function ParsePodPath(action: Action, cluster: Option<string>, path: seq<string>): Option<Ref> {
    if |path| < 2 || path[0] == "" || path[1] == "" then None
    else Some(Ref(action, cluster, Some(SafeDecode(path[0])), Some(SafeDecode(path[1])),
                  if Truthy(Part(path, 2)) then Some(SafeDecode(path[2])) else None, None))
  }

  function ParsePod(action: Action, parts: seq<string>): Option<Ref> {
    if Part(parts, 1) == Some("c") then
      if |parts| < 5 then None else ParsePodPath(action, Some(SafeDecode(parts[2])), parts[3..])
    else if |parts| < 3 then None
    else ParsePodPath(action, None, parts[1..])
  }

  function ParseParts(parts: seq<string>): Option<Ref>
    requires parts != []
  {
    if parts[0] == "terminal" then Some(Ref(Terminal, None, None, None, None, None))
    else if parts[0] == "create" then ParseCreate(parts)
    else if parts[0] == "yaml" then ParseYaml(parts)
    else if parts[0] == "logs" then ParsePod(Logs, parts)
    else if parts[0] == "exec" then ParsePod(Exec, parts)
    else if parts[0] == "attach" then ParsePod(Attach, parts)
    else None
  }

  /** `parseBottomRef`. */
  function ParseRef(s: string): Option<Ref> {
    if s == "" then None else ParseParts(Split(s, '/'))
  }

  function ParseAll(segments: seq<string>): seq<Ref> {
    if segments == [] then []
    else
      var r := ParseRef(segments[0]);
      (if r.Some? then [r.value] else []) + ParseAll(segments[1..])
  }

  /** `parseBottomList`: segments that are no reference are dropped. */
  function ParseList(s: string): seq<Ref> {
    if s == "" then [] else ParseAll(Split(s, '|'))
  }

  // ---- what survives the trip through the URL, and as what ----

  predicate Survives(r: Ref) {
    match r.action
    case Terminal => true
    case Create => Truthy(r.cluster)
    case Yaml =>
      && Truthy(r.cluster) && Truthy(r.gvr) && Truthy(r.name)
      && (var g := Split(r.gvr.value, '/'); Part(g, 1) != Some("") && Part(g, 2) != Some(""))
      && (Truthy(r.namespace) || r.name.value != "ns")
    case _ => Truthy(r.namespace) && Truthy(r.name) && (Truthy(r.cluster) || r.namespace.value != "c")
  }

  /** The core API group is written `/v1/Kind` in a template hint and `core/v1/pods` in an editor reference. */
  function CanonicalGvr(action: Action, gvr: string): Option<string> {
    var g := Split(gvr, '/');
    if action == Create then
      if !Truthy(Part(g, 1)) || !Truthy(Part(g, 2)) then None
      else Some((if OrCore(g[0]) == "core" then "" else g[0]) + "/" + g[1] + "/" + g[2])
    else Some(OrCore(g[0]) + "/" + Shown(Part(g, 1)) + "/" + Shown(Part(g, 2)))
  }

  function Canonical(r: Ref): Ref {
    match r.action
    case Terminal => Ref(Terminal, None, None, None, None, None)
    case Create =>
      Ref(Create, r.cluster, None, None, None, if Truthy(r.gvr) then CanonicalGvr(Create, r.gvr.value) else None)
    case Yaml =>
      Ref(Yaml, r.cluster, Kept(r.namespace), r.name, None,
          if Truthy(r.gvr) then CanonicalGvr(Yaml, r.gvr.value) else None)
    case _ => Ref(r.action, Kept(r.cluster), r.namespace, r.name, Kept(r.container), None)
  }

  // ---- one reference ----

  lemma Decoded(s: string)
    ensures SafeDecode(Encode(s)) == s
    ensures Encode(s) == "" <==> s == ""
    ensures Encode(s) == "c" <==> s == "c"
    ensures Encode(s) == "ns" <==> s == "ns"
  {
    DecodeEncode(s);
    EncodeIsInjective(s, "");
    EncodeIsInjective(s, "c");
    EncodeIsInjective(s, "ns");
    PlainNames();
  }

  lemma PlainNames()
    ensures Encode("") == "" && Encode("c") == "c" && Encode("ns") == "ns"
  {
    assert "c"[1..] == "" && "ns"[1..] == "s" && "s"[1..] == "";
    assert Encode("s") == "s";
  }

  lemma SegmentsWithout(r: Ref, sep: char, i: nat)
    requires IsSeparator(sep) && i < |Segments(r)|
    ensures Without(Segments(r)[i], sep)
  {
    hide Encode, Split;
    forall s: string
      ensures Without(Encode(s), sep)
    {
      EncodedWithout(s, sep);
    }
  }

  lemma SplitQuery(r: Ref)
    requires Segments(r) != []
    ensures Split(Query(r), '/') == Segments(r)
  {
    hide Segments;
    forall i | 0 <= i < |Segments(r)|
      ensures Without(Segments(r)[i], '/')
    {
      SegmentsWithout(r, '/', i);
    }
    SplitJoin(Segments(r), '/');
  }

  lemma ParseCreateSegments(r: Ref)
    requires r.action == Create && Truthy(r.cluster)
    ensures ParseCreate(Segments(r)) == Some(Canonical(r))
  {
    hide Encode, Split, SafeDecode;
    Decoded(r.cluster.value);
    if Truthy(r.gvr) {
      var g := Split(r.gvr.value, '/');
      Decoded(OrCore(g[0]));
      if |g| >= 3 {
        Decoded(g[1]);
        Decoded(g[2]);
      }
    }
  }

  lemma ParseYamlSegments(r: Ref)
    requires r.action == Yaml && Truthy(r.cluster) && Truthy(r.gvr) && Truthy(r.name)
    ensures ParseYaml(Segments(r)) == if Survives(r) then Some(Canonical(r)) else None
  {
    hide Encode, Split, SafeDecode;
    var g := Split(r.gvr.value, '/');
    Decoded(r.cluster.value);
    Decoded(OrCore(g[0]));
    Decoded(Shown(Part(g, 1)));
    Decoded(Shown(Part(g, 2)));
    Decoded(r.name.value);
    Decoded(OrEmpty(r.namespace));
  }

  lemma ParsePodSegments(r: Ref)
    requires r.action == Logs || r.action == Exec || r.action == Attach
    ensures ParsePod(r.action, Segments(r)) == if Survives(r) then Some(Canonical(r)) else None
  {
    hide Encode, Split, SafeDecode;
    Decoded(OrEmpty(r.cluster));
    Decoded(OrEmpty(r.namespace));
    Decoded(OrEmpty(r.name));
    Decoded(OrEmpty(r.container));
    var path := [Encode(OrEmpty(r.namespace)), Encode(OrEmpty(r.name))] + OptionalSegment(r.container);
    if Truthy(r.cluster) {
      assert Segments(r) == [ActionName(r.action), "c", Encode(r.cluster.value)] + path;
      assert Segments(r)[3..] == path;
    } else {
      assert Segments(r) == [ActionName(r.action)] + path;
      assert Segments(r)[1..] == path;
    }
  }

  /** A reference comes back in canonical form if it survives, and not at all otherwise. */
  lemma RefRoundTrip(r: Ref)
    ensures ParseRef(Query(r)) == if Survives(r) then Some(Canonical(r)) else None
  {
    hide Encode, Split, ParseCreate, ParseYaml, ParsePod;
    if Segments(r) != [] {
      SplitQuery(r);
      NonEmptyQuery(r);
      match r.action
      case Terminal =>
      case Create => ParseCreateSegments(r);
      case Yaml => ParseYamlSegments(r);
      case _ => ParsePodSegments(r);
    }
  }

  lemma NonEmptyQuery(r: Ref)
    requires Segments(r) != []
    ensures Segments(r)[0] == ActionName(r.action) && Query(r) != ""
  {
    hide Encode, Split;
    assert Segments(r)[0] != "";
  }

  // ---- the canonical form, field by field ----

  /** An empty text is read back as a missing one where the text may be missing, and every other text as itself. */
  lemma CanonicalFields(r: Ref)
    requires Survives(r)
    ensures match r.action
      case Terminal => Canonical(r) == Ref(Terminal, None, None, None, None, None)
      case Create => Canonical(r) == Ref(Create, r.cluster, None, None, None, Canonical(r).gvr)
      case Yaml =>
        Canonical(r) == Ref(Yaml, r.cluster, if r.namespace == Some("") then None else r.namespace, r.name, None,
                            Canonical(r).gvr)
      case action =>
        Canonical(r) == Ref(action, if r.cluster == Some("") then None else r.cluster, r.namespace, r.name,
                            if r.container == Some("") then None else r.container, None)
  {
    hide CanonicalGvr;
  }

  /**
   The resource is read back by its first three parts. A template hint writes the core group as nothing and needs a
   version and a kind; an editor reference writes it as `core` and a missing part as `undefined`.
   */
  lemma CanonicalResource(r: Ref, parts: seq<string>)
    requires Survives(r) && (r.action == Create || r.action == Yaml)
    requires parts != [] && forall i :: 0 <= i < |parts| ==> Without(parts[i], '/')
    requires r.gvr == Some(Join(parts, '/')) && r.gvr != Some("")
    ensures r.action == Create ==>
      Canonical(r).gvr ==
        if |parts| >= 3 && parts[1] != "" && parts[2] != ""
        then Some((if parts[0] == "core" then "" else parts[0]) + "/" + parts[1] + "/" + parts[2]) else None
    ensures r.action == Yaml ==>
      Canonical(r).gvr ==
        Some((if parts[0] == "" then "core" else parts[0]) + "/" + (if |parts| > 1 then parts[1] else "undefined")
             + "/" + (if |parts| > 2 then parts[2] else "undefined"))
  {
    hide Split, Join;
    SplitJoin(parts, '/');
  }

  /** A resource with its version and its last part. */
  ghost predicate NamesResource(gvr: string) {
    exists group, version, kind :: IsResource(gvr, group, version, kind)
  }

  predicate IsResource(gvr: string, group: string, version: string, kind: string) {
    version != "" && kind != "" && gvr == group + "/" + version + "/" + kind
  }

  /**
   Whatever text is read as a reference begins with the action's name, and the reference has what its action needs: a
   cluster to create in; a cluster, a resource and a name to edit; a namespace and a pod for the rest.
   */
  lemma ParsedIsComplete(s: string, r: Ref)
    requires ParseRef(s) == Some(r)
    ensures Split(s, '/')[0] == ActionName(r.action)
    ensures match r.action
      case Terminal => r == Ref(Terminal, None, None, None, None, None)
      case Create => r.cluster != None && r.cluster != Some("") && (r.gvr.Some? ==> NamesResource(r.gvr.value))
      case Yaml =>
        && r.cluster != None && r.cluster != Some("") && r.name != None && r.name != Some("")
        && r.gvr.Some? && NamesResource(r.gvr.value)
      case _ => r.namespace.Some? && r.name.Some? && r.gvr.None?
  {
    hide SafeDecode, Split;
    var parts := Split(s, '/');
    match r.action
    case Create => CreateIsComplete(parts, r);
    case Yaml => YamlIsComplete(parts, r);
    case _ =>
  }

  lemma CreateIsComplete(parts: seq<string>, r: Ref)
    requires ParseCreate(parts) == Some(r)
    ensures r.cluster != None && r.cluster != Some("") && (r.gvr.Some? ==> NamesResource(r.gvr.value))
  {
    hide SafeDecode;
    if r.gvr.Some? {
      var group, version, kind := SafeDecode(parts[4]), SafeDecode(parts[5]), SafeDecode(parts[6]);
      var g := if group == "core" then "" else group;
      assert IsResource(r.gvr.value, g, version, kind);
    }
  }

  lemma YamlIsComplete(parts: seq<string>, r: Ref)
    requires ParseYaml(parts) == Some(r)
    ensures r.cluster != None && r.cluster != Some("") && r.name != None && r.name != Some("")
    ensures r.gvr.Some? && NamesResource(r.gvr.value)
  {
    hide SafeDecode;
    var group, version, resource := SafeDecode(parts[3]), SafeDecode(parts[4]), SafeDecode(parts[5]);
    assert IsResource(r.gvr.value, group, version, resource);
  }

  // ---- equality of references ----

  predicate RefsEqual(a: Ref, b: Ref) {
    Query(a) == Query(b)
  }

  lemma ThreeParts(a: string, b: string, c: string)
    requires Without(a, '/') && Without(b, '/') && Without(c, '/')
    ensures Split(a + "/" + b + "/" + c, '/') == [a, b, c]
  {
    SplitFirst(a, b + "/" + c, '/');
    SplitFirst(b, c, '/');
    SplitFirst(c, "", '/');
    assert a + "/" + b + "/" + c == a + ['/'] + (b + "/" + c);
    assert b + "/" + c == b + ['/'] + c;
  }

  lemma GvrParts(gvr: string, i: nat)
    ensures Part(Split(gvr, '/'), i).Some? ==> Without(Part(Split(gvr, '/'), i).value, '/')
    ensures Without(Shown(Part(Split(gvr, '/'), i)), '/')
  {
    if i < |Split(gvr, '/')| {
      SplitWithout(gvr, '/', i);
    }
  }

  /** Putting a surviving reference into canonical form does not change how it is printed. */
  lemma CanonicalPrintsAlike(r: Ref)
    requires Survives(r)
    ensures Segments(Canonical(r)) == Segments(r)
  {
    hide Encode, Split;
    if (r.action == Create || r.action == Yaml) && Truthy(r.gvr) {
      var g := Split(r.gvr.value, '/');
      GvrParts(r.gvr.value, 0);
      GvrParts(r.gvr.value, 1);
      GvrParts(r.gvr.value, 2);
      if r.action == Yaml {
        ThreeParts(OrCore(g[0]), Shown(Part(g, 1)), Shown(Part(g, 2)));
      } else if Truthy(Part(g, 1)) && Truthy(Part(g, 2)) {
        ThreeParts(if OrCore(g[0]) == "core" then "" else g[0], g[1], g[2]);
      }
    }
  }

  /** `refsEqual` compares canonical forms. */
  lemma RefsEqualIffSameCanonical(a: Ref, b: Ref)
    requires Survives(a) && Survives(b)
    ensures RefsEqual(a, b) <==> Canonical(a) == Canonical(b)
  {
    hide Segments, Canonical, ParseRef;
    RefRoundTrip(a);
    RefRoundTrip(b);
    CanonicalPrintsAlike(a);
    CanonicalPrintsAlike(b);
  }

  // ---- lists ----

  function SurvivorsOf(rs: seq<Ref>): seq<Ref> {
    if rs == [] then []
    else (if Survives(rs[0]) then [Canonical(rs[0])] else []) + SurvivorsOf(rs[1..])
  }

  function Queries(rs: seq<Ref>): (qs: seq<string>)
    ensures |qs| == |rs| && forall i :: 0 <= i < |rs| ==> qs[i] == Query(rs[i])
  {
    if rs == [] then [] else [Query(rs[0])] + Queries(rs[1..])
  }

  lemma {:induction false} ParseQueries(rs: seq<Ref>)
    ensures ParseAll(Queries(rs)) == SurvivorsOf(rs)
  {
    hide Query, Survives, Canonical, ParseRef;
    if rs != [] {
      RefRoundTrip(rs[0]);
      ParseQueries(rs[1..]);
    }
  }

  lemma QueryWithoutBar(r: Ref)
    ensures Without(Query(r), '|')
  {
    hide Segments;
    forall i | 0 <= i < |Segments(r)|
      ensures Without(Segments(r)[i], '|')
    {
      SegmentsWithout(r, '|', i);
    }
    JoinWithout(Segments(r), '/', '|');
  }

  /** For every list of references: reading the printed list gives its survivors in canonical form, in order. */
  lemma TabListRoundTrip(rs: seq<Ref>)
    ensures ParseList(ListQuery(rs)) == SurvivorsOf(rs)
  {
    hide Query, Survives, Canonical, ParseRef, Split;
    var qs := Queries(rs);
    assert seq(|rs|, i requires 0 <= i < |rs| => Query(rs[i])) == qs;
    ParseQueries(rs);
    if rs != [] {
      forall i | 0 <= i < |qs|
        ensures Without(qs[i], '|')
      {
        QueryWithoutBar(rs[i]);
      }
      SplitJoin(qs, '|');
      if ListQuery(rs) == "" {
        EmptyList(qs);
      }
    }
  }

  /** Only a single empty query prints as nothing, and it is no reference. */
  lemma EmptyList(qs: seq<string>)
    requires qs != [] && Join(qs, '|') == ""
    ensures ParseAll(qs) == []
  {
    if |qs| == 1 {
      assert ParseAll(qs[1..]) == [];
    }
  }

  /** A reference a legacy URL can name and the pane cannot print: namespace `c` without a cluster. */
  lemma ParsedButNotPrintable()
    ensures var r := Ref(Logs, None, Some("c"), Some("pod"), None, None);
      ParseRef("logs/%63/pod") == Some(r) && ParseRef(Query(r)) == None
  {
    hide SafeDecode, Split, Query, Canonical;
    var r := Ref(Logs, None, Some("c"), Some("pod"), None, None);
    RefRoundTrip(r);
    LegacyParts();
    DecodePlain();
    assert ["logs", "%63", "pod"][1..] == ["%63", "pod"];
  }

  lemma LegacyParts()
    ensures Split("logs/%63/pod", '/') == ["logs", "%63", "pod"]
  {
    hide Split;
    SplitFirst("logs", "%63/pod", '/');
    SplitFirst("%63", "pod", '/');
    SplitFirst("pod", "", '/');
    assert "logs/%63/pod" == "logs" + ['/'] + "%63/pod" && "%63/pod" == "%63" + ['/'] + "pod";
  }

  lemma DecodePlain()
    ensures SafeDecode("%63") == "c" && SafeDecode("pod") == "pod"
  {
    assert ByteAt("%63") == Some(99) && "%63"[3..] == "";
    assert Decode("") == Some("");
    assert "pod"[1..] == "od" && "od"[1..] == "d" && "d"[1..] == "";
    assert ['d'] + "" == "d" && ['o'] + "d" == "od" && ['p'] + "od" == "pod";
    assert Decode("d") == Some("d");
    assert Decode("od") == Some("od");
  }

  // ---- closing and adding tabs ----

  function Removed<T>(xs: seq<T>, i: nat): seq<T>
    requires i < |xs|
  {
    xs[..i] + xs[i + 1..]
  }

  /** `closeTab`: the list without tab i, and the index that is active afterwards. */
  method CloseTab(refs: seq<Ref>, active: nat, i: nat) returns (next: seq<Ref>, nextActive: nat)
    requires active < |refs| && i < |refs|
    ensures next == Removed(refs, i) && nextActive == ActiveAfterClose(|refs|, active)
    ensures if next == [] then nextActive == 0 else nextActive < |next|
  {
    next := [];
    for j := 0 to |refs|
      invariant next == if j <= i then refs[..j] else Removed(refs[..j], i)
    {
      if j != i {
        next := next + [refs[j]];
      }
    }
    assert refs[..|refs|] == refs;
    nextActive := if next == [] then 0 else if active <= |next| - 1 then active else |next| - 1;
  }

  function ActiveAfterClose(count: nat, active: nat): nat
    requires active < count
  {
    if count == 1 then 0 else if active <= count - 2 then active else count - 2
  }

  /**
   Closing another tab keeps the active one exactly when that tab stood behind it, the active one was the last, or
   the next one is the same again, as it may be in a list that comes from a URL.
   */
  lemma ActiveTabKeptIff(refs: seq<Ref>, active: nat, i: nat)
    requires active < |refs| && i < |refs| && i != active
    ensures Removed(refs, i)[ActiveAfterClose(|refs|, active)] == refs[active]
      <==> i > active || active == |refs| - 1 || refs[active + 1] == refs[active]
  {
  }

  /** Of three different tabs with the middle one active, closing the first shows the last. */
  lemma ActiveTabMoves(a: Ref, b: Ref, c: Ref)
    requires b != c
    ensures Removed([a, b, c], 0)[ActiveAfterClose(3, 1)] == c
  {
    assert Removed([a, b, c], 0) == [b, c];
  }

  ghost predicate DistinctTabs(refs: seq<Ref>) {
    forall a, b :: 0 <= a < b < |refs| ==> !RefsEqual(refs[a], refs[b])
  }

  /** `addTab`: the first equal tab is focused; without one the new tab goes last and becomes active. */
  method AddTab(refs: seq<Ref>, r: Ref) returns (next: seq<Ref>, active: nat)
    ensures active < |next| && RefsEqual(next[active], r)
    ensures forall k :: 0 <= k < active ==> !RefsEqual(next[k], r)
    ensures next == refs || (next == refs + [r] && active == |refs|)
    ensures DistinctTabs(refs) ==> DistinctTabs(next)
  {
    hide Query;
    for j := 0 to |refs|
      invariant forall k :: 0 <= k < j ==> !RefsEqual(refs[k], r)
    {
      if RefsEqual(refs[j], r) {
        return refs, j;
      }
    }
    return refs + [r], |refs|;
  }
}
