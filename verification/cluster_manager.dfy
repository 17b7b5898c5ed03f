/**
 The cluster manager of one identity (internal/clusters/manager.go, internal/clusters/import.go): the clusters by
 name, their order, the default one, and the kubeconfig files already merged.
 */
module ClusterManager {
  import opened Options
  import opened Sequences
  import opened Names
  import KubeconfigFile

  datatype Origin = Imported | InCluster | HostKubeconfig

  /** What a kubeconfig text amounts to: unreadable, or its contexts and those a client can be built for. */
  datatype Text = Unreadable | Readable(contexts: seq<string>, usable: set<string>)

  /** The contexts are the keys of a map, so none occurs twice. */
  type Kubeconfig = k: Text | k.Readable? ==> NoDup(k.contexts) witness Unreadable

  datatype File = File(path: string, content: Kubeconfig)

  datatype State = State(clusters: map<string, Origin>, order: seq<string>, current: string, loadedFiles: set<string>)

  /** The order lists the names of the clusters, once each, in ascending order. */
  ghost predicate Ordered(s: State) {
    Sorted(s.order) && Elements(s.order) == s.clusters.Keys
  }

  /** No default, or one of the clusters. */
  predicate DefaultOrNone(s: State) {
    s.current == "" || s.current in s.clusters
  }

  /** There is a default exactly when there is a cluster, and it is one of them. */
  predicate HasDefault(s: State) {
    if s.clusters == map[] then s.current == "" else s.current in s.clusters
  }

  ghost predicate ValidState(s: State) {
    Ordered(s) && HasDefault(s)
  }

  /** The names a load adds: for each usable context, in ascending order, the first free variant of its name. */
  ghost predicate Adds(taken: set<string>, names: seq<string>, added: seq<string>)
    decreases |names|
  {
    if names == [] then added == []
    else added != [] && IsFreshName(taken, names[0], added[0]) && Adds(taken + {added[0]}, names[1..], added[1..])
  }

  /** The usable contexts of a kubeconfig in ascending order. */
  function UsableNames(k: Kubeconfig): seq<string> {
    if k.Unreadable? then [] else Filter(SortNames(k.contexts), k.usable)
  }

  lemma {:induction false} AddsSnoc(taken: set<string>, names: seq<string>, added: seq<string>,
                                    name: string, chosen: string)
    requires Adds(taken, names, added) && IsFreshName(taken + Elements(added), name, chosen)
    ensures Adds(taken, names + [name], added + [chosen])
    decreases |names|
  {
    if names == [] {
      assert taken + Elements(added) == taken;
      assert [name][1..] == [] && [chosen][1..] == [];
      assert Adds(taken + {chosen}, [], []);
    } else {
      assert taken + {added[0]} + Elements(added[1..]) == taken + Elements(added) by {
        assert added == [added[0]] + added[1..];
      }
      AddsSnoc(taken + {added[0]}, names[1..], added[1..], name, chosen);
      assert (names + [name])[1..] == names[1..] + [name] && (added + [chosen])[1..] == added[1..] + [chosen];
    }
  }

  lemma AddsNothing(taken: set<string>)
    ensures Adds(taken, [], [])
  {
  }

  lemma FilterNothing(keep: set<string>)
    ensures Filter([], keep) == []
  {
  }

  lemma FilterStep(names: seq<string>, i: nat, keep: set<string>)
    requires i < |names|
    ensures Filter(names[..i + 1], keep) == Filter(names[..i], keep) + (if names[i] in keep then [names[i]] else [])
    ensures Filter(names[..0], keep) == []
  {
    assert names[..i + 1][..i] == names[..i];
  }

  lemma FreshIsFree(taken: set<string>, name: string, chosen: string)
    requires IsFreshName(taken, name, chosen)
    ensures chosen !in taken
  {
  }

  /** Added names are new and distinct, one for each usable context. */
  lemma {:induction false} AddedAreNew(taken: set<string>, names: seq<string>, added: seq<string>)
    requires Adds(taken, names, added)
    ensures |added| == |names| && Elements(added) !! taken
    ensures forall i, j :: 0 <= i < j < |added| ==> added[i] != added[j]
    decreases |names|
  {
    if names != [] {
      AddedAreNew(taken + {added[0]}, names[1..], added[1..]);
      assert added == [added[0]] + added[1..];
      forall i, j | 0 <= i < j < |added|
        ensures added[i] != added[j]
      {
        assert added[1..][j - 1] in Elements(added[1..]);
        if i > 0 {
          assert added[1..][i - 1] == added[i] && added[1..][j - 1] == added[j];
        }
      }
    }
  }

  /** A load has nothing to do with the file: it was merged before, or no context of it can be used. */
  predicate NothingNew(f: File, loadedFiles: set<string>) {
    f.path in loadedFiles || UsableNames(f.content) == []
  }

  function FirstClusterName(order: seq<string>, clusters: map<string, Origin>): string {
    if order == [] then "" else if order[0] in clusters then order[0] else FirstClusterName(order[1..], clusters)
  }

  /** The order without one name. */
  function Removed(order: seq<string>, name: string): seq<string> {
    Filter(order, Elements(order) - {name})
  }

  lemma RemovedIsOrdered(s: State, name: string)
    requires Ordered(s)
    ensures Ordered(s.(clusters := s.clusters - {name}, order := Removed(s.order, name)))
  {
    FilterKeepsSorted(s.order, Elements(s.order) - {name});
  }

  /** The filtering loop of `Remove`. */
  method WithoutName(order: seq<string>, name: string) returns (out: seq<string>)
    ensures out == Removed(order, name)
  {
    out := [];
    ghost var keep := Elements(order) - {name};
    for i := 0 to |order|
      invariant out == Filter(order[..i], keep)
    {
      FilterStep(order, i, keep);
      assert order[i] in Elements(order);
      if order[i] != name {
        out := out + [order[i]];
      }
    }
    assert order[..|order|] == order;
  }

  lemma DefaultFromOrder(s: State)
    requires Ordered(s)
    ensures HasDefault(s.(current := FirstClusterName(s.order, s.clusters)))
    ensures s.order != [] ==> FirstClusterName(s.order, s.clusters) == s.order[0]
  {
    NoElements(s.order);
    if s.order != [] {
      assert s.order[0] in Elements(s.order);
    }
  }

  // ---- the files a removal touches ----

  datatype DiskFile = DiskFile(path: string, config: KubeconfigFile.Config)

  /** The readable kubeconfig files of the imported directory, in directory order. */
  type Disk = seq<DiskFile>

  /** The first file that has the context, or the number of files. */
  function FileWith(disk: Disk, name: string): (i: nat)
    ensures i <= |disk| && (i < |disk| ==> name in disk[i].config.contexts)
    ensures forall j :: 0 <= j < i ==> name !in disk[j].config.contexts
  {
    if disk == [] || name in disk[0].config.contexts then 0 else 1 + FileWith(disk[1..], name)
  }

  lemma FileWithStep(disk: Disk, name: string, i: nat)
    requires i < |disk| && i <= FileWith(disk, name)
    ensures i == FileWith(disk, name) <==> name in disk[i].config.contexts
  {
  }

  /** Only the first file with the context changes: it goes if that was its only context, else it is stripped. */
  function Cleaned(disk: Disk, name: string): Disk {
    var i := FileWith(disk, name);
    if i == |disk| then disk
    else if |disk[i].config.contexts| <= 1 then disk[..i] + disk[i + 1..]
    else disk[i := disk[i].(config := KubeconfigFile.Stripped(disk[i].config, name))]
  }

  function UnlinkedPaths(disk: Disk, name: string): set<string> {
    var i := FileWith(disk, name);
    if i < |disk| && |disk[i].config.contexts| <= 1 then {disk[i].path} else {}
  }

  /**
   What cleaning up does to the first file that has the context: with no other context in it the file goes and its path
   is forgotten, otherwise it stays without the context. All other files stay, in their order.
   */
  lemma CleanedFile(disk: Disk, name: string, i: nat)
    requires i < |disk| && name in disk[i].config.contexts
    requires forall j :: 0 <= j < i ==> name !in disk[j].config.contexts
    ensures disk[i].config.contexts.Keys == {name} ==>
      Cleaned(disk, name) == disk[..i] + disk[i + 1..] && UnlinkedPaths(disk, name) == {disk[i].path}
    ensures disk[i].config.contexts.Keys != {name} ==>
      && |Cleaned(disk, name)| == |disk| && UnlinkedPaths(disk, name) == {}
      && Cleaned(disk, name)[i].path == disk[i].path
      && Cleaned(disk, name)[i].config.contexts == disk[i].config.contexts - {name}
      && forall j :: 0 <= j < |disk| && j != i ==> Cleaned(disk, name)[j] == disk[j]
  {
    var contexts := disk[i].config.contexts;
    assert FileWith(disk, name) == i;
    if contexts.Keys == {name} {
      assert |contexts| == |contexts.Keys| == 1;
    } else {
      var other :| other in contexts && other != name;
      TwoContexts(contexts, name, other);
    }
  }

  lemma NothingToClean(disk: Disk, name: string)
    requires forall j :: 0 <= j < |disk| ==> name !in disk[j].config.contexts
    ensures Cleaned(disk, name) == disk && UnlinkedPaths(disk, name) == {}
  {
  }

  /** A file of this path has the context. */
  predicate Holds(disk: Disk, path: string, name: string, context: KubeconfigFile.Context) {
    exists i :: 0 <= i < |disk| && disk[i].path == path
      && name in disk[i].config.contexts && disk[i].config.contexts[name] == context
  }

  lemma TwoContexts(contexts: map<string, KubeconfigFile.Context>, name: string, other: string)
    requires name in contexts && other in contexts && name != other
    ensures |contexts| >= 2
  {
    assert |contexts.Keys - {name, other}| == |contexts.Keys| - 2;
  }

  /** Cleaning up after one cluster leaves every other context of every file where and as it was, and adds none. */
  lemma CleanedKeepsOthers(disk: Disk, name: string, path: string, other: string, context: KubeconfigFile.Context)
    requires other != name
    ensures Holds(Cleaned(disk, name), path, other, context) <==> Holds(disk, path, other, context)
  {
    var f, after := FileWith(disk, name), Cleaned(disk, name);
    var gone := |after| < |disk|;
    if Holds(disk, path, other, context) {
      var i :| 0 <= i < |disk| && disk[i].path == path
        && other in disk[i].config.contexts && disk[i].config.contexts[other] == context;
      if gone && i == f {
        TwoContexts(disk[f].config.contexts, name, other);
      }
      var j := if gone && i > f then i - 1 else i;
      assert after[j].path == path && other in after[j].config.contexts;
    }
    if Holds(after, path, other, context) {
      var j :| 0 <= j < |after| && after[j].path == path
        && other in after[j].config.contexts && after[j].config.contexts[other] == context;
      var i := if gone && j >= f then j + 1 else j;
      assert disk[i].path == path && other in disk[i].config.contexts;
    }
  }

  // ---- whole runs ----

  /** The names `added` have been merged into s, which gives t. */
  ghost predicate Merges(s: State, content: Kubeconfig, path: string, added: seq<string>, t: State) {
    && Adds(s.clusters.Keys, UsableNames(content), added)
    && Ordered(t) && t.clusters.Keys == s.clusters.Keys + Elements(added)
    && (forall x :: x in t.clusters ==> t.clusters[x] == if x in s.clusters then s.clusters[x] else Imported)
    && t.loadedFiles == s.loadedFiles + (if path != "" && added != [] then {path} else {})
    && t.current == (if s.current == "" && added != [] then added[0] else s.current)
  }

  /** Nothing can be taken from the text, or its file was merged before. */
  predicate Rejected(s: State, content: Kubeconfig, path: string) {
    content.Unreadable? || content.contexts == [] || (path != "" && path in s.loadedFiles)
  }

  /** `unlinked` are the files a removal deleted from the disk; `Record` notes the file an import was written to. */
  datatype Op =
    | Import(content: Kubeconfig, path: string)
    | Record(path: string)
    | Select(name: string)
    | Forget(name: string, unlinked: set<string>)

  function Forgotten(s: State, name: string, unlinked: set<string>): State {
    var clusters, order := s.clusters - {name}, Removed(s.order, name);
    State(clusters, order, if s.current == name then FirstClusterName(order, clusters) else s.current,
          s.loadedFiles - unlinked)
  }

  ghost predicate Moves(s: State, op: Op, t: State) {
    match op
    case Import(content, path) =>
      if Rejected(s, content, path) then t == s else exists added :: Merges(s, content, path, added, t)
    case Record(path) => t == s.(loadedFiles := s.loadedFiles + {path})
    case Select(name) => t == if name in s.clusters then s.(current := name) else s
    case Forget(name, unlinked) => t == if name in s.clusters then Forgotten(s, name, unlinked) else s
  }

  lemma MergeKeepsDefault(s: State, content: Kubeconfig, path: string, added: seq<string>, t: State)
    requires Merges(s, content, path, added, t)
    ensures HasDefault(s) ==> HasDefault(t)
    ensures DefaultOrNone(s) ==> DefaultOrNone(t)
  {
    if added != [] {
      assert added[0] in Elements(added);
    } else {
      assert t.clusters.Keys == s.clusters.Keys;
      SameKeys(s, t);
    }
  }

  lemma SameKeys(s: State, t: State)
    requires t.clusters.Keys == s.clusters.Keys
    ensures t.clusters == map[] <==> s.clusters == map[]
  {
    assert s.clusters == map[] <==> s.clusters.Keys == {};
    assert t.clusters == map[] <==> t.clusters.Keys == {};
  }

  lemma ForgetKeepsValid(s: State, name: string, unlinked: set<string>)
    requires ValidState(s) && name in s.clusters
    ensures ValidState(Forgotten(s, name, unlinked))
  {
    hide Sorted, Filter;
    RemovedIsOrdered(s, name);
    var t := Forgotten(s, name, unlinked);
    DefaultFromOrder(t);
    if s.current != name {
      assert s.current in t.clusters;
    }
  }

  lemma StepKeepsValid(s: State, op: Op, t: State)
    requires ValidState(s) && Moves(s, op, t)
    ensures ValidState(t)
  {
    hide Sorted, Adds, Forgotten;
    match op
    case Import(content, path) =>
      if !Rejected(s, content, path) {
        var added :| Merges(s, content, path, added, t);
        MergeKeepsDefault(s, content, path, added, t);
      }
    case Record(path) =>
    case Select(name) =>
    case Forget(name, unlinked) =>
      if name in s.clusters {
        ForgetKeepsValid(s, name, unlinked);
      }
  }

  ghost predicate IsRun(states: seq<State>, ops: seq<Op>) {
    && |states| == |ops| + 1 && ValidState(states[0])
    && forall i :: 0 <= i < |ops| ==> Moves(states[i], ops[i], states[i + 1])
  }

  /**
   Over every sequence of imports, selections and removals: the order lists exactly the names of the clusters,
   strictly ascending, and the default is one of them as long as there is one.
   */
  lemma {:induction false} RunsKeepValid(states: seq<State>, ops: seq<Op>, n: nat)
    requires IsRun(states, ops) && n <= |ops|
    ensures ValidState(states[n])
  {
    hide ValidState, Moves;
    if n > 0 {
      RunsKeepValid(states, ops, n - 1);
      assert Moves(states[n - 1], ops[n - 1], states[n - 1 + 1]);
      StepKeepsValid(states[n - 1], ops[n - 1], states[n]);
    }
  }

  // ---- loading a directory ----

  /** The files are imported one after the other. */
  ghost predicate Loads(files: seq<File>, s: State, t: State)
    decreases |files|
  {
    if files == [] then t == s
    else exists m :: Moves(s, Import(files[0].content, files[0].path), m) && Loads(files[1..], m, t)
  }

  function Nothing(): State {
    State(map[], [], "", {})
  }

  /** The manager of the host's usable contexts before any file was imported and a default chosen. */
  function OfHost(names: seq<string>): State {
    State(map x | x in names :: HostKubeconfig, names, "", {})
  }

  lemma LoadsNothing(s: State)
    ensures Loads([], s, s)
  {
  }

  lemma {:induction false} LoadsMore(files: seq<File>, more: seq<File>, s: State, m: State, t: State)
    requires Loads(files, s, m) && Loads(more, m, t)
    ensures Loads(files + more, s, t)
    decreases |files|
  {
    hide Moves;
    if files == [] {
      assert files + more == more;
    } else {
      var n :| Moves(s, Import(files[0].content, files[0].path), n) && Loads(files[1..], n, m);
      LoadsMore(files[1..], more, n, m, t);
      assert (files + more)[1..] == files[1..] + more;
    }
  }

  lemma LoadsOne(files: seq<File>, f: File, s: State, m: State, t: State)
    requires Loads(files, s, m) && Moves(m, Import(f.content, f.path), t)
    ensures Loads(files + [f], s, t)
  {
    hide Moves;
    assert [f][1..] == [] && Loads([], t, t);
    LoadsMore(files, [f], s, m, t);
  }

  /** How many clusters loading the files adds: one for each usable context of each file that is not merged yet. */
  function NewClusters(files: seq<File>, merged: set<string>): nat
    decreases |files|
  {
    if files == [] then 0
    else
      var n := if files[0].path in merged then 0 else |UsableNames(files[0].content)|;
      n + NewClusters(files[1..], if n > 0 then merged + {files[0].path} else merged)
  }

  lemma ImportCounts(s: State, f: File, t: State)
    requires f.path != "" && Moves(s, Import(f.content, f.path), t)
    ensures var n := if f.path in s.loadedFiles then 0 else |UsableNames(f.content)|;
      && |t.clusters| == |s.clusters| + n
      && t.loadedFiles == (if n > 0 then s.loadedFiles + {f.path} else s.loadedFiles)
      && (forall x :: x in s.clusters ==> x in t.clusters && t.clusters[x] == s.clusters[x])
      && (forall x :: x in t.clusters && x !in s.clusters ==> t.clusters[x] == Imported)
  {
    hide UsableNames, Sorted, Adds;
    if Rejected(s, f.content, f.path) {
      NoneUsable(f.content);
    } else {
      var added :| Merges(s, f.content, f.path, added, t);
      AddedAreNew(s.clusters.Keys, UsableNames(f.content), added);
      DistinctCount(added);
      assert |t.clusters.Keys| == |s.clusters.Keys| + |Elements(added)|;
    }
  }

  lemma NoneUsable(k: Kubeconfig)
    ensures k.Unreadable? || k.contexts == [] ==> UsableNames(k) == []
  {
  }

  lemma {:induction false} DistinctCount(s: seq<string>)
    requires forall i, j :: 0 <= i < j < |s| ==> s[i] != s[j]
    ensures |Elements(s)| == |s|
  {
    if s != [] {
      var n := |s| - 1;
      DistinctCount(s[..n]);
      assert s == s[..n] + [s[n]] && s[n] !in s[..n];
      assert Elements(s) == Elements(s[..n]) + {s[n]};
    }
  }

  /**
   Loading files adds a cluster of its own for each usable context of each file that was not merged before, keeps the
   clusters that were there, and adds no others.
   */
  lemma {:induction false} LoadsAddClusters(files: seq<File>, s: State, t: State)
    requires Loads(files, s, t) && forall f :: f in files ==> f.path != ""
    ensures |t.clusters| == |s.clusters| + NewClusters(files, s.loadedFiles)
    ensures forall x :: x in s.clusters ==> x in t.clusters && t.clusters[x] == s.clusters[x]
    ensures forall x :: x in t.clusters && x !in s.clusters ==> t.clusters[x] == Imported
    decreases |files|
  {
    hide Moves, UsableNames;
    if files != [] {
      var m :| Moves(s, Import(files[0].content, files[0].path), m) && Loads(files[1..], m, t);
      ImportCounts(s, files[0], m);
      LoadsAddClusters(files[1..], m, t);
    }
  }

  // ---- the cluster without a name ----

  /** The empty default stands for there being no cluster. */
  predicate DefaultTells(s: State) {
    s.current == "" <==> s.clusters == map[]
  }

  /**
   The operation makes the cluster with the empty name the default: it selects it, it imports a usable context of
   that name into an empty manager, or it removes the default while that cluster stays.
   */
  predicate PicksNameless(s: State, op: Op) {
    match op
    case Import(content, path) => !Rejected(s, content, path) && s.clusters == map[] && "" in UsableNames(content)
    case Record(_) => false
    case Select(name) => name == "" && "" in s.clusters
    case Forget(name, _) => name in s.clusters && name == s.current && name != "" && "" in s.clusters
  }

  lemma NamelessIsFirst(s: seq<string>)
    requires Sorted(s) && "" in s
    ensures s[0] == ""
  {
    SortedFirst(s, "");
  }

  lemma UsableAreSorted(k: Kubeconfig)
    ensures Sorted(UsableNames(k))
  {
    if k.Readable? {
      SortSorts(k.contexts);
      FilterKeepsSorted(SortNames(k.contexts), k.usable);
    }
  }

  lemma ImportTellsIff(s: State, content: Kubeconfig, path: string, added: seq<string>, t: State)
    requires ValidState(s) && DefaultTells(s) && Merges(s, content, path, added, t)
    ensures DefaultTells(t) <==> !(s.clusters == map[] && "" in UsableNames(content))
  {
    hide Sorted, Filter, SortNames;
    MergeKeepsDefault(s, content, path, added, t);
    var names := UsableNames(content);
    UsableAreSorted(content);
    if s.clusters == map[] && names != [] {
      assert added[0] == names[0] && added[0] in Elements(added);
      if "" in names {
        NamelessIsFirst(names);
      }
      assert added[0] in t.clusters;
    } else if s.clusters != map[] {
      var x :| x in s.clusters;
      assert x in t.clusters;
    }
  }

  lemma ForgetTellsIff(s: State, name: string, unlinked: set<string>)
    requires ValidState(s) && DefaultTells(s) && name in s.clusters
    ensures DefaultTells(Forgotten(s, name, unlinked)) <==> !(name == s.current && name != "" && "" in s.clusters)
  {
    hide Sorted, Filter;
    var t := Forgotten(s, name, unlinked);
    ForgetKeepsValid(s, name, unlinked);
    DefaultFromOrder(t);
    if name == s.current && "" in s.clusters && name != "" {
      assert "" in t.clusters && "" in Elements(t.order);
      NamelessIsFirst(t.order);
      NoElements(t.order);
    }
  }

  lemma StepTellsIff(s: State, op: Op, t: State)
    requires ValidState(s) && DefaultTells(s) && Moves(s, op, t)
    ensures DefaultTells(t) <==> !PicksNameless(s, op)
  {
    hide Sorted, Forgotten, Ordered, UsableNames, Merges;
    match op
    case Import(content, path) =>
      if !Rejected(s, content, path) {
        var added :| Merges(s, content, path, added, t);
        ImportTellsIff(s, content, path, added, t);
      }
    case Record(path) =>
    case Select(name) =>
    case Forget(name, unlinked) =>
      if name in s.clusters {
        ForgetTellsIff(s, name, unlinked);
      }
  }

  /**
   In every run from a state whose default tells whether there are clusters, it goes on doing so if and only if no
   operation picks the cluster with the empty name.
   */
  lemma {:induction false} CurrentEmptyIff(states: seq<State>, ops: seq<Op>, n: nat)
    requires IsRun(states, ops) && n <= |ops| && DefaultTells(states[0])
    ensures (forall i :: 0 <= i <= n ==> DefaultTells(states[i]))
      <==> (forall i :: 0 <= i < n ==> !PicksNameless(states[i], ops[i]))
  {
    hide ValidState, Moves, DefaultTells, PicksNameless;
    if n > 0 {
      CurrentEmptyIff(states, ops, n - 1);
      RunsKeepValid(states, ops, n - 1);
      assert Moves(states[n - 1], ops[n - 1], states[n - 1 + 1]);
      if DefaultTells(states[n - 1]) {
        StepTellsIff(states[n - 1], ops[n - 1], states[n]);
      }
    }
  }

  lemma {:induction false} NamelessAdded(taken: set<string>, names: seq<string>, added: seq<string>)
    requires Adds(taken, names, added) && "" in added
    ensures "" in names
    decreases |names|
  {
    if names != [] && added[0] != "" {
      assert added == [added[0]] + added[1..];
      NamelessAdded(taken + {added[0]}, names[1..], added[1..]);
    }
  }

  /** A cluster gets the empty name only from a usable context of that name. */
  lemma {:induction false} NamelessIsImported(states: seq<State>, ops: seq<Op>, n: nat)
    requires IsRun(states, ops) && n <= |ops| && "" in states[n].clusters && "" !in states[0].clusters
    ensures exists i :: 0 <= i < n && ops[i].Import? && "" in UsableNames(ops[i].content)
  {
    hide UsableNames, Ordered, Adds, Forgotten;
    var s, op, t := states[n - 1], ops[n - 1], states[n];
    assert Moves(s, op, states[n - 1 + 1]);
    if "" in s.clusters {
      NamelessIsImported(states, ops, n - 1);
    } else {
      OnlyImportsAdd(s, op, t, "");
      var added :| Merges(s, op.content, op.path, added, t);
      NamelessAdded(s.clusters.Keys, UsableNames(op.content), added);
    }
  }

  lemma OnlyImportsAdd(s: State, op: Op, t: State, x: string)
    requires Moves(s, op, t) && x in t.clusters && x !in s.clusters
    ensures op.Import? && !Rejected(s, op.content, op.path)
  {
    hide Merges;
  }

  /** Such a run: an empty manager imports a kubeconfig whose only context has the empty name. */
  lemma NamelessDefault()
    ensures exists states: seq<State>, ops: seq<Op> ::
      IsRun(states, ops) && |ops| == 1 && states[0] == State(map[], [], "", {})
      && states[1].current == "" && "" in states[1].clusters
  {
    var s, t := State(map[], [], "", {}), State(map["" := Imported], [""], "", {});
    var content := NamelessKubeconfig();
    OneNamelessContext();
    hide Merges, ValidState;
    assert ValidState(s) by { NothingIsValid(); }
    assert Moves(s, Import(content, ""), t);
    assert IsRun([s, t], [Import(content, "")]);
  }

  function NamelessKubeconfig(): Kubeconfig {
    assert [""][..0] == [];
    Readable([""], {""})
  }

  lemma NothingIsValid()
    ensures ValidState(State(map[], [], "", {}))
  {
  }

  lemma OneNamelessContext()
    ensures Merges(State(map[], [], "", {}), NamelessKubeconfig(), "", [""], State(map["" := Imported], [""], "", {}))
  {
    NamelessIsUsable();
    AddsNameless();
    assert State(map[], [], "", {}).clusters.Keys == {};
    hide Adds, UsableNames;
    assert Elements([""]) == {""} && Sorted([""]);
  }

  lemma AddsNameless()
    ensures Adds({}, [""], [""])
  {
    assert IsFreshName({}, "", "") && [""][1..] == [] && Adds({""}, [], []);
  }

  lemma NamelessIsUsable()
    ensures UsableNames(NamelessKubeconfig()) == [""]
  {
    assert [""][..0] == [];
    assert SortNames([""]) == InsertName(SortNames([]), "") == [""];
    assert Filter([""], {""}) == Filter([], {""}) + [""];
  }

  class Manager {
    var clusters: map<string, Origin>
    var order: seq<string>
    var current: string
    var loadedFiles: set<string>
    const inCluster: bool

    function Contents(): State
      reads this
    {
      State(clusters, order, current, loadedFiles)
    }

    ghost predicate Valid()
      reads this
    {
      ValidState(Contents())
    }

    /** Inside a cluster: that cluster alone. */
    constructor InsideCluster()
      ensures Valid() && DefaultTells(Contents()) && inCluster
      ensures clusters == map["in-cluster" := InCluster] && current == "in-cluster" && loadedFiles == {}
    {
      inCluster := true;
      clusters, order, current, loadedFiles := map["in-cluster" := InCluster], ["in-cluster"], "in-cluster", {};
      new;
      assert ["in-cluster"][1..] == [] && Sorted([]);
      assert Elements(order) == {"in-cluster"} && "in-cluster" in clusters;
    }

    /**
     A new manager that owns the identity's imported files only. `adopted` lists the same directory once files of
     the legacy one were copied into it; it is empty when none were.
     */
    constructor ForIdentity(files: seq<File>, adopted: seq<File>)
      requires forall f :: f in files + adopted ==> f.path != ""
      ensures Valid() && !inCluster
      ensures exists t :: Loads(files + adopted, Nothing(), t) && Contents() == t.(current := current)
      ensures current == FirstClusterName(order, clusters)
      ensures forall f :: f in files + adopted ==> NothingNew(f, loadedFiles)
    {
      inCluster := false;
      clusters, order, current, loadedFiles := map[], [], "", {};
      new;
      assert Ordered(Contents());
      hide Sorted, Moves, Loads, UsableNames;
      LoadImported(files);
      ghost var first := Contents();
      LoadImported(adopted);
      assert forall f :: f in files ==> NothingNew(f, first.loadedFiles);
      LoadsMore(files, adopted, Nothing(), first, Contents());
      DefaultFromOrder(Contents());
      if clusters != map[] {
        current := FirstClusterName(order, clusters);
      }
    }

    /** The single-instance manager: the host's contexts, then the imported files, then the default. */
    constructor (host: Kubeconfig, configured: string, hostCurrent: string, files: seq<File>)
      requires forall f :: f in files ==> f.path != ""
      ensures Valid() && !inCluster
      ensures exists t :: Loads(files, OfHost(UsableNames(host)), t) && Contents() == t.(current := current)
      ensures current ==
        if configured != "" && configured in clusters then configured
        else if hostCurrent != "" && hostCurrent in clusters then hostCurrent
        else FirstClusterName(order, clusters)
      ensures forall f :: f in files ==> NothingNew(f, loadedFiles)
    {
      inCluster := false;
      clusters, order, current, loadedFiles := map[], [], "", {};
      new;
      hide Moves, Loads;
      if host.Readable? {
        UsableAreSorted(host);
        AddHostContexts(UsableNames(host));
      }
      assert Contents() == OfHost(UsableNames(host));
      LoadImported(files);
      DefaultFromOrder(Contents());
      if configured != "" && configured in clusters {
        current := configured;
      } else if hostCurrent != "" && hostCurrent in clusters {
        current := hostCurrent;
      } else {
        current := FirstClusterName(order, clusters);
      }
    }

    method AddHostContexts(names: seq<string>)
      requires clusters == map[] && order == [] && current == "" && loadedFiles == {}
      requires Sorted(names)
      modifies this`clusters, this`order
      ensures Ordered(Contents()) && Contents() == OfHost(names)
    {
      hide Sorted;
      for i := 0 to |names|
        invariant clusters == (map x | x in names[..i] :: HostKubeconfig) && order == names[..i]
      {
        assert names[..i + 1] == names[..i] + [names[i]];
        clusters := clusters[names[i] := HostKubeconfig];
        order := order + [names[i]];
      }
      assert names[..|names|] == names;
    }

    /** `addContextsFromYAML`: the usable contexts become clusters under fresh names; a merged file is skipped. */
    method AddContexts(content: Kubeconfig, path: string) returns (added: seq<string>, ok: bool)
      requires Ordered(Contents()) && DefaultOrNone(Contents())
      modifies this
      ensures Ordered(Contents()) && DefaultOrNone(Contents())
      ensures old(HasDefault(Contents())) ==> HasDefault(Contents())
      ensures ok <==> content.Readable? && content.contexts != []
      ensures Rejected(old(Contents()), content, path) ==> added == [] && Contents() == old(Contents())
      ensures !Rejected(old(Contents()), content, path) ==> Merges(old(Contents()), content, path, added, Contents())
      ensures Moves(old(Contents()), Import(content, path), Contents())
      ensures added == [] ==> Contents() == old(Contents())
    {
      added, ok := [], false;
      if content.Unreadable? || content.contexts == [] {
        return;
      }
      ok := true;
      if path != "" && path in loadedFiles {
        return;
      }
      added := Register(SortNames(content.contexts), content.usable);
      if path != "" && added != [] {
        loadedFiles := loadedFiles + {path};
      }
      if current == "" && added != [] {
        current := added[0];
      }
      assert Merges(old(Contents()), content, path, added, Contents());
      MergeKeepsDefault(old(Contents()), content, path, added, Contents());
    }

    method Register(names: seq<string>, usable: set<string>) returns (added: seq<string>)
      requires Ordered(Contents())
      modifies this`clusters, this`order
      ensures Ordered(Contents())
      ensures Adds(old(clusters.Keys), Filter(names, usable), added)
      ensures clusters.Keys == old(clusters.Keys) + Elements(added)
      ensures forall x :: x in clusters ==> clusters[x] == if x in old(clusters) then old(clusters)[x] else Imported
      ensures added == [] ==> clusters == old(clusters) && order == old(order)
    {
      hide Sorted, NoDup, Filter, Adds, IsFreshName;
      SortedIsNoDup(order);
      added := Append(names, usable);
      SortSorts(order);
      if added == [] {
        SortedIsUnique(SortNames(order), order);
      }
      order := SortNames(order);
    }

    /** The naming loop: every usable context is appended under the first free variant of its name. */
    method Append(names: seq<string>, usable: set<string>) returns (added: seq<string>)
      requires NoDup(order) && Elements(order) == clusters.Keys
      modifies this`clusters, this`order
      ensures NoDup(order) && Elements(order) == clusters.Keys
      ensures Adds(old(clusters.Keys), Filter(names, usable), added)
      ensures clusters.Keys == old(clusters.Keys) + Elements(added)
      ensures forall x :: x in clusters ==> clusters[x] == if x in old(clusters) then old(clusters)[x] else Imported
      ensures added == [] ==> clusters == old(clusters) && order == old(order)
    {
      hide NoDup, Adds, Filter, IsFreshName;
      FilterNothing(usable);
      added := [];
      AddsNothing(clusters.Keys);
      for i := 0 to |names|
        invariant NoDup(order) && Elements(order) == clusters.Keys
        invariant Adds(old(clusters.Keys), Filter(names[..i], usable), added)
        invariant clusters.Keys == old(clusters.Keys) + Elements(added)
        invariant forall x :: x in clusters ==> clusters[x] == if x in old(clusters) then old(clusters)[x] else Imported
        invariant added == [] ==> clusters == old(clusters) && order == old(order)
      {
        FilterStep(names, i, usable);
        var chosen := FreshName(clusters.Keys, names[i]);
        if names[i] !in usable {
          assert Filter(names[..i + 1], usable) == Filter(names[..i], usable);
        } else {
          AddsSnoc(old(clusters.Keys), Filter(names[..i], usable), added, names[i], chosen);
          FreshIsFree(clusters.Keys, names[i], chosen);
          NoDupSnoc(order, chosen);
          clusters := clusters[chosen := Imported];
          order := order + [chosen];
          added := added + [chosen];
        }
      }
      assert names[..|names|] == names;
    }

    /** `LoadImported`: every file that is not merged yet; loading the same files again changes nothing. */
    method LoadImported(files: seq<File>)
      requires Ordered(Contents()) && DefaultOrNone(Contents())
      requires forall f :: f in files ==> f.path != ""
      modifies this
      ensures Ordered(Contents()) && DefaultOrNone(Contents())
      ensures old(HasDefault(Contents())) ==> HasDefault(Contents())
      ensures Loads(files, old(Contents()), Contents())
      ensures forall f :: f in files ==> NothingNew(f, loadedFiles)
      ensures (forall f :: f in files ==> NothingNew(f, old(loadedFiles))) ==> Contents() == old(Contents())
      ensures forall x :: x in old(clusters) ==> x in clusters && clusters[x] == old(clusters)[x]
      ensures old(loadedFiles) <= loadedFiles
    {
      hide Sorted, Adds, UsableNames, Moves, Loads, Merges;
      LoadsNothing(Contents());
      for i := 0 to |files|
        invariant Ordered(Contents()) && DefaultOrNone(Contents())
        invariant old(HasDefault(Contents())) ==> HasDefault(Contents())
        invariant Loads(files[..i], old(Contents()), Contents())
        invariant forall k :: 0 <= k < i ==> NothingNew(files[k], loadedFiles)
        invariant (forall k :: 0 <= k < i ==> NothingNew(files[k], old(loadedFiles))) ==> Contents() == old(Contents())
        invariant forall x :: x in old(clusters) ==> x in clusters && clusters[x] == old(clusters)[x]
        invariant old(loadedFiles) <= loadedFiles
      {
        assert files[i].path != "" by { assert files[i] in files; }
        ghost var before := Contents();
        var added, ok := AddContexts(files[i].content, files[i].path);
        AddedOrNothing(files[i], before.loadedFiles, loadedFiles, added, ok);
        LoadsOne(files[..i], files[i], old(Contents()), before, Contents());
        assert files[..i + 1] == files[..i] + [files[i]];
      }
      assert files[..|files|] == files;
    }

    /**
     `ImportKubeconfig`: an inline import, written to the given file when it added something and is to be kept. Loading
     that file later adds nothing again.
     */
    method ImportKubeconfig(content: Kubeconfig, keepAt: Option<string>) returns (added: seq<string>, ok: bool)
      requires Ordered(Contents()) && DefaultOrNone(Contents())
      modifies this
      ensures Ordered(Contents()) && DefaultOrNone(Contents())
      ensures old(HasDefault(Contents())) ==> HasDefault(Contents())
      ensures ok <==> content.Readable? && content.contexts != []
      ensures ok ==> Adds(old(clusters.Keys), UsableNames(content), added)
      ensures clusters.Keys == old(clusters.Keys) + Elements(added)
      ensures loadedFiles == old(loadedFiles) + (if keepAt.Some? && added != [] then {keepAt.value} else {})
      ensures keepAt.Some? && added != [] ==> NothingNew(File(keepAt.value, content), loadedFiles)
    {
      hide Sorted, Adds, UsableNames;
      added, ok := AddContexts(content, "");
      assert ok ==> Merges(old(Contents()), content, "", added, Contents());
      if keepAt.Some? && added != [] {
        loadedFiles := loadedFiles + {keepAt.value};
      }
    }

    /**
     `Remove`: forgets a cluster, picks a new default if it was the default, and takes the context out of the first
     file that has it.
     */
    method Remove(name: string, disk: Disk) returns (ok: bool, after: Disk)
      requires Valid()
      modifies this`clusters, this`order, this`current, this`loadedFiles
      ensures Valid()
      ensures ok <==> !inCluster && name in old(clusters)
      ensures !ok ==> Contents() == old(Contents()) && after == disk
      ensures ok ==> after == Cleaned(disk, name)
      ensures ok ==> Moves(old(Contents()), Forget(name, UnlinkedPaths(disk, name)), Contents())
      ensures ok ==> clusters.Keys == old(clusters.Keys) - {name}
      ensures forall x :: x in clusters ==> clusters[x] == old(clusters)[x]
      ensures name != old(current) ==> current == old(current)
      ensures loadedFiles == old(loadedFiles) - (if ok then UnlinkedPaths(disk, name) else {})
    {
      if inCluster || name !in clusters {
        return false, disk;
      }
      hide Sorted, Filter, Ordered, HasDefault, Cleaned, UnlinkedPaths, Merges, FirstClusterName, Removed;
      ForgetKeepsValid(Contents(), name, UnlinkedPaths(disk, name));
      Drop(name);
      ok := true;
      after := CleanUp(name, disk);
    }

    /** The part of `Remove` under the lock. */
    method Drop(name: string)
      modifies this`clusters, this`order, this`current
      ensures Contents() == Forgotten(old(Contents()), name, {})
    {
      hide Filter, FirstClusterName, Removed;
      clusters := clusters - {name};
      order := WithoutName(order, name);
      if current == name {
        current := FirstClusterName(order, clusters);
      }
      assert loadedFiles - {} == loadedFiles;
    }

    /** `removeFromImportedFile`. */
    method CleanUp(name: string, disk: Disk) returns (after: Disk)
      modifies this`loadedFiles
      ensures after == Cleaned(disk, name)
      ensures loadedFiles == old(loadedFiles) - UnlinkedPaths(disk, name)
    {
      for i := 0 to |disk|
        invariant FileWith(disk, name) >= i && loadedFiles == old(loadedFiles)
      {
        FileWithStep(disk, name, i);
        var outcome := KubeconfigFile.RemoveContext(disk[i].config, name);
        match outcome {
          case NotHere =>
          case Unlinked =>
            loadedFiles := loadedFiles - {disk[i].path};
            return disk[..i] + disk[i + 1..];
          case Rewritten(config) =>
            return disk[i := disk[i].(config := config)];
        }
      }
      return disk;
    }

    method SetCurrent(name: string) returns (ok: bool)
      requires Valid()
      modifies this`current
      ensures Valid()
      ensures ok <==> name in clusters
      ensures current == if ok then name else old(current)
    {
      if name !in clusters {
        return false;
      }
      current := name;
      return true;
    }
  }

  lemma AddedOrNothing(f: File, before: set<string>, after: set<string>, added: seq<string>, ok: bool)
    requires f.path != "" && after == before + (if added != [] then {f.path} else {})
    requires ok <==> f.content.Readable? && f.content.contexts != []
    requires !ok || f.path in before ==> added == []
    requires ok && f.path !in before ==> exists taken :: Adds(taken, UsableNames(f.content), added)
    ensures NothingNew(f, after) && (NothingNew(f, before) ==> added == [])
  {
    if ok && f.path !in before {
      var taken :| Adds(taken, UsableNames(f.content), added);
      AddedAreNew(taken, UsableNames(f.content), added);
    } else if f.content.Readable? && f.content.contexts == [] {
      assert SortNames([]) == [] && Filter([], f.content.usable) == [];
    }
  }
}
