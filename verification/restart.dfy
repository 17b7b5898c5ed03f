/**
 What a restart makes of the files on disk (internal/clusters/import.go, internal/clusters/manager.go): every context
 that a client can be built for becomes a cluster again, under the first free variant of its name. A removal only
 takes the context of the cluster's own name out of the first file that has one.
 */
module Restarts {
  import opened Sequences
  import opened Names
  import opened ClusterManager
  import KubeconfigFile

  /** Can a client be built for this context of the file? */
  type Builder = (KubeconfigFile.Config, string) -> bool

  predicate Usable(build: Builder, f: DiskFile, name: string) {
    name in f.config.contexts && build(f.config, name)
  }

  /** What reading the file gives; the contexts may come in any order. */
  ghost predicate Describes(f: File, d: DiskFile, build: Builder) {
    && f.path == d.path && f.content.Readable?
    && Elements(f.content.contexts) == d.config.contexts.Keys
    && (forall x :: x in f.content.usable <==> Usable(build, d, x))
  }

  ghost predicate DescribesAll(files: seq<File>, disk: Disk, build: Builder) {
    |files| == |disk| && forall i :: 0 <= i < |disk| ==> Describes(files[i], disk[i], build)
  }

  /** t is the manager of an identity whose imported directory holds these files. */
  ghost predicate RestartsAs(disk: Disk, build: Builder, t: State) {
    exists files :: DescribesAll(files, disk, build) && Loads(files, Nothing(), t)
  }

  // ---- a restart is determined by the disk ----

  lemma UsableAsDescribed(f: File, d: DiskFile, build: Builder, x: string)
    requires Describes(f, d, build)
    ensures x in UsableNames(f.content) <==> Usable(build, d, x)
  {
    hide Filter, SortNames;
    assert x in SortNames(f.content.contexts) <==> x in Elements(SortNames(f.content.contexts));
    assert x in f.content.contexts <==> x in d.config.contexts by {
      assert x in f.content.contexts <==> x in Elements(f.content.contexts);
    }
  }

  lemma SameUsableNames(f: File, g: File, d: DiskFile, build: Builder)
    requires Describes(f, d, build) && Describes(g, d, build)
    ensures UsableNames(f.content) == UsableNames(g.content)
    ensures f.content.contexts == [] <==> g.content.contexts == []
  {
    hide Sorted, UsableNames, Describes;
    UsableAreSorted(f.content);
    UsableAreSorted(g.content);
    forall x
      ensures x in UsableNames(f.content) <==> x in UsableNames(g.content)
    {
      UsableAsDescribed(f, d, build, x);
      UsableAsDescribed(g, d, build, x);
    }
    SortedIsUnique(UsableNames(f.content), UsableNames(g.content));
    SameEmptiness(f, g, d, build);
  }

  lemma SameEmptiness(f: File, g: File, d: DiskFile, build: Builder)
    requires Describes(f, d, build) && Describes(g, d, build)
    ensures f.content.contexts == [] <==> g.content.contexts == []
  {
    NoElements(f.content.contexts);
    NoElements(g.content.contexts);
  }

  lemma {:induction false} AddsUnique(taken: set<string>, names: seq<string>, a: seq<string>, b: seq<string>)
    requires Adds(taken, names, a) && Adds(taken, names, b)
    ensures a == b
    decreases |names|
  {
    if names != [] {
      FreshNameIsUnique(taken, names[0], a[0], b[0]);
      AddsUnique(taken + {a[0]}, names[1..], a[1..], b[1..]);
      assert a == [a[0]] + a[1..] && b == [b[0]] + b[1..];
    }
  }

  lemma ImportUnique(s: State, f: File, g: File, d: DiskFile, build: Builder, t: State, u: State)
    requires Describes(f, d, build) && Describes(g, d, build)
    requires Moves(s, Import(f.content, f.path), t) && Moves(s, Import(g.content, g.path), u)
    ensures t == u
  {
    hide Sorted, Adds, UsableNames;
    SameUsableNames(f, g, d, build);
    if !Rejected(s, f.content, f.path) {
      var a :| Merges(s, f.content, f.path, a, t);
      var b :| Merges(s, g.content, g.path, b, u);
      AddsUnique(s.clusters.Keys, UsableNames(f.content), a, b);
      SortedIsUnique(t.order, u.order);
    }
  }

  lemma {:induction false} LoadsUnique(s: State, files: seq<File>, other: seq<File>, disk: Disk, build: Builder,
                                       t: State, u: State)
    requires DescribesAll(files, disk, build) && DescribesAll(other, disk, build)
    requires Loads(files, s, t) && Loads(other, s, u)
    ensures t == u
    decreases |files|
  {
    hide Describes, Moves;
    if files != [] {
      var m :| Moves(s, Import(files[0].content, files[0].path), m) && Loads(files[1..], m, t);
      var n :| Moves(s, Import(other[0].content, other[0].path), n) && Loads(other[1..], n, u);
      ImportUnique(s, files[0], other[0], disk[0], build, m, n);
      LoadsUnique(m, files[1..], other[1..], disk[1..], build, t, u);
    }
  }

  /** Removing a cluster that no file knows by its name, as a renamed one, has no effect beyond the next restart. */
  lemma RenamedComesBack(disk: Disk, build: Builder, s: State, name: string, t: State)
    requires RestartsAs(disk, build, s) && name in s.clusters && FileWith(disk, name) == |disk|
    requires RestartsAs(Cleaned(disk, name), build, t)
    ensures name in t.clusters && t == s
  {
    hide DescribesAll, Loads;
    var files: seq<File> :| DescribesAll(files, disk, build) && Loads(files, Nothing(), s);
    var other: seq<File> :| DescribesAll(other, disk, build) && Loads(other, Nothing(), t);
    LoadsUnique(Nothing(), files, other, disk, build, s, t);
  }

  // ---- when a removed cluster stays away ----

  /** The name is not a numbered variant of any usable context's name. */
  ghost predicate Original(disk: Disk, build: Builder, name: string) {
    forall i, y, k: nat :: 0 <= i < |disk| && Usable(build, disk[i], y) ==> name != Numbered(y, k)
  }

  ghost predicate DistinctPaths(disk: Disk) {
    forall i, j :: 0 <= i < j < |disk| ==> disk[i].path != disk[j].path
  }

  predicate SomewhereUsable(disk: Disk, build: Builder, name: string) {
    exists i :: 0 <= i < |disk| && Usable(build, disk[i], name)
  }

  lemma {:induction false} AddsName(taken: set<string>, names: seq<string>, added: seq<string>, name: string)
    requires Adds(taken, names, added)
    requires forall y, k: nat :: y in names ==> name != Numbered(y, k)
    ensures name in taken || name in added <==> name in taken || name in names
    decreases |names|
  {
    if names != [] {
      assert added == [added[0]] + added[1..] && names == [names[0]] + names[1..];
      AddsName(taken + {added[0]}, names[1..], added[1..], name);
    }
  }

  lemma ImportAddsName(s: State, f: File, d: DiskFile, build: Builder, name: string, t: State)
    requires Describes(f, d, build) && Moves(s, Import(f.content, f.path), t)
    requires f.path !in s.loadedFiles && forall y, k: nat :: Usable(build, d, y) ==> name != Numbered(y, k)
    ensures name in t.clusters <==> name in s.clusters || Usable(build, d, name)
    ensures t.loadedFiles <= s.loadedFiles + {f.path}
  {
    hide Describes, Adds, UsableNames, Ordered, Numbered;
    forall y
      ensures y in UsableNames(f.content) <==> Usable(build, d, y)
    {
      UsableAsDescribed(f, d, build, y);
    }
    if Rejected(s, f.content, f.path) {
      NothingUsable(s, f, d, build, name);
    } else {
      var added :| Merges(s, f.content, f.path, added, t);
      AddsName(s.clusters.Keys, UsableNames(f.content), added, name);
      assert name in t.clusters <==> name in s.clusters.Keys + Elements(added);
    }
  }

  lemma NothingUsable(s: State, f: File, d: DiskFile, build: Builder, name: string)
    requires Describes(f, d, build) && Rejected(s, f.content, f.path) && f.path !in s.loadedFiles
    ensures !Usable(build, d, name)
  {
  }

  lemma {:induction false} LoadsName(files: seq<File>, disk: Disk, build: Builder, s: State, name: string, t: State)
    requires DescribesAll(files, disk, build) && Loads(files, s, t) && Original(disk, build, name)
    requires DistinctPaths(disk) && forall i :: 0 <= i < |disk| ==> disk[i].path !in s.loadedFiles
    ensures name in t.clusters <==> name in s.clusters || SomewhereUsable(disk, build, name)
    decreases |files|
  {
    hide Moves, Usable, Numbered;
    if files != [] {
      var m :| Moves(s, Import(files[0].content, files[0].path), m) && Loads(files[1..], m, t);
      assert Describes(files[0], disk[0], build);
      ImportAddsName(s, files[0], disk[0], build, name, m);
      forall i | 0 <= i < |disk[1..]|
        ensures Describes(files[1..][i], disk[1..][i], build) && disk[1..][i].path !in m.loadedFiles
      {
        assert disk[1..][i] == disk[i + 1] && files[1..][i] == files[i + 1] && disk[0].path == files[0].path;
      }
      OriginalTail(disk, build, name);
      LoadsName(files[1..], disk[1..], build, m, name, t);
      UsableSplit(disk, build, name);
    }
  }

  lemma OriginalTail(disk: Disk, build: Builder, name: string)
    requires disk != [] && Original(disk, build, name) && DistinctPaths(disk)
    ensures Original(disk[1..], build, name) && DistinctPaths(disk[1..])
  {
    hide Usable, Numbered;
    forall i, y, k: nat | 0 <= i < |disk[1..]| && Usable(build, disk[1..][i], y)
      ensures name != Numbered(y, k)
    {
      assert disk[1..][i] == disk[i + 1];
    }
  }

  lemma UsableSplit(disk: Disk, build: Builder, name: string)
    requires disk != []
    ensures SomewhereUsable(disk, build, name) <==>
      Usable(build, disk[0], name) || SomewhereUsable(disk[1..], build, name)
  {
    hide Usable;
    if SomewhereUsable(disk, build, name) {
      var i :| 0 <= i < |disk| && Usable(build, disk[i], name);
      assert i > 0 ==> disk[1..][i - 1] == disk[i];
    }
    if SomewhereUsable(disk[1..], build, name) {
      var i :| 0 <= i < |disk[1..]| && Usable(build, disk[1..][i], name);
      assert disk[1..][i] == disk[i + 1];
    }
  }

  lemma BehindTheFirst(disk: Disk, build: Builder, name: string, j: nat)
    requires j < |Cleaned(disk, name)| && Usable(build, Cleaned(disk, name)[j], name)
    ensures exists k :: FileWith(disk, name) < k < |disk| && Usable(build, disk[k], name)
  {
    hide FileWith;
    var after := Cleaned(disk, name);
    var k := if |after| < |disk| then j + 1 else j;
    if FileWith(disk, name) <= j {
      assert after[j] == disk[k];
    }
  }

  /** Cleaning takes the context out of the first file that has it and leaves the files behind that one alone. */
  lemma CleanedUsable(disk: Disk, build: Builder, name: string)
    ensures SomewhereUsable(Cleaned(disk, name), build, name) <==>
      exists j :: FileWith(disk, name) < j < |disk| && Usable(build, disk[j], name)
  {
    hide FileWith;
    var i, after := FileWith(disk, name), Cleaned(disk, name);
    if j :| i < j < |disk| && Usable(build, disk[j], name) {
      assert after[if |after| == |disk| then j else j - 1] == disk[j];
    }
    if j :| 0 <= j < |after| && Usable(build, after[j], name) {
      BehindTheFirst(disk, build, name, j);
    }
  }

  lemma CleanedPaths(disk: Disk, name: string)
    requires DistinctPaths(disk)
    ensures DistinctPaths(Cleaned(disk, name))
  {
  }

  /**
   After a cluster has been removed, a restart does without it if and only if no file behind the first one that has a
   context of its name has another usable one; for names that are not variants of other contexts' names.
   */
  lemma StaysRemovedIff(disk: Disk, build: Builder, name: string, t: State)
    requires RestartsAs(Cleaned(disk, name), build, t) && DistinctPaths(disk)
    requires Original(Cleaned(disk, name), build, name)
    ensures name !in t.clusters <==> !exists j :: FileWith(disk, name) < j < |disk| && Usable(build, disk[j], name)
  {
    hide DescribesAll, Loads, Original, Usable, Cleaned, DistinctPaths;
    var files: seq<File> :| DescribesAll(files, Cleaned(disk, name), build) && Loads(files, Nothing(), t);
    CleanedPaths(disk, name);
    LoadsName(files, Cleaned(disk, name), build, Nothing(), name, t);
    CleanedUsable(disk, build, name);
  }

  /** Two files whose only context has one name: the second becomes a cluster `x-2`, which no file knows. */
  lemma {:induction false} SecondIsRenamed(disk: Disk, build: Builder, x: string, s: State)
    requires |disk| == 2 && DistinctPaths(disk) && RestartsAs(disk, build, s)
    requires forall i :: 0 <= i < 2 ==> disk[i].config.contexts.Keys == {x} && build(disk[i].config, x)
    ensures Numbered(x, 2) in s.clusters && FileWith(disk, Numbered(x, 2)) == |disk|
  {
    hide Describes, Moves;
    NumberedIsInjective(x, 2, 2);
    var files: seq<File> :| DescribesAll(files, disk, build) && Loads(files, Nothing(), s);
    assert Describes(files[0], disk[0], build) && Describes(files[1], disk[1], build);
    var m :| Moves(Nothing(), Import(files[0].content, files[0].path), m) && Loads(files[1..], m, s);
    assert files[1..] == [files[1]] && files[1..][1..] == [];
    assert Moves(m, Import(files[1].content, files[1].path), s) by {
      var n :| Moves(m, Import(files[1..][0].content, files[1..][0].path), n) && Loads(files[1..][1..], n, s);
    }
    ImportsOnly(Nothing(), files[0], disk[0], build, x, m);
    ImportsOnly(m, files[1], disk[1], build, x, s);
  }

  lemma ImportsOnly(s: State, f: File, d: DiskFile, build: Builder, x: string, t: State)
    requires Describes(f, d, build) && d.config.contexts.Keys == {x} && build(d.config, x)
    requires d.path !in s.loadedFiles && Moves(s, Import(f.content, f.path), t)
    ensures t.loadedFiles <= s.loadedFiles + {d.path}
    ensures s.clusters == map[] ==> t.clusters.Keys == {x}
    ensures s.clusters.Keys == {x} ==> t.clusters.Keys == {x, Numbered(x, 2)}
  {
    hide UsableNames, Sorted, Numbered;
    OnlyUsable(f, d, build, x);
    var added :| Merges(s, f.content, f.path, added, t);
    OneAdded(s.clusters.Keys, x, added);
    assert Elements(added) == {added[0]};
    if s.clusters.Keys == {x} {
      var i: nat :| 2 <= i && added[0] == Numbered(x, i) && forall j: nat :: 2 <= j < i ==> Numbered(x, j) in {x};
      NumberedIsInjective(x, 2, 2);
      assert i == 2;
    }
  }

  lemma OneAdded(taken: set<string>, x: string, added: seq<string>)
    requires Adds(taken, [x], added)
    ensures |added| == 1 && IsFreshName(taken, x, added[0])
  {
    assert [x][1..] == [];
  }

  lemma OnlyUsable(f: File, d: DiskFile, build: Builder, x: string)
    requires Describes(f, d, build) && d.config.contexts.Keys == {x} && build(d.config, x)
    ensures UsableNames(f.content) == [x] && f.content.contexts != []
  {
    hide Sorted, UsableNames;
    UsableAreSorted(f.content);
    NoElements(f.content.contexts);
    forall y
      ensures y in UsableNames(f.content) <==> y == x
    {
      UsableAsDescribed(f, d, build, y);
    }
    assert Sorted([x]) by { OneIsSorted(x); }
    SortedIsUnique(UsableNames(f.content), [x]);
  }

  lemma OneIsSorted(x: string)
    ensures Sorted([x])
  {
    assert [x][1..] == [] && Sorted([]);
  }
}
