/**
 The client's copy of a resource list (frontend/src/lib/useResourceList.ts): one map of items that several
 sources (namespaces) write to, and for each source the set of uids it contributed.
 */
module Replica {
  import opened Options

  type Uid = string
  type Source = string

  datatype Item = Item(uid: Uid, body: string)

  /** A frame of the delta stream; an object without a uid carries the empty one. `Other` stands for pong frames. */
  datatype Frame = Snapshot(list: seq<Item>) | Add(item: Item) | Update(item: Item) | Delete(uid: Uid) | Other

  datatype Copy = Copy(items: map<Uid, Item>, scoped: map<Source, set<Uid>>)

  // ---- what one frame does to one uid ----

  /** The last item of a list that carries the uid. */
  function Listed(list: seq<Item>, u: Uid): (r: Option<Item>)
    ensures r.Some? ==> r.value in list && r.value.uid == u && u != ""
    ensures r.None? ==> u == "" || forall i :: 0 <= i < |list| ==> list[i].uid != u
  {
    if list == [] || u == "" then None
    else
      var n := |list| - 1;
      if list[n].uid == u then Some(list[n]) else Listed(list[..n], u)
  }

  /** What is known of u after a frame of its source, given what was known before. */
  function After(f: Frame, u: Uid, before: Option<Item>): Option<Item> {
    match f
    case Snapshot(list) => Listed(list, u)
    case Add(item) => if item.uid == u && u != "" then Some(item) else before
    case Update(item) => if item.uid == u && u != "" then Some(item) else before
    case Delete(d) => if d == u && u != "" then None else before
    case Other => before
  }

  function AfterAll(fs: seq<Frame>, u: Uid, before: Option<Item>): Option<Item> {
    if fs == [] then before else After(fs[|fs| - 1], u, AfterAll(fs[..|fs| - 1], u, before))
  }

  lemma {:induction false} AfterAllConcat(a: seq<Frame>, b: seq<Frame>, u: Uid, before: Option<Item>)
    ensures AfterAll(a + b, u, before) == AfterAll(b, u, AfterAll(a, u, before))
  {
    if b == [] {
      assert a + b == a;
    } else {
      var n := |b| - 1;
      assert (a + b)[..|a + b| - 1] == a + b[..n];
      AfterAllConcat(a, b[..n], u, before);
    }
  }

  lemma AfterAllSnoc(fs: seq<Frame>, f: Frame, u: Uid, before: Option<Item>)
    ensures AfterAll(fs + [f], u, before) == After(f, u, AfterAll(fs, u, before))
  {
    assert (fs + [f])[..|fs|] == fs;
  }

  // ---- what one frame does to the copy ----

  function Uids(list: seq<Item>): set<Uid> {
    set i | 0 <= i < |list| && list[i].uid != "" :: list[i].uid
  }

  /** The snapshot's items written over the map, in list order. */
  function Overlay(items: map<Uid, Item>, list: seq<Item>): map<Uid, Item> {
    if list == [] then items
    else
      var n := |list| - 1;
      var m := Overlay(items, list[..n]);
      if list[n].uid == "" then m else m[list[n].uid := list[n]]
  }

  function Scope(r: Copy, source: Source): set<Uid> {
    if source in r.scoped then r.scoped[source] else {}
  }

  function ApplyFrom(r: Copy, source: Source, f: Frame): Copy {
    match f
    case Snapshot(list) =>
      Copy(Overlay(r.items - Scope(r, source), list), r.scoped[source := Uids(list)])
    case Delete(uid) =>
      if uid == "" then r
      else Copy(r.items - {uid}, map s | s in r.scoped :: r.scoped[s] - {uid})
    case Add(item) => Upsert(r, source, item)
    case Update(item) => Upsert(r, source, item)
    case Other => r
  }

  function Upsert(r: Copy, source: Source, item: Item): Copy {
    if item.uid == "" then r
    else Copy(r.items[item.uid := item], r.scoped[source := Scope(r, source) + {item.uid}])
  }

  /** The class whose fields the page code updates in place. */
  class ResourceCollection {
    var items: map<Uid, Item>
    var scopedItems: map<Source, set<Uid>>
    var ready: bool
    var error: Option<string>

    constructor ()
      ensures Contents() == Copy(map[], map[]) && !ready && error.None?
    {
      items, scopedItems, ready, error := map[], map[], false, None;
    }

    function Contents(): Copy
      reads this
    {
      Copy(items, scopedItems)
    }

    method ApplyFrame(source: Source, f: Frame)
      modifies this
      ensures Contents() == ApplyFrom(old(Contents()), source, f)
      ensures if f.Snapshot? then ready && error.None? else ready == old(ready) && error == old(error)
    {
      match f
      case Snapshot(list) =>
        if source in scopedItems {
          Forget(scopedItems[source]);
        } else {
          assert items - {} == items;
        }
        var next := Absorb(list);
        scopedItems := scopedItems[source := next];
        ready, error := true, None;
      case Delete(uid) =>
        if uid != "" {
          items := items - {uid};
          ForgetEverywhere(uid);
        }
      case Add(item) => Put(source, item);
      case Update(item) => Put(source, item);
      case Other =>
    }

    method Forget(previous: set<Uid>)
      modifies this`items
      ensures items == old(items) - previous
    {
      var todo := previous;
      while todo != {}
        invariant todo <= previous && items == old(items) - (previous - todo)
        decreases todo
      {
        var uid :| uid in todo;
        items := items - {uid};
        todo := todo - {uid};
      }
    }

    method Absorb(list: seq<Item>) returns (next: set<Uid>)
      modifies this`items
      ensures items == Overlay(old(items), list) && next == Uids(list)
    {
      next := {};
      for i := 0 to |list|
        invariant items == Overlay(old(items), list[..i]) && next == Uids(list[..i])
      {
        assert list[..i + 1][..i] == list[..i];
        UidsSnoc(list[..i], list[i]);
        assert list[..i + 1] == list[..i] + [list[i]];
        if list[i].uid != "" {
          items := items[list[i].uid := list[i]];
          next := next + {list[i].uid};
        }
      }
      assert list[..|list|] == list;
    }

    method ForgetEverywhere(uid: Uid)
      modifies this`scopedItems
      ensures scopedItems == map s | s in old(scopedItems) :: old(scopedItems)[s] - {uid}
    {
      var todo := scopedItems.Keys;
      while todo != {}
        invariant todo <= scopedItems.Keys && scopedItems.Keys == old(scopedItems).Keys
        invariant forall s :: s in scopedItems ==>
          scopedItems[s] == if s in todo then old(scopedItems)[s] else old(scopedItems)[s] - {uid}
        decreases todo
      {
        var s :| s in todo;
        scopedItems := scopedItems[s := scopedItems[s] - {uid}];
        todo := todo - {s};
      }
    }

    method Put(source: Source, item: Item)
      modifies this`items, this`scopedItems
      ensures Contents() == Upsert(old(Contents()), source, item)
    {
      if item.uid != "" {
        items := items[item.uid := item];
        if source !in scopedItems {
          scopedItems := scopedItems[source := {}];
        }
        scopedItems := scopedItems[source := scopedItems[source] + {item.uid}];
      }
    }

    /** `fail`: the page shows what it has next to the message; no item changes. */
    method Fail(message: string)
      modifies this`ready, this`error
      ensures ready && error == Some(message) && Contents() == old(Contents())
    {
      ready, error := true, Some(message);
    }
  }

  lemma UidsSnoc(list: seq<Item>, item: Item)
    ensures Uids(list + [item]) == Uids(list) + (if item.uid == "" then {} else {item.uid})
  {
    var longer := list + [item];
    forall u | u in Uids(list) + (if item.uid == "" then {} else {item.uid})
      ensures u in Uids(longer)
    {
      if u in Uids(list) {
        var i :| 0 <= i < |list| && list[i].uid != "" && list[i].uid == u;
        assert longer[i] == list[i];
      } else {
        assert longer[|list|] == item;
      }
    }
  }

  // ---- several sources ----

  /** What the copy shows of u on behalf of a source. */
  function Lookup(r: Copy, source: Source, u: Uid): Option<Item> {
    if u in Scope(r, source) && u in r.items then Some(r.items[u]) else None
  }

  /** Which source an object belongs to: a Kubernetes object lives in one namespace. */
  type Owner = Uid -> Source

  /** u is in the scope of its own source exactly when it has an item, and in no other scope. */
  ghost predicate OwnedAt(r: Copy, owner: Owner, s: Source, u: Uid) {
    && (u in Scope(r, s) ==> u != "" && owner(u) == s && u in r.items)
    && (u in r.items ==> u in Scope(r, owner(u)))
  }

  /** The keys of `items` are the disjoint union of the scopes, each holding only uids of its own source. */
  ghost predicate Owned(r: Copy, owner: Owner) {
    forall s, u :: OwnedAt(r, owner, s, u)
  }

  ghost predicate FrameOwned(f: Frame, source: Source, owner: Owner) {
    match f
    case Snapshot(list) => forall i :: 0 <= i < |list| && list[i].uid != "" ==> owner(list[i].uid) == source
    case Add(item) => item.uid != "" ==> owner(item.uid) == source
    case Update(item) => item.uid != "" ==> owner(item.uid) == source
    case Delete(uid) => uid != "" ==> owner(uid) == source
    case Other => true
  }

  lemma {:induction false} OverlayAt(items: map<Uid, Item>, list: seq<Item>, u: Uid)
    ensures u in Overlay(items, list) <==> (Listed(list, u).Some? || u in items)
    ensures Listed(list, u).Some? ==> Overlay(items, list)[u] == Listed(list, u).value
    ensures Listed(list, u).None? && u in items ==> Overlay(items, list)[u] == items[u]
  {
    if list != [] {
      OverlayAt(items, list[..|list| - 1], u);
    }
  }

  lemma UidsListed(list: seq<Item>, u: Uid)
    ensures u in Uids(list) <==> Listed(list, u).Some?
  {
    if Listed(list, u).Some? {
      var i :| 0 <= i < |list| && list[i] == Listed(list, u).value;
      assert list[i].uid in Uids(list);
    }
  }

  lemma DeleteAt(r: Copy, source: Source, uid: Uid, s: Source, u: Uid)
    ensures var q := ApplyFrom(r, source, Delete(uid));
      && (u in q.items <==> u in r.items && (u != uid || uid == ""))
      && (u in Scope(q, s) <==> u in Scope(r, s) && (u != uid || uid == ""))
  {
  }

  lemma SnapshotAt(r: Copy, source: Source, list: seq<Item>, owner: Owner, s: Source, u: Uid)
    requires OwnedAt(r, owner, s, u) && OwnedAt(r, owner, source, u) && FrameOwned(Snapshot(list), source, owner)
    ensures var q := ApplyFrom(r, source, Snapshot(list));
      && Lookup(q, s, u) == (if s == source then Listed(list, u) else Lookup(r, s, u))
      && OwnedAt(q, owner, s, u)
  {
    OverlayAt(r.items - Scope(r, source), list, u);
    UidsListed(list, u);
    if Listed(list, u).Some? {
      ListedOwner(list, source, owner, u);
    }
  }

  lemma ListedOwner(list: seq<Item>, source: Source, owner: Owner, u: Uid)
    requires FrameOwned(Snapshot(list), source, owner) && Listed(list, u).Some?
    ensures owner(u) == source
  {
    var i :| 0 <= i < |list| && list[i] == Listed(list, u).value;
  }

  lemma UpsertAt(r: Copy, source: Source, item: Item, owner: Owner, s: Source, u: Uid)
    requires OwnedAt(r, owner, s, u) && (item.uid != "" ==> owner(item.uid) == source)
    ensures var q := Upsert(r, source, item);
      && Lookup(q, s, u) == (if s == source then After(Add(item), u, Lookup(r, s, u)) else Lookup(r, s, u))
      && OwnedAt(q, owner, s, u)
  {
  }

  /** A frame changes what its own source shows, as `After` says, and nothing else; every item keeps its one place. */
  lemma FrameAt(r: Copy, source: Source, f: Frame, owner: Owner, s: Source, u: Uid)
    requires Owned(r, owner) && FrameOwned(f, source, owner)
    ensures Lookup(ApplyFrom(r, source, f), s, u) ==
      if s == source then After(f, u, Lookup(r, s, u)) else Lookup(r, s, u)
    ensures OwnedAt(ApplyFrom(r, source, f), owner, s, u)
  {
    assert OwnedAt(r, owner, s, u) && OwnedAt(r, owner, source, u) && OwnedAt(r, owner, owner(u), u);
    match f
    case Snapshot(list) => SnapshotAt(r, source, list, owner, s, u);
    case Add(item) => UpsertAt(r, source, item, owner, s, u);
    case Update(item) => UpsertAt(r, source, item, owner, s, u);
    case Delete(uid) =>
      DeleteAt(r, source, uid, s, u);
      DeleteAt(r, source, uid, owner(u), u);
    case Other =>
  }

  lemma FrameKeepsOwned(r: Copy, source: Source, f: Frame, owner: Owner)
    requires Owned(r, owner) && FrameOwned(f, source, owner)
    ensures Owned(ApplyFrom(r, source, f), owner)
  {
    hide OwnedAt, ApplyFrom;
    forall s, u
      ensures OwnedAt(ApplyFrom(r, source, f), owner, s, u)
    {
      FrameAt(r, source, f, owner, s, u);
    }
  }

  // ---- any interleaving ----

  datatype Delivery = Delivery(source: Source, frame: Frame)

  function ApplyRun(r: Copy, run: seq<Delivery>): Copy {
    if run == [] then r
    else
      var n := |run| - 1;
      ApplyFrom(ApplyRun(r, run[..n]), run[n].source, run[n].frame)
  }

  /** The frames of one source, in order. */
  function FramesOf(run: seq<Delivery>, source: Source): seq<Frame> {
    if run == [] then []
    else
      var n := |run| - 1;
      FramesOf(run[..n], source) + (if run[n].source == source then [run[n].frame] else [])
  }

  ghost predicate RunOwned(run: seq<Delivery>, owner: Owner) {
    forall i :: 0 <= i < |run| ==> FrameOwned(run[i].frame, run[i].source, owner)
  }

  lemma {:induction false} RunKeepsOwned(r: Copy, run: seq<Delivery>, owner: Owner)
    requires Owned(r, owner) && RunOwned(run, owner)
    ensures Owned(ApplyRun(r, run), owner)
  {
    if run != [] {
      var n := |run| - 1;
      RunKeepsOwned(r, run[..n], owner);
      FrameKeepsOwned(ApplyRun(r, run[..n]), run[n].source, run[n].frame, owner);
    }
  }

  /** What a source shows depends on the frames of that source alone. */
  lemma {:induction false} SourceDependsOnItself(r: Copy, run: seq<Delivery>, owner: Owner, s: Source, u: Uid)
    requires Owned(r, owner) && RunOwned(run, owner)
    ensures Lookup(ApplyRun(r, run), s, u) == AfterAll(FramesOf(run, s), u, Lookup(r, s, u))
  {
    if run != [] {
      var n := |run| - 1;
      var q := ApplyRun(r, run[..n]);
      SourceDependsOnItself(r, run[..n], owner, s, u);
      RunKeepsOwned(r, run[..n], owner);
      FrameAt(q, run[n].source, run[n].frame, owner, s, u);
      if run[n].source == s {
        AfterAllSnoc(FramesOf(run[..n], s), run[n].frame, u, Lookup(r, s, u));
      } else {
        assert FramesOf(run, s) == FramesOf(run[..n], s);
      }
    }
  }

  lemma OwnedItem(r: Copy, owner: Owner, u: Uid)
    requires Owned(r, owner)
    ensures u in r.items <==> Lookup(r, owner(u), u).Some?
    ensures u in r.items ==> Lookup(r, owner(u), u) == Some(r.items[u])
  {
    assert OwnedAt(r, owner, owner(u), u);
  }

  /** Two interleavings of the same per-source sequences leave the same items. */
  lemma InterleavingConfluence(r: Copy, run1: seq<Delivery>, run2: seq<Delivery>, owner: Owner)
    requires Owned(r, owner) && RunOwned(run1, owner) && RunOwned(run2, owner)
    requires forall s :: FramesOf(run1, s) == FramesOf(run2, s)
    ensures ApplyRun(r, run1).items == ApplyRun(r, run2).items
  {
    var q1, q2 := ApplyRun(r, run1), ApplyRun(r, run2);
    RunKeepsOwned(r, run1, owner);
    RunKeepsOwned(r, run2, owner);
    forall u: Uid
      ensures (u in q1.items <==> u in q2.items) && (u in q1.items ==> q1.items[u] == q2.items[u])
    {
      SourceDependsOnItself(r, run1, owner, owner(u), u);
      SourceDependsOnItself(r, run2, owner, owner(u), u);
      OwnedItem(q1, owner, u);
      OwnedItem(q2, owner, u);
    }
  }

  /** A snapshot makes its source exact, whatever was lost before it. */
  lemma SnapshotHeals(r: Copy, lost: seq<Delivery>, source: Source, list: seq<Item>, owner: Owner, u: Uid)
    requires Owned(r, owner) && RunOwned(lost, owner) && FrameOwned(Snapshot(list), source, owner)
    ensures Lookup(ApplyFrom(ApplyRun(r, lost), source, Snapshot(list)), source, u) == Listed(list, u)
  {
    RunKeepsOwned(r, lost, owner);
    FrameAt(ApplyRun(r, lost), source, Snapshot(list), owner, source, u);
  }
}
