/**
 Pinned resources (frontend/src/lib/favourites.ts): one list shared by all clusters, newest first, in which each
 cluster sees its own entries as numbered slots.
 */
module Favourites {
  import opened Options
  import opened Sequences

  const MAX := 64

  datatype Favourite = Favourite(
    cluster: string, group: string, version: string, resource: string, namespace: Option<string>, name: string,
    kind: string, pinnedAt: int)

  function Namespace(f: Favourite): string {
    if f.namespace.Some? then f.namespace.value else ""
  }

  predicate SameRef(a: Favourite, b: Favourite) {
    && a.cluster == b.cluster && a.group == b.group && a.version == b.version && a.resource == b.resource
    && Namespace(a) == Namespace(b) && a.name == b.name
  }

  predicate IsPinned(list: seq<Favourite>, f: Favourite) {
    exists i :: 0 <= i < |list| && SameRef(list[i], f)
  }

  /** `listFor`: what one cluster sees. */
  function ListFor(list: seq<Favourite>, cluster: string): (r: seq<Favourite>)
    ensures |r| <= |list|
    ensures forall i :: 0 <= i < |r| ==> r[i].cluster == cluster && r[i] in list
  {
    if list == [] then []
    else
      var n := |list| - 1;
      ListFor(list[..n], cluster) + (if list[n].cluster == cluster then [list[n]] else [])
  }

  /** `favouriteAt`: slots are numbered from 1. */
  function FavouriteAt(list: seq<Favourite>, cluster: string, slot: int): Option<Favourite> {
    if 1 <= slot <= |ListFor(list, cluster)| then Some(ListFor(list, cluster)[slot - 1]) else None
  }

  lemma {:induction false} ListForConcat(a: seq<Favourite>, b: seq<Favourite>, cluster: string)
    ensures ListFor(a + b, cluster) == ListFor(a, cluster) + ListFor(b, cluster)
  {
    if b == [] {
      assert a + b == a;
    } else {
      var n := |b| - 1;
      assert (a + b)[..|a + b| - 1] == a + b[..n];
      ListForConcat(a, b[..n], cluster);
    }
  }

  lemma ListForOne(x: Favourite, cluster: string)
    ensures ListFor([x], cluster) == if x.cluster == cluster then [x] else []
  {
    assert [x][..0] == [];
  }

  /** What identifies a pinned resource; no namespace is the empty one. */
  datatype Ref = Ref(
    cluster: string, group: string, version: string, resource: string, namespace: string, name: string)

  function RefOf(f: Favourite): Ref {
    match f.namespace
    case Some(ns) => Ref(f.cluster, f.group, f.version, f.resource, ns, f.name)
    case None => Ref(f.cluster, f.group, f.version, f.resource, "", f.name)
  }

  lemma SameRefIff(a: Favourite, b: Favourite)
    ensures SameRef(a, b) <==> RefOf(a) == RefOf(b)
  {
  }

  // ---- where the slots of a cluster are ----

  /** The positions of a cluster's entries in the shared list, ascending. */
  function Slots(list: seq<Favourite>, cluster: string): (r: seq<nat>)
    ensures |r| == |ListFor(list, cluster)|
    ensures forall i :: 0 <= i < |r| ==> r[i] < |list| && list[r[i]].cluster == cluster
  {
    if list == [] then []
    else
      var n := |list| - 1;
      Slots(list[..n], cluster) + (if list[n].cluster == cluster then [n] else [])
  }

  /** Slot k is at the position before which exactly k entries of the cluster stand. */
  lemma {:induction false} SlotPosition(list: seq<Favourite>, cluster: string, k: nat)
    requires k < |Slots(list, cluster)|
    ensures var p := Slots(list, cluster)[k];
      p < |list| && |ListFor(list[..p], cluster)| == k && ListFor(list, cluster)[k] == list[p]
  {
    var n := |list| - 1;
    var front := Slots(list[..n], cluster);
    if k < |front| {
      SlotPosition(list[..n], cluster, k);
      assert list[..n][..front[k]] == list[..front[k]];
    }
  }

  lemma {:induction false} SlotsAscend(list: seq<Favourite>, cluster: string, i: nat, j: nat)
    requires i < j < |Slots(list, cluster)|
    ensures Slots(list, cluster)[i] < Slots(list, cluster)[j]
  {
    var n := |list| - 1;
    if j < |Slots(list[..n], cluster)| {
      SlotsAscend(list[..n], cluster, i, j);
    }
  }

  lemma {:induction false} ListForIsKept(list: seq<Favourite>, cluster: string, keep: Favourite -> bool)
    requires forall x :: keep(x) <==> x.cluster == cluster
    ensures ListFor(list, cluster) == Kept(list, keep)
  {
    if list != [] {
      ListForIsKept(list[..|list| - 1], cluster, keep);
    }
  }

  /** Slot k is the k-th entry of the list that belongs to the cluster. */
  lemma SlotsOfCluster(list: seq<Favourite>, cluster: string) returns (picks: seq<nat>)
    ensures Picks(list, (x: Favourite) => x.cluster == cluster, picks)
    ensures forall slot: int :: FavouriteAt(list, cluster, slot).Some? <==> 1 <= slot <= |picks|
    ensures forall slot: int :: 1 <= slot <= |picks| ==>
      picks[slot - 1] < |list| && FavouriteAt(list, cluster, slot) == Some(list[picks[slot - 1]])
  {
    hide Picks, ListFor, Kept;
    ListForIsKept(list, cluster, (x: Favourite) => x.cluster == cluster);
    picks := KeptAt(list, (x: Favourite) => x.cluster == cluster);
  }

  // ---- moving one element ----

  /** The list without its element at i. */
  function RemoveAt<T>(s: seq<T>, i: nat): seq<T>
    requires i < |s|
  {
    s[..i] + s[i + 1..]
  }

  /** The element at `from` taken out and put immediately before the element that was at `to`. */
  function MoveBefore<T>(s: seq<T>, from: nat, to: nat): seq<T>
    requires from < |s| && to < |s| && from != to
  {
    if from < to then s[..from] + s[from + 1..to] + [s[from]] + s[to..]
    else s[..to] + [s[from]] + s[to..from] + s[from + 1..]
  }

  lemma CutThree<T>(s: seq<T>, i: nat, j: nat)
    requires i < j < |s|
    ensures s == s[..i] + [s[i]] + s[i + 1..j] + s[j..]
  {
  }

  lemma CutThreeUp<T>(s: seq<T>, i: nat, j: nat)
    requires i < j < |s|
    ensures s == s[..i] + s[i..j] + [s[j]] + s[j + 1..]
  {
  }

  /** Taking x out of one place and putting it into another permutes, and the rest stays in order. */
  lemma Relocated<T>(before: seq<T>, x: T, middle: seq<T>, after: seq<T>)
    ensures multiset(before + [x] + middle + after) == multiset(before + middle + [x] + after)
    ensures RemoveAt(before + [x] + middle + after, |before|) == before + middle + after
    ensures RemoveAt(before + middle + [x] + after, |before| + |middle|) == before + middle + after
  {
    var s, t := before + [x] + middle + after, before + middle + [x] + after;
    assert s[..|before|] == before && s[|before| + 1..] == middle + after;
    assert t[..|before| + |middle|] == before + middle && t[|before| + |middle| + 1..] == after;
  }

  /** Moving permutes, and keeps every other element in order. */
  lemma MoveBeforeFacts<T>(s: seq<T>, from: nat, to: nat)
    requires from < |s| && to < |s| && from != to
    ensures var r := MoveBefore(s, from, to);
      var at := if from < to then to - 1 else to;
      && |r| == |s| && multiset(r) == multiset(s)
      && r[at] == s[from] && r[at + 1] == s[to]
      && RemoveAt(r, at) == RemoveAt(s, from)
  {
    hide RemoveAt;
    if from < to {
      CutThree(s, from, to);
      Relocated(s[..from], s[from], s[from + 1..to], s[to..]);
    } else {
      CutThreeUp(s, to, from);
      Relocated(s[..to], s[from], s[to..from], s[from + 1..]);
    }
  }

  /** `reorder` on the shared list; out-of-range slots and a move onto itself change nothing. */
  function Reorder(list: seq<Favourite>, cluster: string, from: int, to: int): seq<Favourite> {
    var slots := Slots(list, cluster);
    if from < 0 || to < 0 || from >= |slots| || to >= |slots| || from == to then list
    else
      SlotsDiffer(list, cluster, from, to);
      MoveBefore(list, slots[from], slots[to])
  }

  lemma SlotsDiffer(list: seq<Favourite>, cluster: string, i: nat, j: nat)
    requires i < |Slots(list, cluster)| && j < |Slots(list, cluster)| && i != j
    ensures Slots(list, cluster)[i] != Slots(list, cluster)[j]
    ensures Slots(list, cluster)[i] < Slots(list, cluster)[j] <==> i < j
  {
    if i < j {
      SlotsAscend(list, cluster, i, j);
    } else {
      SlotsAscend(list, cluster, j, i);
    }
  }

  lemma ListForParts(a: seq<Favourite>, b: seq<Favourite>, c: seq<Favourite>, d: seq<Favourite>, cluster: string)
    ensures ListFor(a + b + c + d, cluster) ==
      ListFor(a, cluster) + ListFor(b, cluster) + ListFor(c, cluster) + ListFor(d, cluster)
  {
    ListForConcat(a + b + c, d, cluster);
    ListForConcat(a + b, c, cluster);
    ListForConcat(a, b, cluster);
  }

  /** A cluster that does not own x sees no difference in where x stands. */
  lemma ForeignEntry(before: seq<Favourite>, x: Favourite, middle: seq<Favourite>, after: seq<Favourite>, other: string)
    requires x.cluster != other
    ensures ListFor(before + [x] + middle + after, other) == ListFor(before + middle + [x] + after, other)
  {
    hide ListFor;
    ListForOne(x, other);
    ListForParts(before, [x], middle, after, other);
    ListForParts(before, middle, [x], after, other);
    assert ListFor(before, other) + [] == ListFor(before, other);
    assert ListFor(before, other) + ListFor(middle, other) + [] == ListFor(before, other) + ListFor(middle, other);
  }

  /** The other clusters' entries keep their order. */
  lemma OthersUnmoved(list: seq<Favourite>, p: nat, q: nat, other: string)
    requires p < |list| && q < |list| && p != q && list[p].cluster != other
    ensures ListFor(MoveBefore(list, p, q), other) == ListFor(list, other)
  {
    hide ListFor;
    if p < q {
      CutThree(list, p, q);
      ForeignEntry(list[..p], list[p], list[p + 1..q], list[q..], other);
    } else {
      CutThreeUp(list, q, p);
      ForeignEntry(list[..q], list[p], list[q..p], list[p + 1..], other);
    }
  }

  /** The slots of a cluster cut where one of its entries stands. */
  lemma CutSlots(before: seq<Favourite>, x: Favourite, after: seq<Favourite>, cluster: string)
    requires x.cluster == cluster
    ensures var k, all := |ListFor(before, cluster)|, ListFor(before + [x] + after, cluster);
      k < |all| && all[..k] == ListFor(before, cluster) && all[k + 1..] == ListFor(after, cluster)
  {
    hide ListFor;
    ListForOne(x, cluster);
    ListForConcat(before + [x], after, cluster);
    ListForConcat(before, [x], cluster);
    var a, b := ListFor(before, cluster), ListFor(after, cluster);
    assert (a + [x] + b)[..|a|] == a && (a + [x] + b)[|a| + 1..] == b;
  }

  lemma CutAt(list: seq<Favourite>, cluster: string, k: nat)
    requires k < |Slots(list, cluster)|
    ensures var p, all := Slots(list, cluster)[k], ListFor(list, cluster);
      && ListFor(list[..p], cluster) == all[..k] && ListFor(list[p + 1..], cluster) == all[k + 1..] && all[k] == list[p]
  {
    hide ListFor;
    var p := Slots(list, cluster)[k];
    SlotPosition(list, cluster, k);
    CutSlots(list[..p], list[p], list[p + 1..], cluster);
    assert list == list[..p] + [list[p]] + list[p + 1..];
  }

  /** What stands between two slots. */
  lemma CutBetween(list: seq<Favourite>, cluster: string, i: nat, j: nat)
    requires i < j < |Slots(list, cluster)|
    ensures var p, q := Slots(list, cluster)[i], Slots(list, cluster)[j];
      p < q && ListFor(list[p + 1..q], cluster) == ListFor(list, cluster)[i + 1..j]
  {
    hide ListFor, Slots;
    var p, q := Slots(list, cluster)[i], Slots(list, cluster)[j];
    SlotsAscend(list, cluster, i, j);
    CutAt(list, cluster, i);
    CutAt(list, cluster, j);
    CutSlots(list[..p], list[p], list[p + 1..q], cluster);
    assert list[..q] == list[..p] + [list[p]] + list[p + 1..q];
    var all := ListFor(list, cluster);
    assert all[..j][i + 1..] == all[i + 1..j];
  }

  lemma MovedDown(before: seq<Favourite>, x: Favourite, middle: seq<Favourite>,
                  y: Favourite, after: seq<Favourite>, cluster: string)
    requires x.cluster == cluster && y.cluster == cluster
    ensures ListFor(before + middle + [x] + ([y] + after), cluster) ==
      ListFor(before, cluster) + ListFor(middle, cluster) + [x] + ([y] + ListFor(after, cluster))
  {
    hide ListFor;
    ListForParts(before, middle, [x], [y] + after, cluster);
    ListForConcat([y], after, cluster);
    ListForOne(x, cluster);
    ListForOne(y, cluster);
  }

  lemma MovedUp(before: seq<Favourite>, x: Favourite, y: Favourite,
                middle: seq<Favourite>, after: seq<Favourite>, cluster: string)
    requires x.cluster == cluster && y.cluster == cluster
    ensures ListFor(before + [x] + ([y] + middle) + after, cluster) ==
      ListFor(before, cluster) + [x] + ([y] + ListFor(middle, cluster)) + ListFor(after, cluster)
  {
    hide ListFor;
    ListForParts(before, [x], [y] + middle, after, cluster);
    ListForConcat([y], middle, cluster);
    ListForOne(x, cluster);
    ListForOne(y, cluster);
  }

  lemma HeadTail<T>(s: seq<T>, i: nat, j: nat)
    requires i < j <= |s|
    ensures s[i..j] == [s[i]] + s[i + 1..j]
    ensures s[i..] == [s[i]] + s[i + 1..]
  {
  }

  lemma OwnSlotsMoveDown(list: seq<Favourite>, cluster: string, from: nat, to: nat)
    requires from < to < |Slots(list, cluster)|
    ensures ListFor(Reorder(list, cluster, from, to), cluster) == MoveBefore(ListFor(list, cluster), from, to)
  {
    hide ListFor, Slots;
    var p, q, all := Slots(list, cluster)[from], Slots(list, cluster)[to], ListFor(list, cluster);
    CutAt(list, cluster, from);
    CutAt(list, cluster, to);
    CutBetween(list, cluster, from, to);
    MovedDown(list[..p], list[p], list[p + 1..q], list[q], list[q + 1..], cluster);
    HeadTail(list, q, |list|);
    HeadTail(all, to, |all|);
    assert p < q;
    assert Reorder(list, cluster, from, to) == list[..p] + list[p + 1..q] + [list[p]] + ([list[q]] + list[q + 1..]);
  }

  lemma OwnSlotsMoveUp(list: seq<Favourite>, cluster: string, from: nat, to: nat)
    requires to < from < |Slots(list, cluster)|
    ensures ListFor(Reorder(list, cluster, from, to), cluster) == MoveBefore(ListFor(list, cluster), from, to)
  {
    hide ListFor, Slots;
    var p, q, all := Slots(list, cluster)[from], Slots(list, cluster)[to], ListFor(list, cluster);
    CutAt(list, cluster, from);
    CutAt(list, cluster, to);
    CutBetween(list, cluster, to, from);
    MovedUp(list[..q], list[p], list[q], list[q + 1..p], list[p + 1..], cluster);
    HeadTail(list, q, p);
    HeadTail(all, to, from);
  }

  /** The moved cluster sees its slot list with one entry moved before another. */
  lemma OwnSlotsMove(list: seq<Favourite>, cluster: string, from: nat, to: nat)
    requires from < |Slots(list, cluster)| && to < |Slots(list, cluster)| && from != to
    ensures ListFor(Reorder(list, cluster, from, to), cluster) == MoveBefore(ListFor(list, cluster), from, to)
  {
    if from < to {
      OwnSlotsMoveDown(list, cluster, from, to);
    } else {
      OwnSlotsMoveUp(list, cluster, from, to);
    }
  }

  /**
   Reordering one cluster's slots permutes the shared list, leaves what every other cluster sees as it was, and moves
   the entry of slot `from` immediately before the entry that held slot `to`, keeping all others in order.
   */
  lemma ReorderMovesBefore(list: seq<Favourite>, cluster: string, from: nat, to: nat, other: string)
    requires from < |ListFor(list, cluster)| && to < |ListFor(list, cluster)| && from != to && other != cluster
    ensures multiset(Reorder(list, cluster, from, to)) == multiset(list)
    ensures ListFor(Reorder(list, cluster, from, to), other) == ListFor(list, other)
    ensures ListFor(Reorder(list, cluster, from, to), cluster) == MoveBefore(ListFor(list, cluster), from, to)
  {
    var p, q := Slots(list, cluster)[from], Slots(list, cluster)[to];
    SlotsDiffer(list, cluster, from, to);
    MoveBeforeFacts(list, p, q);
    OthersUnmoved(list, p, q, other);
    OwnSlotsMove(list, cluster, from, to);
  }

  /** The entry lands in slot `to` for an upward move, and one slot short of it for a downward move. */
  lemma LandingSlot(list: seq<Favourite>, cluster: string, from: nat, to: nat)
    requires from < |ListFor(list, cluster)| && to < |ListFor(list, cluster)| && from != to
    ensures var slot := if from < to then to - 1 else to;
      FavouriteAt(Reorder(list, cluster, from, to), cluster, slot + 1) == FavouriteAt(list, cluster, from + 1)
  {
    OwnSlotsMove(list, cluster, from, to);
    MoveBeforeFacts(ListFor(list, cluster), from, to);
  }

  /** With distinct entries, the entry is found in slot `to` exactly when the move was not downward. */
  lemma LandsAtTargetIff(list: seq<Favourite>, cluster: string, from: nat, to: nat)
    requires from < |ListFor(list, cluster)| && to < |ListFor(list, cluster)|
    requires forall i, j :: 0 <= i < j < |ListFor(list, cluster)| ==>
      ListFor(list, cluster)[i] != ListFor(list, cluster)[j]
    ensures FavouriteAt(Reorder(list, cluster, from, to), cluster, to + 1) == FavouriteAt(list, cluster, from + 1)
      <==> to <= from
  {
    if from != to {
      OwnSlotsMove(list, cluster, from, to);
      MoveBeforeFacts(ListFor(list, cluster), from, to);
      var slots := ListFor(list, cluster);
      if from < to {
        assert MoveBefore(slots, from, to)[to] == slots[to];
      }
    }
  }

  // ---- pinning ----

  function Unpinned(list: seq<Favourite>, f: Favourite): (r: seq<Favourite>)
    ensures |r| <= |list|
  {
    if list == [] then []
    else
      var n := |list| - 1;
      Unpinned(list[..n], f) + (if SameRef(list[n], f) then [] else [list[n]])
  }

  function Pinned(list: seq<Favourite>, f: Favourite): seq<Favourite> {
    if IsPinned(list, f) then list
    else if |list| + 1 > MAX then ([f] + list)[..MAX] else [f] + list
  }

  function Toggled(list: seq<Favourite>, f: Favourite): seq<Favourite> {
    if IsPinned(list, f) then Unpinned(list, f) else Pinned(list, f)
  }

  lemma {:induction false} UnpinnedIsKept(list: seq<Favourite>, f: Favourite, keep: Favourite -> bool)
    requires forall x :: keep(x) <==> RefOf(x) != RefOf(f)
    ensures Unpinned(list, f) == Kept(list, keep)
  {
    hide SameRef, RefOf;
    if list != [] {
      var n := |list| - 1;
      UnpinnedIsKept(list[..n], f, keep);
      SameRefIff(list[n], f);
    }
  }

  /** Pinning puts a new reference first and cuts the list to 64 entries; one the list has is left alone. */
  lemma PinsFirst(list: seq<Favourite>, f: Favourite)
    ensures (exists i :: 0 <= i < |list| && RefOf(list[i]) == RefOf(f)) ==> Pinned(list, f) == list
    ensures (forall i :: 0 <= i < |list| ==> RefOf(list[i]) != RefOf(f)) ==>
      Pinned(list, f) <= [f] + list && |Pinned(list, f)| == if |list| < 64 then |list| + 1 else 64
  {
    hide SameRef, RefOf;
    forall i | 0 <= i < |list|
      ensures SameRef(list[i], f) <==> RefOf(list[i]) == RefOf(f)
    {
      SameRefIff(list[i], f);
    }
  }

  lemma {:induction false} UnpinAbsent(list: seq<Favourite>, f: Favourite)
    requires !IsPinned(list, f)
    ensures Unpinned(list, f) == list
  {
    if list != [] {
      var n := |list| - 1;
      assert !IsPinned(list[..n], f) by {
        assert forall i :: 0 <= i < n ==> list[..n][i] == list[i];
      }
      UnpinAbsent(list[..n], f);
    }
  }

  lemma {:induction false} UnpinConcat(a: seq<Favourite>, b: seq<Favourite>, f: Favourite)
    ensures Unpinned(a + b, f) == Unpinned(a, f) + Unpinned(b, f)
  {
    if b == [] {
      assert a + b == a;
    } else {
      var n := |b| - 1;
      assert (a + b)[..|a + b| - 1] == a + b[..n];
      UnpinConcat(a, b[..n], f);
    }
  }

  lemma UnpinFirst(list: seq<Favourite>, f: Favourite)
    requires !IsPinned(list, f)
    ensures Unpinned([f] + list, f) == list
  {
    UnpinConcat([f], list, f);
    assert [f][..0] == [];
    UnpinAbsent(list, f);
  }

  /** Toggling a new favourite on and off again gives the list back exactly when the list was not full. */
  lemma ToggleTwiceIff(list: seq<Favourite>, f: Favourite)
    requires |list| <= 64 && !IsPinned(list, f)
    ensures Toggled(Toggled(list, f), f) == list <==> |list| < 64
  {
    var once := Toggled(list, f);
    var rest := if |list| < MAX then list else list[..MAX - 1];
    assert once == [f] + rest;
    assert SameRef(once[0], f);
    assert !IsPinned(rest, f) by {
      assert forall i :: 0 <= i < |rest| ==> rest[i] == list[i];
    }
    UnpinFirst(rest, f);
  }

  function Slot(i: int): Favourite {
    Favourite("c", "", "v1", "pods", None, seq(if i < 0 then 0 else i, _ => 'x'), "Pod", 0)
  }

  /** Such a list: with 64 different entries, pinning and unpinning another one loses the last of them. */
  lemma FullListLosesOne()
    ensures var list, f := seq(MAX, i => Slot(i)), Slot(MAX);
      && (forall i, j :: 0 <= i < j < MAX ==> !SameRef(list[i], list[j]))
      && !IsPinned(list, f) && Toggled(Toggled(list, f), f) != list
  {
    var list, f := seq(MAX, i => Slot(i)), Slot(MAX);
    forall i, j | 0 <= i < j <= MAX
      ensures !SameRef(Slot(i), Slot(j))
    {
      assert |Slot(i).name| == i && |Slot(j).name| == j;
    }
    ToggleTwiceIff(list, f);
  }

  // ---- the store ----

  class FavouriteStore {
    var cache: seq<Favourite>

    /** The stored list, cut to the limit. */
    constructor (stored: seq<Favourite>)
      ensures cache == stored[..if |stored| <= MAX then |stored| else MAX]
    {
      cache := stored[..if |stored| <= MAX then |stored| else MAX];
    }

    /** A reference the list does not have goes first. */
    method Add(f: Favourite)
      modifies this
      ensures cache == Pinned(old(cache), f)
      ensures (exists i :: 0 <= i < |old(cache)| && RefOf(old(cache)[i]) == RefOf(f)) ==> cache == old(cache)
      ensures (forall i :: 0 <= i < |old(cache)| ==> RefOf(old(cache)[i]) != RefOf(f)) ==>
        cache <= [f] + old(cache) && |cache| == if |old(cache)| < 64 then |old(cache)| + 1 else 64
    {
      PinsFirst(cache, f);
      for i := 0 to |cache|
        modifies {}
        invariant forall k :: 0 <= k < i ==> !SameRef(cache[k], f)
      {
        if SameRef(cache[i], f) {
          return;
        }
      }
      var next := [f] + cache;
      if |next| > MAX {
        next := next[..MAX];
      }
      cache := next;
    }

    /** Every entry with the reference goes. */
    method Remove(f: Favourite)
      modifies this
      ensures cache == Unpinned(old(cache), f)
      ensures cache == Kept(old(cache), x => RefOf(x) != RefOf(f))
    {
      UnpinnedIsKept(cache, f, x => RefOf(x) != RefOf(f));
      var next := [];
      for i := 0 to |cache|
        modifies {}
        invariant next == Unpinned(cache[..i], f)
      {
        assert cache[..i + 1][..i] == cache[..i];
        if !SameRef(cache[i], f) {
          next := next + [cache[i]];
        }
      }
      assert cache[..|cache|] == cache;
      cache := next;
    }

    /** `reorder`: finds the two positions, takes the entry out and splices it in again. */
    method Move(cluster: string, from: int, to: int)
      modifies this
      ensures cache == Reorder(old(cache), cluster, from, to)
      ensures from == to || !(0 <= from < |ListFor(old(cache), cluster)| && 0 <= to < |ListFor(old(cache), cluster)|)
              ==> cache == old(cache)
    {
      var slots := Positions(cluster);
      if from < 0 || to < 0 || from >= |slots| || to >= |slots| {
        return;
      }
      if from == to {
        return;
      }
      SlotsDiffer(cache, cluster, from, to);
      var movedIdx, targetIdx := slots[from], slots[to];
      var moved := cache[movedIdx];
      var next := cache[..movedIdx] + cache[movedIdx + 1..];
      var insertAt := if targetIdx > movedIdx then targetIdx - 1 else targetIdx;
      Spliced(cache, movedIdx, targetIdx);
      cache := next[..insertAt] + [moved] + next[insertAt..];
    }

    method Positions(cluster: string) returns (slots: seq<nat>)
      ensures slots == Slots(cache, cluster)
    {
      slots := [];
      for i := 0 to |cache|
        invariant slots == Slots(cache[..i], cluster)
      {
        assert cache[..i + 1][..i] == cache[..i];
        if cache[i].cluster == cluster {
          slots := slots + [i];
        }
      }
      assert cache[..|cache|] == cache;
    }
  }

  /** Two splices amount to one move. */
  lemma Spliced(s: seq<Favourite>, p: nat, q: nat)
    requires p < |s| && q < |s| && p != q
    ensures var next := RemoveAt(s, p);
      var at := if q > p then q - 1 else q;
      next[..at] + [s[p]] + next[at..] == MoveBefore(s, p, q)
  {
    var next := RemoveAt(s, p);
    if p < q {
      assert next[..q - 1] == s[..p] + s[p + 1..q] && next[q - 1..] == s[q..];
    } else {
      assert next[..q] == s[..q] && next[q..] == s[q..p] + s[p + 1..];
    }
  }
}
