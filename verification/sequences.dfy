/** Facts about sequences that several components share. */
module Sequences {

  /** No element occurs twice. */
  predicate NoDup<T(==)>(s: seq<T>) {
    s == [] || (s[|s| - 1] !in s[..|s| - 1] && NoDup(s[..|s| - 1]))
  }

  lemma {:induction false} NoDupAt<T>(s: seq<T>, i: nat, j: nat)
    requires NoDup(s) && i < j < |s|
    ensures s[i] != s[j]
  {
    var init := s[..|s| - 1];
    if j < |s| - 1 {
      NoDupAt(init, i, j);
    } else {
      assert init[i] == s[i];
    }
  }

  lemma {:induction false} DistinctIsNoDup<T>(s: seq<T>)
    requires forall i, j :: 0 <= i < j < |s| ==> s[i] != s[j]
    ensures NoDup(s)
  {
    if s != [] {
      DistinctIsNoDup(s[..|s| - 1]);
    }
  }

  lemma {:induction false} NoDupDrop<T>(s: seq<T>, k: nat)
    requires NoDup(s) && k <= |s|
    ensures NoDup(s[k..])
  {
    if k < |s| {
      var init := s[..|s| - 1];
      NoDupDrop(init, k);
      assert s[k..][..|s[k..]| - 1] == init[k..];
    }
  }

  lemma NoDupSnoc<T>(s: seq<T>, x: T)
    requires NoDup(s) && x !in s
    ensures NoDup(s + [x])
  {
    assert (s + [x])[..|s|] == s;
  }

  ghost predicate IsSuffix<T>(a: seq<T>, b: seq<T>) {
    |a| <= |b| && a == b[|b| - |a|..]
  }

  /** The last n elements, or all of them when there are fewer. */
  function LastN<T>(s: seq<T>, n: nat): (r: seq<T>)
    ensures |r| == if |s| <= n then |s| else n
  {
    if |s| <= n then s else s[|s| - n..]
  }

  lemma LastNIsSuffix<T>(s: seq<T>, n: nat)
    ensures IsSuffix(LastN(s, n), s)
  {
  }

  function Elements<T>(s: seq<T>): set<T> {
    set x | x in s
  }

  lemma SuffixTransitive<T>(a: seq<T>, b: seq<T>, c: seq<T>)
    requires IsSuffix(a, b) && IsSuffix(b, c)
    ensures IsSuffix(a, c)
  {
    assert c[|c| - |a|..] == c[|c| - |b|..][|b| - |a|..];
  }

  lemma SliceSnoc<T>(s: seq<T>, lo: nat, hi: nat)
    requires lo <= hi < |s|
    ensures s[lo..hi + 1] == s[lo..hi] + [s[hi]]
  {
  }

  /** Two suffixes of one sequence are ordered by length. */
  lemma ShorterSuffix<T>(a: seq<T>, b: seq<T>, c: seq<T>)
    requires IsSuffix(a, c) && IsSuffix(b, c) && |a| <= |b|
    ensures IsSuffix(a, b)
  {
    assert c[|c| - |a|..] == c[|c| - |b|..][|b| - |a|..];
  }

  /** A suffix of `a + [x]` is empty or is a suffix of `a` followed by x. */
  lemma SuffixSnoc<T>(a: seq<T>, b: seq<T>, x: T)
    requires IsSuffix(a, b)
    ensures IsSuffix(a + [x], b + [x])
  {
    assert (b + [x])[|b| - |a|..] == b[|b| - |a|..] + [x];
  }

  /** The elements that are kept, in order. */
  ghost function Kept<T(!new)>(s: seq<T>, keep: T -> bool): (r: seq<T>)
    ensures |r| <= |s|
    ensures forall x :: x in r <==> x in s && keep(x)
  {
    if s == [] then []
    else
      var n := |s| - 1;
      assert s == s[..n] + [s[n]];
      Kept(s[..n], keep) + (if keep(s[n]) then [s[n]] else [])
  }

  /** The positions of the kept elements, ascending. */
  ghost predicate Picks<T(!new)>(s: seq<T>, keep: T -> bool, picks: seq<nat>) {
    && (forall i, j :: 0 <= i < j < |picks| ==> picks[i] < picks[j])
    && (forall k: nat :: k in picks <==> k < |s| && keep(s[k]))
  }

  lemma PicksSnoc<T(!new)>(s: seq<T>, keep: T -> bool, front: seq<nat>)
    requires s != [] && Picks(s[..|s| - 1], keep, front)
    ensures Picks(s, keep, if keep(s[|s| - 1]) then front + [|s| - 1] else front)
  {
    var n := |s| - 1;
    var picks := if keep(s[n]) then front + [n] else front;
    forall i | 0 <= i < |front|
      ensures front[i] < n
    {
      var k := front[i];
      assert k in front;
    }
    forall k: nat
      ensures k in picks <==> k < |s| && keep(s[k])
    {
      assert k < n ==> s[..n][k] == s[k];
      assert k in picks <==> k in front || (keep(s[n]) && k == n);
    }
  }

  /** What is kept is what stands at these positions. */
  lemma {:induction false} KeptAt<T(!new)>(s: seq<T>, keep: T -> bool) returns (picks: seq<nat>)
    ensures Picks(s, keep, picks) && |Kept(s, keep)| == |picks|
    ensures forall i :: 0 <= i < |picks| ==> picks[i] < |s| && Kept(s, keep)[i] == s[picks[i]]
  {
    hide Picks;
    if s == [] {
      picks := [];
      assert Picks(s, keep, []) by { NothingPicked(s, keep); }
    } else {
      var n := |s| - 1;
      var front := KeptAt(s[..n], keep);
      PicksSnoc(s, keep, front);
      picks := if keep(s[n]) then front + [n] else front;
    }
  }

  lemma NothingPicked<T(!new)>(s: seq<T>, keep: T -> bool)
    requires s == []
    ensures Picks(s, keep, [])
  {
  }
}
