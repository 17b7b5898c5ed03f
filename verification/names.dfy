/** Cluster names: their order (Go's byte order on strings), sorting, and numbered variants of a name. */
module Names {
  import opened Sequences

  predicate Less(a: string, b: string) {
    b != "" && (a == "" || a[0] < b[0] || (a[0] == b[0] && Less(a[1..], b[1..])))
  }

  lemma {:induction false} LessTransitive(a: string, b: string, c: string)
    requires Less(a, b) && Less(b, c)
    ensures Less(a, c)
  {
    if a != "" && a[0] == b[0] && b[0] == c[0] {
      LessTransitive(a[1..], b[1..], c[1..]);
    }
  }

  lemma {:induction false} LessIrreflexive(a: string)
    ensures !Less(a, a)
  {
    if a != "" {
      LessIrreflexive(a[1..]);
    }
  }

  lemma {:induction false} LessTotal(a: string, b: string)
    ensures a == b || Less(a, b) || Less(b, a)
    ensures !(Less(a, b) && Less(b, a)) && !Less(a, a)
  {
    LessIrreflexive(a);
    if a != "" && b != "" {
      LessTotal(a[1..], b[1..]);
      if a[1..] == b[1..] {
        assert a == [a[0]] + a[1..] && b == [b[0]] + b[1..];
      }
    }
  }

  /** Strictly increasing: in order and without repetition. */
  predicate Sorted(s: seq<string>) {
    s == [] || ((forall i :: 1 <= i < |s| ==> Less(s[0], s[i])) && Sorted(s[1..]))
  }

  function InsertName(s: seq<string>, x: string): (r: seq<string>)
    ensures Elements(r) == Elements(s) + {x}
  {
    if s == [] then [x]
    else if Less(x, s[0]) then
      assert Elements([x] + s) == Elements(s) + {x};
      [x] + s
    else
      var r := InsertName(s[1..], x);
      assert s == [s[0]] + s[1..];
      assert Elements([s[0]] + r) == {s[0]} + Elements(r);
      assert Elements(s) == {s[0]} + Elements(s[1..]);
      [s[0]] + r
  }

  /** `sort.Strings`. */
  function SortNames(s: seq<string>): (r: seq<string>)
    ensures Elements(r) == Elements(s)
  {
    if s == [] then []
    else
      assert Elements(s) == Elements(s[..|s| - 1]) + {s[|s| - 1]} by { assert s == s[..|s| - 1] + [s[|s| - 1]]; }
      InsertName(SortNames(s[..|s| - 1]), s[|s| - 1])
  }

  lemma {:induction false} InsertKeepsSorted(s: seq<string>, x: string)
    requires Sorted(s) && x !in s
    ensures Sorted(InsertName(s, x))
  {
    if s != [] {
      var r := InsertName(s, x);
      if Less(x, s[0]) {
        assert r[1..] == s;
        forall i | 1 <= i < |r|
          ensures Less(r[0], r[i])
        {
          if i > 1 {
            LessTransitive(x, s[0], s[i - 1]);
          }
        }
      } else {
        LessTotal(x, s[0]);
        InsertKeepsSorted(s[1..], x);
        assert r[1..] == InsertName(s[1..], x);
        forall i | 1 <= i < |r|
          ensures Less(r[0], r[i])
        {
          assert r[i] in Elements(r[1..]);
          if r[i] != x {
            assert r[i] in Elements(s[1..]);
            var j :| 1 <= j < |s| && s[j] == r[i];
          }
        }
      }
    }
  }

  lemma {:induction false} SortSorts(s: seq<string>)
    requires NoDup(s)
    ensures Sorted(SortNames(s))
  {
    if s != [] {
      var n := |s| - 1;
      SortSorts(s[..n]);
      assert s[n] !in Elements(SortNames(s[..n]));
      InsertKeepsSorted(SortNames(s[..n]), s[n]);
    }
  }

  lemma {:induction false} SortedFirst(s: seq<string>, x: string)
    requires Sorted(s) && x in s
    ensures x == s[0] || Less(s[0], x)
  {
  }

  lemma NoElements(s: seq<string>)
    ensures Elements(s) == {} <==> s == []
  {
    if s != [] {
      assert s[0] in Elements(s);
    }
  }

  /** A sorted list is determined by its elements, so a list that is sorted already stays as it is. */
  lemma {:induction false} SortedIsUnique(a: seq<string>, b: seq<string>)
    requires Sorted(a) && Sorted(b) && Elements(a) == Elements(b)
    ensures a == b
  {
    if a == [] {
      NoElements(b);
    } else {
      NoElements(b);
      assert a[0] in Elements(a) && b[0] in Elements(b);
      SortedFirst(a, b[0]);
      SortedFirst(b, a[0]);
      LessTotal(a[0], b[0]);
      TailElements(a);
      TailElements(b);
      SortedIsUnique(a[1..], b[1..]);
    }
  }

  lemma TailElements(s: seq<string>)
    requires Sorted(s) && s != []
    ensures Elements(s[1..]) == Elements(s) - {s[0]}
  {
    LessTotal(s[0], s[0]);
    assert s == [s[0]] + s[1..];
  }

  lemma {:induction false} SortedNoDup(s: seq<string>)
    requires Sorted(s)
    ensures forall i, j :: 0 <= i < j < |s| ==> s[i] != s[j]
  {
    if s != [] {
      SortedNoDup(s[1..]);
      LessTotal(s[0], s[0]);
      forall i, j | 0 <= i < j < |s|
        ensures s[i] != s[j]
      {
        if i > 0 {
          assert s[1..][i - 1] == s[i] && s[1..][j - 1] == s[j];
        }
      }
    }
  }

  lemma SortedIsNoDup(s: seq<string>)
    requires Sorted(s)
    ensures NoDup(s)
  {
    SortedNoDup(s);
    DistinctIsNoDup(s);
  }

  lemma {:induction false} SortedAt(s: seq<string>, i: nat, j: nat)
    requires Sorted(s) && i < j < |s|
    ensures Less(s[i], s[j])
  {
    if i > 0 {
      SortedAt(s[1..], i - 1, j - 1);
    }
  }

  lemma {:induction false} SortedFromPairs(s: seq<string>)
    requires forall i, j :: 0 <= i < j < |s| ==> Less(s[i], s[j])
    ensures Sorted(s)
  {
    if s != [] {
      SortedFromPairs(s[1..]);
    }
  }

  /** A list without some of its elements. */
  function Filter(names: seq<string>, keep: set<string>): (r: seq<string>)
    ensures forall x :: x in r <==> x in names && x in keep
  {
    if names == [] then []
    else
      var n := |names| - 1;
      Filter(names[..n], keep) + (if names[n] in keep then [names[n]] else [])
  }

  lemma {:induction false} FilterKeepsSorted(names: seq<string>, keep: set<string>)
    requires Sorted(names)
    ensures Sorted(Filter(names, keep))
  {
    if names != [] {
      var n := |names| - 1;
      var r := Filter(names, keep);
      PrefixIsSorted(names, n);
      FilterKeepsSorted(names[..n], keep);
      var front := Filter(names[..n], keep);
      forall i, j | 0 <= i < j < |r|
        ensures Less(r[i], r[j])
      {
        if j < |front| {
          SortedAt(front, i, j);
        } else {
          assert front[i] in names[..n];
          var k :| 0 <= k < n && names[k] == front[i];
          SortedAt(names, k, n);
        }
      }
      SortedFromPairs(r);
    }
  }

  lemma PrefixIsSorted(s: seq<string>, n: nat)
    requires Sorted(s) && n <= |s|
    ensures Sorted(s[..n])
  {
    forall i, j | 0 <= i < j < n
      ensures Less(s[..n][i], s[..n][j])
    {
      SortedAt(s, i, j);
    }
    SortedFromPairs(s[..n]);
  }

  // ---- numbered names ----

  function Digits(n: nat): (r: string)
    ensures r != ""
  {
    if n < 10 then [('0' as int + n) as char] else Digits(n / 10) + [('0' as int + n % 10) as char]
  }

  lemma {:induction false} DigitsAreInjective(a: nat, b: nat)
    requires Digits(a) == Digits(b)
    ensures a == b
    decreases a
  {
    var s, t := Digits(a), Digits(b);
    if a >= 10 && b >= 10 {
      assert s[..|s| - 1] == Digits(a / 10) && t[..|t| - 1] == Digits(b / 10);
      assert s[|s| - 1] == t[|t| - 1];
      DigitsAreInjective(a / 10, b / 10);
    }
  }

  /** The number a decimal numeral stands for. */
  function ValueOf(s: string): int {
    if s == "" then 0 else ValueOf(s[..|s| - 1]) * 10 + (s[|s| - 1] as int - '0' as int)
  }

  /** The numeral of n: decimal digits, without a leading zero. */
  lemma {:induction false} DigitsStandFor(n: nat)
    ensures ValueOf(Digits(n)) == n
    ensures forall i :: 0 <= i < |Digits(n)| ==> '0' <= Digits(n)[i] <= '9'
    ensures n > 0 ==> Digits(n)[0] != '0'
  {
    var s := Digits(n);
    if n >= 10 {
      DigitsStandFor(n / 10);
      assert s[..|s| - 1] == Digits(n / 10);
    } else {
      assert s[..0] == "";
    }
  }

  /** The name tried for the i-th time: `name-2`, `name-3`, … */
  function Numbered(name: string, i: nat): string {
    name + "-" + Digits(i)
  }

  lemma NumberedIsInjective(name: string, i: nat, j: nat)
    ensures Numbered(name, i) == Numbered(name, j) <==> i == j
    ensures Numbered(name, i) != name
  {
    if Numbered(name, i) == Numbered(name, j) {
      assert Digits(i) == Numbered(name, i)[|name| + 1..] && Digits(j) == Numbered(name, j)[|name| + 1..];
      DigitsAreInjective(i, j);
    }
    assert |Numbered(name, i)| > |name|;
  }

  /** The first of `name`, `name-2`, `name-3`, … that is not taken. */
  ghost predicate IsFreshName(taken: set<string>, name: string, chosen: string) {
    && chosen !in taken
    && if name !in taken then chosen == name
       else exists i: nat ::
              2 <= i && chosen == Numbered(name, i) && forall j: nat :: 2 <= j < i ==> Numbered(name, j) in taken
  }

  /** There is only one such name. */
  lemma FreshNameIsUnique(taken: set<string>, name: string, a: string, b: string)
    requires IsFreshName(taken, name, a) && IsFreshName(taken, name, b)
    ensures a == b
  {
    if name in taken {
      var i: nat :| 2 <= i && a == Numbered(name, i) && forall j: nat :: 2 <= j < i ==> Numbered(name, j) in taken;
      var k: nat :| 2 <= k && b == Numbered(name, k) && forall j: nat :: 2 <= j < k ==> Numbered(name, j) in taken;
      assert i < k ==> Numbered(name, i) in taken;
      assert k < i ==> Numbered(name, k) in taken;
    }
  }

  /** The unbounded search ends: every try is a different name, and only finitely many are taken. */
  method FreshName(taken: set<string>, name: string) returns (chosen: string)
    ensures IsFreshName(taken, name, chosen)
  {
    chosen := name;
    var i: nat := 2;
    ghost var tried: set<string> := {};
    while chosen in taken
      invariant i >= 2 && chosen == (if i == 2 then name else Numbered(name, i - 1))
      invariant i > 2 ==> name in taken
      invariant forall j: nat :: 2 <= j < i - 1 ==> Numbered(name, j) in taken
      invariant tried <= taken && |tried| == i - 2
      invariant forall x :: x in tried ==> x == name || exists j: nat :: 2 <= j < i - 1 && x == Numbered(name, j)
      decreases |taken| - |tried|
    {
      NotTriedBefore(name, i, chosen, tried);
      tried := tried + {chosen};
      SubsetSize(tried, taken);
      chosen := Numbered(name, i);
      i := i + 1;
    }
  }

  lemma NotTriedBefore(name: string, i: nat, chosen: string, tried: set<string>)
    requires i >= 2 && chosen == (if i == 2 then name else Numbered(name, i - 1))
    requires forall x :: x in tried ==> x == name || exists j: nat :: 2 <= j < i - 1 && x == Numbered(name, j)
    requires |tried| == i - 2
    ensures chosen !in tried
  {
    if i > 2 && chosen in tried {
      NumberedIsInjective(name, i - 1, i - 1);
      var j: nat :| 2 <= j < i - 1 && chosen == Numbered(name, j);
      NumberedIsInjective(name, i - 1, j);
    }
  }

  lemma {:induction false} SubsetSize(a: set<string>, b: set<string>)
    requires a <= b
    ensures |a| <= |b|
  {
    if a != {} {
      var x :| x in a;
      SubsetSize(a - {x}, b - {x});
    }
  }
}
