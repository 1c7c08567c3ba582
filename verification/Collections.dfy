/** Iterator adaptors over sequences, with what they contain. */
module Collections {

  function Filter<T(!new)>(s: seq<T>, keep: T -> bool): (r: seq<T>)
    ensures forall x :: x in r <==> x in s && keep(x)
    ensures |r| <= |s|
  {
    if s == [] then []
    else
      assert s == s[..|s| - 1] + [s[|s| - 1]];
      Filter(s[..|s| - 1], keep) + if keep(s[|s| - 1]) then [s[|s| - 1]] else []
  }

  function Map<T, R>(s: seq<T>, f: T -> R): (r: seq<R>)
    ensures |r| == |s| && forall i :: 0 <= i < |s| ==> r[i] == f(s[i])
  {
    seq(|s|, i requires 0 <= i < |s| => f(s[i]))
  }

  function FlatMap<T, R>(s: seq<T>, f: T -> seq<R>): seq<R> {
    if s == [] then [] else FlatMap(s[..|s| - 1], f) + f(s[|s| - 1])
  }

  lemma {:induction false} FlatMapContains<T, R>(s: seq<T>, f: T -> seq<R>, y: R)
    ensures y in FlatMap(s, f) <==> exists x :: x in s && y in f(x)
  {
    if s != [] {
      var m := |s| - 1;
      assert s == s[..m] + [s[m]];
      FlatMapContains(s[..m], f, y);
    }
  }

  lemma {:induction false} FlatMapEmpty<T, R>(s: seq<T>, f: T -> seq<R>)
    requires forall x :: x in s ==> f(x) == []
    ensures FlatMap(s, f) == []
  {
    if s != [] {
      FlatMapEmpty(s[..|s| - 1], f);
    }
  }

  lemma FlatMapOfFive<T, R>(s: seq<T>, f: T -> seq<R>)
    requires |s| == 5
    ensures FlatMap(s, f) == f(s[0]) + f(s[1]) + f(s[2]) + f(s[3]) + f(s[4])
  {
    assert s[..4][..3] == s[..3] && s[..3][..2] == s[..2] && s[..2][..1] == s[..1];
    assert FlatMap(s[..1], f) == f(s[0]);
    assert FlatMap(s[..2], f) == FlatMap(s[..1], f) + f(s[1]);
    assert FlatMap(s[..3], f) == FlatMap(s[..2], f) + f(s[2]);
    assert FlatMap(s[..4], f) == FlatMap(s[..3], f) + f(s[3]);
  }

  lemma MapSnoc<T, R>(s: seq<T>, x: T, f: T -> R)
    ensures Map(s + [x], f) == Map(s, f) + [f(x)]
  {
  }

  lemma MapContains<T, R>(s: seq<T>, f: T -> R)
    ensures forall x :: x in s ==> f(x) in Map(s, f)
    ensures forall y :: y in Map(s, f) ==> exists x :: x in s && f(x) == y
  {
    forall x | x in s ensures f(x) in Map(s, f) {
      var i :| 0 <= i < |s| && s[i] == x;
      assert Map(s, f)[i] == f(x);
    }
    forall y | y in Map(s, f) ensures exists x :: x in s && f(x) == y {
      var i :| 0 <= i < |s| && Map(s, f)[i] == y;
      assert s[i] in s;
    }
  }

  // ---------------------------------------------------------------------------
  // Counting

  lemma {:induction false} FilterAppend<T(!new)>(a: seq<T>, b: seq<T>, keep: T -> bool)
    ensures Filter(a + b, keep) == Filter(a, keep) + Filter(b, keep)
    decreases |b|
  {
    if b == [] {
      assert a + b == a;
    } else {
      assert (a + b)[..|a + b| - 1] == a + b[..|b| - 1];
      FilterAppend(a, b[..|b| - 1], keep);
    }
  }

  lemma {:induction false} FilterNone<T(!new)>(s: seq<T>, keep: T -> bool)
    requires forall x :: x in s ==> !keep(x)
    ensures Filter(s, keep) == []
  {
    if s != [] {
      FilterNone(s[..|s| - 1], keep);
    }
  }

  lemma {:induction false} KeepEvery<T(!new)>(s: seq<T>, keep: T -> bool)
    requires forall x :: x in s ==> keep(x)
    ensures Filter(s, keep) == s
  {
    if s != [] {
      assert s == s[..|s| - 1] + [s[|s| - 1]];
      KeepEvery(s[..|s| - 1], keep);
    }
  }

  lemma {:induction false} FilterMultiset<T(!new)>(s: seq<T>, keep: T -> bool, x: T)
    ensures multiset(Filter(s, keep))[x] == if keep(x) then multiset(s)[x] else 0
  {
    if s != [] {
      assert s == s[..|s| - 1] + [s[|s| - 1]];
      FilterMultiset(s[..|s| - 1], keep, x);
    }
  }

  /** Filtering permuted lists gives permuted lists. */
  lemma PermutedFilter<T(!new)>(a: seq<T>, b: seq<T>, keep: T -> bool)
    requires multiset(a) == multiset(b)
    ensures multiset(Filter(a, keep)) == multiset(Filter(b, keep))
    ensures |Filter(a, keep)| == |Filter(b, keep)|
  {
    forall x ensures multiset(Filter(a, keep))[x] == multiset(Filter(b, keep))[x] {
      FilterMultiset(a, keep, x);
      FilterMultiset(b, keep, x);
    }
    assert |multiset(Filter(a, keep))| == |Filter(a, keep)|;
  }

  /** Filtering a flattened list filters its parts. */
  lemma {:induction false} FilterFlatMap<T, R(!new)>(s: seq<T>, f: T -> seq<R>, keep: R -> bool, g: T -> seq<R>)
    requires forall x :: x in s ==> g(x) == Filter(f(x), keep)
    ensures Filter(FlatMap(s, f), keep) == FlatMap(s, g)
  {
    if s != [] {
      assert s[|s| - 1] in s;
      FilterFlatMap(s[..|s| - 1], f, keep, g);
      FilterAppend(FlatMap(s[..|s| - 1], f), f(s[|s| - 1]), keep);
    }
  }

  // ---------------------------------------------------------------------------
  // Sums

  function Sum<T>(s: seq<T>, f: T -> nat): nat {
    if s == [] then 0 else Sum(s[..|s| - 1], f) + f(s[|s| - 1])
  }

  lemma {:induction false} SumAppend<T>(a: seq<T>, b: seq<T>, f: T -> nat)
    ensures Sum(a + b, f) == Sum(a, f) + Sum(b, f)
    decreases |b|
  {
    if b == [] {
      assert a + b == a;
    } else {
      assert (a + b)[..|a + b| - 1] == a + b[..|b| - 1];
      SumAppend(a, b[..|b| - 1], f);
    }
  }

  lemma SumMiddle<T>(a: seq<T>, x: T, b: seq<T>, f: T -> nat)
    ensures Sum(a + [x] + b, f) == Sum(a + b, f) + f(x)
  {
    SumAppend(a + [x], b, f);
    SumAppend(a, [x], f);
    SumAppend(a, b, f);
    assert [x][..0] == [];
  }

  lemma SumWithout<T>(s: seq<T>, i: nat, f: T -> nat)
    requires i < |s|
    ensures Sum(s, f) == Sum(s[..i] + s[i + 1..], f) + f(s[i])
    ensures multiset(s[..i] + s[i + 1..]) == multiset(s) - multiset{s[i]}
  {
    hide Sum;
    assert s == s[..i] + [s[i]] + s[i + 1..];
    SumMiddle(s[..i], s[i], s[i + 1..], f);
  }

  /** A sum does not depend on the order. */
  lemma {:induction false} SumPermuted<T>(a: seq<T>, b: seq<T>, f: T -> nat)
    requires multiset(a) == multiset(b)
    ensures Sum(a, f) == Sum(b, f)
    decreases |a|
  {
    assert |a| == |multiset(a)| == |multiset(b)| == |b|;
    if a != [] {
      var m := |a| - 1;
      assert a[m] in multiset(b);
      var i :| 0 <= i < |b| && b[i] == a[m];
      SumWithout(b, i, f);
      assert a[..m] + a[m + 1..] == a[..m];
      SumWithout(a, m, f);
      SumPermuted(a[..m], b[..i] + b[i + 1..], f);
    }
  }

  lemma {:induction false} SumFlatMap<T, R>(s: seq<T>, f: T -> seq<R>, w: R -> nat, g: T -> nat)
    requires forall x :: x in s ==> g(x) == Sum(f(x), w)
    ensures Sum(FlatMap(s, f), w) == Sum(s, g)
  {
    if s != [] {
      assert s[|s| - 1] in s;
      SumFlatMap(s[..|s| - 1], f, w, g);
      SumAppend(FlatMap(s[..|s| - 1], f), f(s[|s| - 1]), w);
    }
  }

  /** Summing what a filter keeps is summing with zero for what it drops. */
  lemma {:induction false} SumFilter<T(!new)>(s: seq<T>, keep: T -> bool, w: T -> nat, g: T -> nat)
    requires forall x :: x in s ==> g(x) == if keep(x) then w(x) else 0
    ensures Sum(Filter(s, keep), w) == Sum(s, g)
  {
    if s != [] {
      assert s[|s| - 1] in s;
      SumFilter(s[..|s| - 1], keep, w, g);
      SumAppend(Filter(s[..|s| - 1], keep), if keep(s[|s| - 1]) then [s[|s| - 1]] else [], w);
    }
  }

  lemma {:induction false} SumMap<T, R>(s: seq<T>, f: T -> R, w: R -> nat, g: T -> nat)
    requires forall x :: x in s ==> g(x) == w(f(x))
    ensures Sum(Map(s, f), w) == Sum(s, g)
  {
    if s != [] {
      assert s[|s| - 1] in s;
      SumMap(s[..|s| - 1], f, w, g);
      assert Map(s, f)[..|s| - 1] == Map(s[..|s| - 1], f);
    }
  }

  function Scaled(k: nat, n: nat): nat { k * n }

  lemma ScaledNext(k: nat, n: nat)
    ensures Scaled(k, n + 1) == Scaled(k, n) + k
  {
  }

  /** A sum of one constant over what a predicate picks. */
  lemma {:induction false} SumConstant<T(!new)>(s: seq<T>, pick: T -> bool, k: nat, g: T -> nat)
    requires forall x :: x in s ==> g(x) == if pick(x) then k else 0
    ensures Sum(s, g) == Scaled(k, |Filter(s, pick)|)
  {
    if s != [] {
      hide Scaled;
      assert s[|s| - 1] in s;
      SumConstant(s[..|s| - 1], pick, k, g);
      ScaledNext(k, |Filter(s[..|s| - 1], pick)|);
    }
  }
}
