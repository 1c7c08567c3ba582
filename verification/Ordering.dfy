/** Sorting and deduplication as the Rust standard library performs them
    (`Vec::sort`, `Vec::sort_by_key`, `Vec::dedup`), with the facts that make a
    sorted list a canonical form. */
module Ordering {

  /** A total preorder: what `sort_by_key` needs. */
  ghost predicate TotalPreorder<T(!new)>(le: (T, T) -> bool) {
    && (forall x, y :: le(x, y) || le(y, x))
    && (forall x, y, z :: le(x, y) && le(y, z) ==> le(x, z))
  }

  /** A total order: what a derived `Ord` is. */
  ghost predicate TotalOrder<T(!new)>(le: (T, T) -> bool) {
    && TotalPreorder(le)
    && (forall x, y :: le(x, y) && le(y, x) ==> x == y)
  }

  ghost predicate StrictOrder<T(!new)>(lt: (T, T) -> bool) {
    && (forall x :: !lt(x, x))
    && (forall x, y, z :: lt(x, y) && lt(y, z) ==> lt(x, z))
  }

  ghost predicate Sorted<T>(s: seq<T>, le: (T, T) -> bool) {
    forall i, j :: 0 <= i < j < |s| ==> le(s[i], s[j])
  }

  ghost function Elements<T>(s: seq<T>): set<T> {
    set x | x in s
  }

  /** Insert before the first element that is not smaller: equal elements keep
      the order in which they were given. */
  function Insert<T>(x: T, s: seq<T>, le: (T, T) -> bool): seq<T> {
    if s == [] || le(x, s[0]) then [x] + s else [s[0]] + Insert(x, s[1..], le)
  }

  /** Stable sort. */
  function Sort<T>(s: seq<T>, le: (T, T) -> bool): seq<T> {
    if s == [] then [] else Insert(s[0], Sort(s[1..], le), le)
  }

  /** Removal of consecutive repetitions. */
  function Dedup<T(==)>(s: seq<T>): seq<T> {
    if |s| < 2 then s
    else if s[0] == s[1] then Dedup(s[1..])
    else [s[0]] + Dedup(s[1..])
  }

  function SortDedup<T(==)>(s: seq<T>, le: (T, T) -> bool): seq<T> {
    Dedup(Sort(s, le))
  }

  lemma {:induction false} InsertPermutes<T>(x: T, s: seq<T>, le: (T, T) -> bool)
    ensures multiset(Insert(x, s, le)) == multiset{x} + multiset(s)
    ensures |Insert(x, s, le)| == 1 + |s|
  {
    if s != [] && !le(x, s[0]) {
      InsertPermutes(x, s[1..], le);
      assert s == [s[0]] + s[1..];
    }
  }

  lemma {:induction false} SortPermutes<T>(s: seq<T>, le: (T, T) -> bool)
    ensures multiset(Sort(s, le)) == multiset(s)
    ensures |Sort(s, le)| == |s|
    ensures forall x :: x in Sort(s, le) <==> x in s
  {
    if s != [] {
      SortPermutes(s[1..], le);
      InsertPermutes(s[0], Sort(s[1..], le), le);
      assert s == [s[0]] + s[1..];
    }
    SameMembers(Sort(s, le), s);
  }

  lemma SameMembers<T>(a: seq<T>, b: seq<T>)
    requires multiset(a) == multiset(b)
    ensures forall x :: x in a <==> x in b
    ensures |a| == |b|
  {
    assert forall x :: x in a <==> x in multiset(a);
    assert forall x :: x in b <==> x in multiset(b);
    assert |a| == |multiset(a)| && |b| == |multiset(b)|;
  }

  lemma {:induction false} InsertSorts<T(!new)>(x: T, s: seq<T>, le: (T, T) -> bool)
    requires TotalPreorder(le) && Sorted(s, le)
    ensures Sorted(Insert(x, s, le), le)
  {
    if s != [] && !le(x, s[0]) {
      var rest := Insert(x, s[1..], le);
      InsertSorts(x, s[1..], le);
      InsertPermutes(x, s[1..], le);
      SameMembers(rest, [x] + s[1..]);
      assert le(s[0], x);
      forall y | y in rest ensures le(s[0], y) {
        assert y in [x] + s[1..];
      }
    } else if s != [] {
      forall j | 0 <= j < |s| ensures le(x, s[j]) {
        assert j == 0 || le(s[0], s[j]);
      }
    }
  }

  lemma {:induction false} SortSorts<T(!new)>(s: seq<T>, le: (T, T) -> bool)
    requires TotalPreorder(le)
    ensures Sorted(Sort(s, le), le)
  {
    if s != [] {
      SortSorts(s[1..], le);
      InsertSorts(s[0], Sort(s[1..], le), le);
    }
  }

  lemma {:induction false} SortedIsFixed<T(!new)>(s: seq<T>, le: (T, T) -> bool)
    requires Sorted(s, le)
    ensures Sort(s, le) == s
  {
    if s != [] {
      assert Sorted(s[1..], le);
      SortedIsFixed(s[1..], le);
      assert s == [s[0]] + s[1..];
      if |s| > 1 { assert le(s[0], s[1]); }
    }
  }

  lemma {:induction false} DedupOfSorted<T(!new)>(s: seq<T>, le: (T, T) -> bool)
    requires TotalOrder(le) && Sorted(s, le)
    ensures Sorted(Dedup(s), (x, y) => le(x, y) && x != y)
    ensures Elements(Dedup(s)) == Elements(s)
    ensures s != [] ==> Dedup(s) != [] && Dedup(s)[0] == s[0]
  {
    if |s| >= 2 {
      var rest := Dedup(s[1..]);
      DedupOfSorted(s[1..], le);
      assert Elements(s) == {s[0]} + Elements(s[1..]) by {
        assert s == [s[0]] + s[1..];
      }
      if s[0] != s[1] {
        forall y | y in rest ensures le(s[0], y) && s[0] != y {
          assert y in Elements(rest);
          assert y in s[1..];
          assert le(s[1], y);
        }
        assert Elements([s[0]] + rest) == {s[0]} + Elements(rest);
      }
    }
  }

  /** Two strictly increasing lists with the same members are the same list. */
  lemma {:induction false} ChainUnique<T(!new)>(a: seq<T>, b: seq<T>, lt: (T, T) -> bool)
    requires StrictOrder(lt) && Sorted(a, lt) && Sorted(b, lt)
    requires Elements(a) == Elements(b)
    ensures a == b
  {
    assert (a == []) == (Elements(a) == {}) by {
      assert a != [] ==> a[0] in Elements(a);
    }
    assert (b == []) == (Elements(b) == {}) by {
      assert b != [] ==> b[0] in Elements(b);
    }
    if a != [] {
      assert a[0] == b[0] by {
        assert a[0] in Elements(b) && b[0] in Elements(a);
        var i :| 0 <= i < |b| && b[i] == a[0];
        var j :| 0 <= j < |a| && a[j] == b[0];
      }
      forall x ensures x in Elements(a[1..]) <==> x in Elements(b[1..]) {
        TailMembers(a, lt, x);
        TailMembers(b, lt, x);
        assert x in Elements(a) <==> x in Elements(b);
      }
      ChainUnique(a[1..], b[1..], lt);
      assert a == [a[0]] + a[1..] && b == [b[0]] + b[1..];
    }
  }

  lemma TailMembers<T(!new)>(s: seq<T>, lt: (T, T) -> bool, x: T)
    requires s != [] && StrictOrder(lt) && Sorted(s, lt)
    ensures x in Elements(s[1..]) <==> x in Elements(s) && x != s[0]
  {
    assert s == [s[0]] + s[1..];
    if x in s[1..] {
      var i :| 0 <= i < |s[1..]| && s[1..][i] == x;
      assert lt(s[0], s[i + 1]);
    }
  }

  /** `sort` then `dedup` is a complete canonical form of the set of members. */
  lemma {:induction false} SortDedupCanonical<T(!new)>(a: seq<T>, b: seq<T>, le: (T, T) -> bool)
    requires TotalOrder(le)
    ensures SortDedup(a, le) == SortDedup(b, le) <==> Elements(a) == Elements(b)
    ensures Elements(SortDedup(a, le)) == Elements(a)
  {
    SortDedupMembers(a, le);
    SortDedupMembers(b, le);
    if Elements(a) == Elements(b) {
      ChainUnique(SortDedup(a, le), SortDedup(b, le), (x, y) => le(x, y) && x != y);
    }
  }

  lemma SortDedupMembers<T(!new)>(s: seq<T>, le: (T, T) -> bool)
    requires TotalOrder(le)
    ensures Elements(SortDedup(s, le)) == Elements(s)
    ensures Sorted(SortDedup(s, le), (x, y) => le(x, y) && x != y)
  {
    SortSorts(s, le);
    SortPermutes(s, le);
    DedupOfSorted(Sort(s, le), le);
  }

  lemma DropOne<T>(s: seq<T>, i: nat)
    requires i < |s|
    ensures s[i..] == [s[i]] + s[i + 1..]
  {
  }

  /** No two positions carry the same key. */
  predicate DistinctBy<T, K(==)>(s: seq<T>, key: T -> K) {
    forall i, j :: 0 <= i < j < |s| ==> key(s[i]) != key(s[j])
  }

  lemma {:induction false} CountedOnce<T, K>(s: seq<T>, key: T -> K, x: T)
    requires DistinctBy(s, key)
    ensures multiset(s)[x] <= 1
  {
    if s != [] {
      assert s == [s[0]] + s[1..];
      CountedOnce(s[1..], key, x);
      if s[0] == x {
        assert forall i :: 0 <= i < |s[1..]| ==> key(s[1..][i]) != key(x);
        assert x !in s[1..];
      }
    }
  }

  lemma CountedTwice<T>(s: seq<T>, i: nat, j: nat)
    requires i < j < |s| && s[i] == s[j]
    ensures multiset(s)[s[i]] >= 2
  {
    assert s == s[..j] + [s[j]] + s[j + 1..];
    assert s[i] in s[..j];
  }

  /** Distinctness survives permutation. */
  lemma PermutedDistinct<T, K>(a: seq<T>, b: seq<T>, key: T -> K)
    requires DistinctBy(a, key) && multiset(a) == multiset(b)
    ensures DistinctBy(b, key)
  {
    SameMembers(a, b);
    forall i, j | 0 <= i < j < |b| ensures key(b[i]) != key(b[j]) {
      if key(b[i]) == key(b[j]) {
        assert b[i] in a && b[j] in a;
        assert b[i] == b[j];
        CountedTwice(b, i, j);
        CountedOnce(a, key, b[i]);
        assert false;
      }
    }
  }

  /** Strings compare by code point, as Rust compares UTF-8 text. */
  predicate StringLe(a: string, b: string) {
    a == [] || (b != [] && (a[0] < b[0] || (a[0] == b[0] && StringLe(a[1..], b[1..]))))
  }

  predicate StringLt(a: string, b: string) {
    StringLe(a, b) && a != b
  }

  lemma {:induction false} StringLeTotal(a: string, b: string)
    ensures StringLe(a, b) || StringLe(b, a)
    ensures StringLe(a, b) && StringLe(b, a) ==> a == b
  {
    if a != [] && b != [] {
      StringLeTotal(a[1..], b[1..]);
      assert a == [a[0]] + a[1..] && b == [b[0]] + b[1..];
    }
  }

  lemma {:induction false} StringLeTransitive(a: string, b: string, c: string)
    requires StringLe(a, b) && StringLe(b, c)
    ensures StringLe(a, c)
  {
    if a != [] && b != [] && c != [] && a[0] == b[0] && b[0] == c[0] {
      StringLeTransitive(a[1..], b[1..], c[1..]);
    }
  }

  lemma StringOrder()
    ensures TotalOrder(StringLe)
    ensures StrictOrder(StringLt)
  {
    forall a, b ensures (StringLe(a, b) || StringLe(b, a)) && (StringLe(a, b) && StringLe(b, a) ==> a == b) {
      StringLeTotal(a, b);
    }
    forall a, b, c | StringLe(a, b) && StringLe(b, c) ensures StringLe(a, c) {
      StringLeTransitive(a, b, c);
    }
  }
}
