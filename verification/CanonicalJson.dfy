/** Key-sorted JSON, the form in which every document is hashed and written. */
module CanonicalJson {
  import opened Ordering

  datatype Member = Member(name: string, value: Json)

  datatype Json =
    | Null
    | Bool(b: bool)
    | Number(n: int)
    | Text(s: string)
    | Array(items: seq<Json>)
    | Object(members: seq<Member>)

  /** Objects are maps: a name occurs once. */
  ghost predicate WellFormed(j: Json) {
    match j
    case Array(items) => forall i :: 0 <= i < |items| ==> WellFormed(items[i])
    case Object(ms) => DistinctNames(ms) && forall i :: 0 <= i < |ms| ==> WellFormed(ms[i].value)
    case _ => true
  }

  function MemberName(m: Member): string { m.name }

  ghost predicate DistinctNames(ms: seq<Member>) {
    DistinctBy(ms, MemberName)
  }

  ghost function NameSet(ms: seq<Member>): set<string> {
    set i | 0 <= i < |ms| :: ms[i].name
  }

  /** Equality with objects read as unordered collections of name/value pairs,
      section 1 of RFC 8259. Independent of any sorting. */
  ghost predicate SameValue(a: Json, b: Json) {
    match (a, b)
    case (Array(x), Array(y)) =>
      |x| == |y| && forall i :: 0 <= i < |x| ==> SameValue(x[i], y[i])
    case (Object(x), Object(y)) =>
      && NameSet(x) == NameSet(y)
      && (forall i, j :: 0 <= i < |x| && 0 <= j < |y| && x[i].name == y[j].name ==>
                           SameValue(x[i].value, y[j].value))
    case _ => a == b
  }

  predicate NameLe(a: Member, b: Member) { StringLe(a.name, b.name) }
  predicate NameLt(a: Member, b: Member) { StringLt(a.name, b.name) }

  /** The sorted form, stated with a sort of whole members. */
  function Canonical(j: Json): Json
    decreases j, 1
  {
    match j
    case Array(items) => Array(SortedItems(items))
    case Object(ms) => Object(Sort(SortedValues(ms), NameLe))
    case _ => j
  }

  function SortedItems(items: seq<Json>): (r: seq<Json>)
    decreases items, 0
  {
    seq(|items|, i requires 0 <= i < |items| => Canonical(items[i]))
  }

  function SortedValues(ms: seq<Member>): (r: seq<Member>)
    decreases ms, 0
  {
    seq(|ms|, i requires 0 <= i < |ms| => Member(ms[i].name, Canonical(ms[i].value)))
  }

  function Names(ms: seq<Member>): (r: seq<string>)
    ensures |r| == |ms| && forall i :: 0 <= i < |r| ==> r[i] == ms[i].name
  {
    seq(|ms|, i requires 0 <= i < |ms| => ms[i].name)
  }

  function IndexOf(ms: seq<Member>, name: string): (i: nat)
    requires name in NameSet(ms)
    ensures i < |ms| && ms[i].name == name
  {
    if ms[0].name == name then 0
    else
      assert name in NameSet(ms[1..]) by {
        var i :| 0 <= i < |ms| && ms[i].name == name;
        assert ms[1..][i - 1].name == name;
      }
      1 + IndexOf(ms[1..], name)
  }

  /** The source's own algorithm: an object's keys are collected and sorted, and the
      sorted values inserted key by key. */
  method SortJson(j: Json) returns (r: Json)
    requires WellFormed(j)
    ensures r == Canonical(j)
    decreases j, 1
  {
    match j {
      case Array(items) =>
        var out := SortItems(items);
        r := Array(out);
      case Object(ms) =>
        var out := SortMembers(ms);
        r := Object(out);
      case _ => r := j;
    }
  }

  method SortItems(items: seq<Json>) returns (out: seq<Json>)
    requires forall i :: 0 <= i < |items| ==> WellFormed(items[i])
    ensures out == SortedItems(items)
    decreases items, 0
  {
    out := [];
    for i := 0 to |items|
      invariant |out| == i && forall k :: 0 <= k < i ==> out[k] == Canonical(items[k])
    {
      var item := SortJson(items[i]);
      out := out + [item];
    }
  }

  method SortMembers(ms: seq<Member>) returns (out: seq<Member>)
    requires DistinctNames(ms) && forall i :: 0 <= i < |ms| ==> WellFormed(ms[i].value)
    ensures out == Sort(SortedValues(ms), NameLe)
    decreases ms, 0
  {
    ghost var values := SortedValues(ms);
    var keys := Sort(Names(ms), StringLe);
    SortPermutes(Names(ms), StringLe);
    out := [];
    for i := 0 to |keys|
      invariant |out| == i && forall k :: 0 <= k < i ==> out[k].name == keys[k] && out[k] in values
    {
      assert keys[i] in Names(ms);
      assert keys[i] in NameSet(ms);
      var at := IndexOf(ms, keys[i]);
      var value := SortJson(ms[at].value);
      assert values[at] == Member(keys[i], value);
      out := out + [Member(keys[i], value)];
    }
    NamesKept(ms);
    assert Names(out) == keys;
    KeyLoopSorts(values, out);
  }

  lemma NameOrder()
    ensures TotalPreorder(NameLe) && StrictOrder(NameLt)
  {
    StringOrder();
  }

  lemma {:induction false} SortedMembersChain(ms: seq<Member>)
    requires DistinctNames(ms)
    ensures Ordering.Sorted(Sort(ms, NameLe), NameLt)
  {
    NameOrder();
    var s := Sort(ms, NameLe);
    SortSorts(ms, NameLe);
    SortPermutes(ms, NameLe);
    PermutedDistinct(ms, s, MemberName);
  }

  lemma KeyLoopSorts(values: seq<Member>, out: seq<Member>)
    requires DistinctNames(values) && Names(out) == Sort(Names(values), StringLe)
    requires forall k :: 0 <= k < |out| ==> out[k] in values
    ensures out == Sort(values, NameLe)
  {
    SortPermutes(Names(values), StringLe);
    KeyLoopChain(values, out);
    KeyLoopMembers(values, out);
    SortedMembersChain(values);
    SortPermutes(values, NameLe);
    NameOrder();
    ChainUnique(out, Sort(values, NameLe), NameLt);
  }

  lemma KeyLoopChain(values: seq<Member>, out: seq<Member>)
    requires DistinctNames(values) && Names(out) == Sort(Names(values), StringLe)
    ensures Ordering.Sorted(out, NameLt)
  {
    StringOrder();
    SortSorts(Names(values), StringLe);
    SortPermutes(Names(values), StringLe);
    PermutedDistinct(Names(values), Names(out), (n: string) => n);
    forall i, j | 0 <= i < j < |out| ensures NameLt(out[i], out[j]) {
      assert Names(out)[i] == out[i].name && Names(out)[j] == out[j].name;
    }
  }

  lemma KeyLoopMembers(values: seq<Member>, out: seq<Member>)
    requires DistinctNames(values)
    requires multiset(Names(out)) == multiset(Names(values))
    requires forall k :: 0 <= k < |out| ==> out[k] in values
    ensures Elements(out) == Elements(values)
  {
    SameMembers(Names(out), Names(values));
    forall m | m in values ensures m in out {
      var i :| 0 <= i < |values| && values[i] == m;
      assert Names(values)[i] == m.name;
      assert m.name in Names(out);
      var k :| 0 <= k < |out| && Names(out)[k] == m.name;
      SameNameSameMember(values, out[k], m);
    }
  }

  lemma SameNameSameMember(ms: seq<Member>, a: Member, b: Member)
    requires DistinctNames(ms) && a in ms && b in ms && a.name == b.name
    ensures a == b
  {
  }

  // ---------------------------------------------------------------------------
  // The sorted form is canonical

  /** Equal values have the same sorted form. */
  lemma {:induction false} SameValueSortsAlike(a: Json, b: Json)
    requires WellFormed(a) && WellFormed(b) && SameValue(a, b)
    ensures Canonical(a) == Canonical(b)
    decreases a
  {
    match (a, b) {
      case (Array(x), Array(y)) =>
        forall i | 0 <= i < |x| ensures Canonical(x[i]) == Canonical(y[i]) {
          SameValueSortsAlike(x[i], y[i]);
        }
        assert SortedItems(x) == SortedItems(y);
      case (Object(x), Object(y)) =>
        forall i, j | 0 <= i < |x| && 0 <= j < |y| && x[i].name == y[j].name
          ensures Canonical(x[i].value) == Canonical(y[j].value)
        {
          SameValueSortsAlike(x[i].value, y[j].value);
        }
        AlignedSortAlike(x, y);
      case _ =>
    }
  }

  lemma AlignedSortAlike(x: seq<Member>, y: seq<Member>)
    requires DistinctNames(x) && DistinctNames(y)
    requires NameSet(x) == NameSet(y)
    requires forall i, j :: 0 <= i < |x| && 0 <= j < |y| && x[i].name == y[j].name ==>
                              Canonical(x[i].value) == Canonical(y[j].value)
    ensures Sort(SortedValues(x), NameLe) == Sort(SortedValues(y), NameLe)
  {
    forall i | 0 <= i < |x| ensures SortedValues(x)[i] in SortedValues(y) {
      assert x[i].name in NameSet(y);
      var j :| 0 <= j < |y| && y[j].name == x[i].name;
      assert SortedValues(y)[j] == SortedValues(x)[i];
    }
    forall j | 0 <= j < |y| ensures SortedValues(y)[j] in SortedValues(x) {
      assert y[j].name in NameSet(x);
      var i :| 0 <= i < |x| && x[i].name == y[j].name;
      assert SortedValues(x)[i] == SortedValues(y)[j];
    }
    SameMembersSortAlike(SortedValues(x), SortedValues(y));
  }

  lemma SameMembersSortAlike(x: seq<Member>, y: seq<Member>)
    requires DistinctNames(x) && DistinctNames(y)
    requires forall i :: 0 <= i < |x| ==> x[i] in y
    requires forall j :: 0 <= j < |y| ==> y[j] in x
    ensures Sort(x, NameLe) == Sort(y, NameLe)
  {
    SortedMembersChain(x);
    SortedMembersChain(y);
    SortPermutes(x, NameLe);
    SortPermutes(y, NameLe);
    NameOrder();
    assert Elements(Sort(x, NameLe)) == Elements(Sort(y, NameLe));
    ChainUnique(Sort(x, NameLe), Sort(y, NameLe), NameLt);
  }

  /** Values with the same sorted form are equal. */
  lemma {:induction false} SortedAlikeSameValue(a: Json, b: Json)
    requires WellFormed(a) && WellFormed(b) && Canonical(a) == Canonical(b)
    ensures SameValue(a, b)
    decreases a
  {
    match (a, b) {
      case (Array(x), Array(y)) =>
        assert |SortedItems(x)| == |SortedItems(y)|;
        forall i | 0 <= i < |x| ensures SameValue(x[i], y[i]) {
          assert SortedItems(x)[i] == SortedItems(y)[i];
          SortedAlikeSameValue(x[i], y[i]);
        }
      case (Object(x), Object(y)) =>
        ObjectsAligned(x, y);
        forall i, j | 0 <= i < |x| && 0 <= j < |y| && x[i].name == y[j].name
          ensures SameValue(x[i].value, y[j].value)
        {
          assert SortedValues(x)[i] == SortedValues(y)[j];
          SortedAlikeSameValue(x[i].value, y[j].value);
        }
      case _ =>
    }
  }

  lemma ObjectsAligned(x: seq<Member>, y: seq<Member>)
    requires DistinctNames(x) && DistinctNames(y)
    requires Sort(SortedValues(x), NameLe) == Sort(SortedValues(y), NameLe)
    ensures NameSet(x) == NameSet(y)
    ensures forall i, j :: 0 <= i < |x| && 0 <= j < |y| && x[i].name == y[j].name ==>
                             SortedValues(x)[i] == SortedValues(y)[j]
  {
    var u, v := SortedValues(x), SortedValues(y);
    NamesKept(x);
    NamesKept(y);
    SortedAlikeAligned(u, v);
    forall i, j | 0 <= i < |x| && 0 <= j < |y| && x[i].name == y[j].name ensures u[i] == v[j] {
      assert u[i].name == v[j].name;
    }
  }

  lemma NamesKept(ms: seq<Member>)
    ensures Names(SortedValues(ms)) == Names(ms)
    ensures DistinctNames(SortedValues(ms)) == DistinctNames(ms)
    ensures NameSet(SortedValues(ms)) == NameSet(ms)
  {
    var v := SortedValues(ms);
    assert forall i :: 0 <= i < |ms| ==> v[i].name == ms[i].name;
    assert forall i :: 0 <= i < |ms| ==> MemberName(v[i]) == MemberName(ms[i]);
  }

  lemma SortedAlikeAligned(u: seq<Member>, v: seq<Member>)
    requires DistinctNames(u) && DistinctNames(v)
    requires Sort(u, NameLe) == Sort(v, NameLe)
    ensures NameSet(u) == NameSet(v)
    ensures forall i, j :: 0 <= i < |u| && 0 <= j < |v| && u[i].name == v[j].name ==> u[i] == v[j]
  {
    hide Sort;
    SortPermutes(u, NameLe);
    SortPermutes(v, NameLe);
    forall i | 0 <= i < |u| ensures u[i] in v {
      assert u[i] in Sort(u, NameLe);
    }
    forall j | 0 <= j < |v| ensures v[j] in u {
      assert v[j] in Sort(v, NameLe);
    }
    forall i, j | 0 <= i < |u| && 0 <= j < |v| && u[i].name == v[j].name ensures u[i] == v[j] {
      SameNameSameMember(v, u[i], v[j]);
    }
  }

  /** Sorting is a complete canonical form: two documents read the same exactly
      when their sorted forms are identical. */
  lemma SortedFormCanonical(a: Json, b: Json)
    requires WellFormed(a) && WellFormed(b)
    ensures SameValue(a, b) <==> Canonical(a) == Canonical(b)
  {
    if SameValue(a, b) { SameValueSortsAlike(a, b); }
    if Canonical(a) == Canonical(b) { SortedAlikeSameValue(a, b); }
  }

  /** Sorting changes neither the value nor an already sorted document. */
  lemma {:induction false} SortPreservesValue(j: Json)
    requires WellFormed(j)
    ensures WellFormed(Canonical(j))
    ensures Canonical(Canonical(j)) == Canonical(j)
    ensures SameValue(j, Canonical(j))
    decreases j
  {
    match j {
      case Array(items) =>
        var r := SortedItems(items);
        forall i | 0 <= i < |items| ensures WellFormed(r[i]) && Canonical(r[i]) == r[i] {
          SortPreservesValue(items[i]);
        }
        assert SortedItems(r) == r;
      case Object(ms) =>
        var u := SortedValues(ms);
        forall i | 0 <= i < |ms| ensures WellFormed(u[i].value) && Canonical(u[i].value) == u[i].value {
          SortPreservesValue(ms[i].value);
        }
        var s := Sort(u, NameLe);
        SortPermutes(u, NameLe);
        PermutedDistinct(u, s, MemberName);
        forall i | 0 <= i < |s| ensures WellFormed(s[i].value) && Canonical(s[i].value) == s[i].value {
          assert s[i] in u;
        }
        assert SortedValues(s) == s;
        NameOrder();
        SortSorts(u, NameLe);
        SortedIsFixed(s, NameLe);
      case _ =>
    }
    SortedFormCanonical(j, Canonical(j));
  }
}
