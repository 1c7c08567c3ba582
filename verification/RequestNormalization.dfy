/** Normalization of a request: the canonical body whose hash is the request identity. */
module RequestNormalization {
  import opened Ordering
  import opened Types

  predicate FamilyLe(a: BackendFamily, b: BackendFamily) { FamilyRank(a) <= FamilyRank(b) }

  predicate ShapeLe(a: ShapePoint, b: ShapePoint) {
    a.batch < b.batch
    || (a.batch == b.batch && (a.sequence < b.sequence
                               || (a.sequence == b.sequence && PlaneRank(a.plane) <= PlaneRank(b.plane))))
  }

  predicate EntryLe(a: ConfigEntry, b: ConfigEntry) {
    StringLt(a.key, b.key) || (a.key == b.key && StringLe(a.value, b.value))
  }

  /** The key by which layers are sorted. */
  type LayerKey = (u8, string)

  function KeyOf(l: ConfigLayer): LayerKey { (l.precedence, l.name) }

  predicate KeyLe(a: LayerKey, b: LayerKey) { a.0 < b.0 || (a.0 == b.0 && StringLe(a.1, b.1)) }

  predicate LayerLe(a: ConfigLayer, b: ConfigLayer) { KeyLe(KeyOf(a), KeyOf(b)) }

  function CanonicalEntries(l: ConfigLayer): ConfigLayer { l.(entries := SortDedup(l.entries, EntryLe)) }

  function EntriesCanonical(s: seq<ConfigLayer>): seq<ConfigLayer> {
    seq(|s|, i requires 0 <= i < |s| => CanonicalEntries(s[i]))
  }

  function CanonicalLayers(layers: seq<ConfigLayer>): seq<ConfigLayer> {
    EntriesCanonical(Sort(layers, LayerLe))
  }

  function CanonicalKvLayout(p: KvLayoutPolicy): KvLayoutPolicy {
    if p.layout == StandardPaged then p.(runtimeMode := StandardMode) else p
  }

  function CanonicalBody(r: Request): Request {
    r.(environment := r.environment.(gpuArches := SortDedup(r.environment.gpuArches, StringLe)),
       kvLayout := CanonicalKvLayout(r.kvLayout),
       backendPolicy := r.backendPolicy.(preferredFamilies := SortDedup(r.backendPolicy.preferredFamilies, FamilyLe)),
       shapePolicy := r.shapePolicy.(hotShapes := SortDedup(r.shapePolicy.hotShapes, ShapeLe),
                                     cudaGraphShapes := SortDedup(r.shapePolicy.cudaGraphShapes, ShapeLe)),
       layers := CanonicalLayers(r.layers))
  }

  datatype NormalizedRequest = NormalizedRequest(body: Request, identity: Request)

  /** The source consumes the request and canonicalizes its parts one after the other. */
  method Normalize(raw: Request) returns (n: NormalizedRequest)
    ensures n.body == CanonicalBody(raw) && n.identity == n.body
  {
    var body := raw;
    body := body.(environment := body.environment.(gpuArches := SortDedup(body.environment.gpuArches, StringLe)));
    if body.kvLayout.layout == StandardPaged {
      body := body.(kvLayout := body.kvLayout.(runtimeMode := StandardMode));
    }
    body := body.(backendPolicy := body.backendPolicy.(
                    preferredFamilies := SortDedup(body.backendPolicy.preferredFamilies, FamilyLe)));
    body := body.(shapePolicy := body.shapePolicy.(
                    hotShapes := SortDedup(body.shapePolicy.hotShapes, ShapeLe),
                    cudaGraphShapes := SortDedup(body.shapePolicy.cudaGraphShapes, ShapeLe)));
    var layers := Sort(body.layers, LayerLe);
    ghost var sorted := layers;
    for i := 0 to |layers|
      invariant |layers| == |sorted|
      invariant forall k :: 0 <= k < i ==> layers[k] == CanonicalEntries(sorted[k])
      invariant forall k :: i <= k < |layers| ==> layers[k] == sorted[k]
    {
      var entries := Dedup(Sort(layers[i].entries, EntryLe));
      layers := layers[i := layers[i].(entries := entries)];
    }
    assert layers == CanonicalLayers(raw.layers);
    body := body.(layers := layers);
    n := NormalizedRequest(body, body);
  }

  // ---------------------------------------------------------------------------
  // The orders

  lemma FamilyOrder()
    ensures TotalOrder(FamilyLe)
  {
  }

  lemma ShapeOrder()
    ensures TotalOrder(ShapeLe)
  {
  }

  lemma EntryOrder()
    ensures TotalOrder(EntryLe)
  {
    StringOrder();
  }

  lemma LayerOrder()
    ensures TotalOrder(KeyLe) && TotalPreorder(LayerLe)
  {
    StringOrder();
  }

  // ---------------------------------------------------------------------------
  // What the identity distinguishes

  /** The layers carrying a key, in the order given. */
  function WithKey(layers: seq<ConfigLayer>, k: LayerKey): seq<ConfigLayer> {
    if layers == [] then []
    else if KeyOf(layers[0]) == k then [layers[0]] + WithKey(layers[1..], k)
    else WithKey(layers[1..], k)
  }

  ghost predicate SameEntrySets(a: seq<ConfigLayer>, b: seq<ConfigLayer>) {
    && |a| == |b|
    && forall i :: 0 <= i < |a| ==> Elements(a[i].entries) == Elements(b[i].entries)
  }

  /** Requests that differ only in order and repetition of listed values, in the order
      of layers with different keys, and in the runtime mode of a standard KV layout. */
  ghost predicate Equivalent(a: Request, b: Request) {
    && a.(environment := b.environment, kvLayout := b.kvLayout, backendPolicy := b.backendPolicy,
          shapePolicy := b.shapePolicy, layers := b.layers) == b
    && a.environment.(gpuArches := b.environment.gpuArches) == b.environment
    && Elements(a.environment.gpuArches) == Elements(b.environment.gpuArches)
    && (a.kvLayout == b.kvLayout
        || (a.kvLayout.layout == b.kvLayout.layout == StandardPaged
            && a.kvLayout.hotBudgetPct == b.kvLayout.hotBudgetPct))
    && a.backendPolicy.(preferredFamilies := b.backendPolicy.preferredFamilies) == b.backendPolicy
    && Elements(a.backendPolicy.preferredFamilies) == Elements(b.backendPolicy.preferredFamilies)
    && a.shapePolicy.(hotShapes := b.shapePolicy.hotShapes, cudaGraphShapes := b.shapePolicy.cudaGraphShapes)
       == b.shapePolicy
    && Elements(a.shapePolicy.hotShapes) == Elements(b.shapePolicy.hotShapes)
    && Elements(a.shapePolicy.cudaGraphShapes) == Elements(b.shapePolicy.cudaGraphShapes)
    && EquivalentLayers(a.layers, b.layers)
  }

  ghost predicate EquivalentLayers(a: seq<ConfigLayer>, b: seq<ConfigLayer>) {
    forall k: LayerKey :: SameEntrySets(WithKey(a, k), WithKey(b, k))
  }

  lemma {:induction false} InsertWithKey(x: ConfigLayer, s: seq<ConfigLayer>, k: LayerKey)
    requires Ordering.Sorted(s, LayerLe)
    ensures WithKey(Insert(x, s, LayerLe), k) == WithKey([x] + s, k)
  {
    assert ([x] + s)[1..] == s;
    if s != [] && !LayerLe(x, s[0]) {
      LayerOrder();
      var t := s[1..];
      InsertWithKey(x, t, k);
      assert ([x] + t)[1..] == t;
      assert ([s[0]] + Insert(x, t, LayerLe))[1..] == Insert(x, t, LayerLe);
    }
  }

  /** Sorting is stable: it keeps the order of layers with the same key. */
  lemma {:induction false} SortWithKey(s: seq<ConfigLayer>, k: LayerKey)
    ensures WithKey(Sort(s, LayerLe), k) == WithKey(s, k)
  {
    if s != [] {
      LayerOrder();
      SortWithKey(s[1..], k);
      SortSorts(s[1..], LayerLe);
      InsertWithKey(s[0], Sort(s[1..], LayerLe), k);
      var t := Sort(s[1..], LayerLe);
      assert ([s[0]] + t)[1..] == t;
    }
  }

  lemma {:induction false} EntriesWithKey(s: seq<ConfigLayer>, k: LayerKey)
    ensures WithKey(EntriesCanonical(s), k) == EntriesCanonical(WithKey(s, k))
  {
    if s != [] {
      assert EntriesCanonical(s)[1..] == EntriesCanonical(s[1..]);
      EntriesWithKey(s[1..], k);
      if KeyOf(s[0]) == k {
        assert EntriesCanonical(WithKey(s, k)) == [CanonicalEntries(s[0])] + EntriesCanonical(WithKey(s[1..], k));
      }
    }
  }

  /** Per key, the canonical layers are the given ones with canonical entries. */
  lemma CanonicalWithKey(layers: seq<ConfigLayer>, k: LayerKey)
    ensures WithKey(CanonicalLayers(layers), k) == EntriesCanonical(WithKey(layers, k))
  {
    EntriesWithKey(Sort(layers, LayerLe), k);
    SortWithKey(layers, k);
  }

  lemma {:induction false} WithKeyMember(s: seq<ConfigLayer>, k: LayerKey)
    ensures forall i :: 0 <= i < |WithKey(s, k)| ==> WithKey(s, k)[i] in s && KeyOf(WithKey(s, k)[i]) == k
    ensures WithKey(s, k) == [] <==> forall i :: 0 <= i < |s| ==> KeyOf(s[i]) != k
  {
    if s != [] {
      WithKeyMember(s[1..], k);
      assert s == [s[0]] + s[1..];
    }
  }

  /** Two lists sorted by key are equal once they agree key by key. */
  lemma {:induction false} SortedByKeyUnique(a: seq<ConfigLayer>, b: seq<ConfigLayer>)
    requires Ordering.Sorted(a, LayerLe) && Ordering.Sorted(b, LayerLe)
    requires forall k: LayerKey :: WithKey(a, k) == WithKey(b, k)
    ensures a == b
  {
    if a == [] {
      if b != [] {
        WithKeyMember(b, KeyOf(b[0]));
        assert false;
      }
    } else {
      var k := KeyOf(a[0]);
      WithKeyMember(b, k);
      assert WithKey(a, k) != [];
      assert b != [];
      LeastKeyFirst(a, b);
      assert WithKey(a, k)[0] == a[0] && WithKey(b, k)[0] == b[0];
      forall j: LayerKey ensures WithKey(a[1..], j) == WithKey(b[1..], j) {
        assert WithKey(a, j) == WithKey(b, j);
        assert WithKey(a[1..], j) == if j == k then WithKey(a, j)[1..] else WithKey(a, j);
        assert WithKey(b[1..], j) == if j == k then WithKey(b, j)[1..] else WithKey(b, j);
      }
      SortedByKeyUnique(a[1..], b[1..]);
      assert a == [a[0]] + a[1..] && b == [b[0]] + b[1..];
    }
  }

  lemma LeastKeyFirst(a: seq<ConfigLayer>, b: seq<ConfigLayer>)
    requires a != [] && b != [] && Ordering.Sorted(a, LayerLe) && Ordering.Sorted(b, LayerLe)
    requires forall k: LayerKey :: WithKey(a, k) == WithKey(b, k)
    ensures KeyOf(a[0]) == KeyOf(b[0])
  {
    var k, l := KeyOf(a[0]), KeyOf(b[0]);
    WithKeyMember(a, k);
    WithKeyMember(b, k);
    WithKeyMember(a, l);
    WithKeyMember(b, l);
    var i :| 0 <= i < |b| && KeyOf(b[i]) == k;
    var j :| 0 <= j < |a| && KeyOf(a[j]) == l;
    LayerOrder();
    assert KeyLe(l, k) by { assert i == 0 || LayerLe(b[0], b[i]); }
    assert KeyLe(k, l) by { assert j == 0 || LayerLe(a[0], a[j]); }
  }

  lemma CanonicalEntriesAgree(a: seq<ConfigLayer>, b: seq<ConfigLayer>, k: LayerKey)
    requires forall i :: 0 <= i < |a| ==> KeyOf(a[i]) == k
    requires forall i :: 0 <= i < |b| ==> KeyOf(b[i]) == k
    ensures EntriesCanonical(a) == EntriesCanonical(b) <==> SameEntrySets(a, b)
  {
    EntryOrder();
    forall i | 0 <= i < |a| && i < |b|
      ensures CanonicalEntries(a[i]) == CanonicalEntries(b[i]) <==> Elements(a[i].entries) == Elements(b[i].entries)
    {
      SortDedupCanonical(a[i].entries, b[i].entries, EntryLe);
    }
    if EntriesCanonical(a) == EntriesCanonical(b) {
      assert |EntriesCanonical(a)| == |EntriesCanonical(b)|;
      forall i | 0 <= i < |a| ensures Elements(a[i].entries) == Elements(b[i].entries) {
        assert EntriesCanonical(a)[i] == EntriesCanonical(b)[i];
      }
    }
  }

  lemma CanonicalLayersSorted(layers: seq<ConfigLayer>)
    ensures Ordering.Sorted(CanonicalLayers(layers), LayerLe)
  {
    LayerOrder();
    SortSorts(layers, LayerLe);
  }

  /** Canonical layers are equal exactly for equivalent layer lists. */
  lemma LayersCanonical(a: seq<ConfigLayer>, b: seq<ConfigLayer>)
    ensures CanonicalLayers(a) == CanonicalLayers(b) <==> EquivalentLayers(a, b)
  {
    forall k: LayerKey
      ensures WithKey(CanonicalLayers(a), k) == WithKey(CanonicalLayers(b), k)
              <==> SameEntrySets(WithKey(a, k), WithKey(b, k))
    {
      CanonicalWithKey(a, k);
      CanonicalWithKey(b, k);
      WithKeyMember(a, k);
      WithKeyMember(b, k);
      CanonicalEntriesAgree(WithKey(a, k), WithKey(b, k), k);
    }
    if EquivalentLayers(a, b) {
      CanonicalLayersSorted(a);
      CanonicalLayersSorted(b);
      SortedByKeyUnique(CanonicalLayers(a), CanonicalLayers(b));
    }
  }

  /** Two requests receive the same identity exactly when they are equivalent. */
  lemma IdentityCharacterized(a: Request, b: Request)
    ensures CanonicalBody(a) == CanonicalBody(b) <==> Equivalent(a, b)
  {
    StringOrder();
    FamilyOrder();
    ShapeOrder();
    SortDedupCanonical(a.environment.gpuArches, b.environment.gpuArches, StringLe);
    SortDedupCanonical(a.backendPolicy.preferredFamilies, b.backendPolicy.preferredFamilies, FamilyLe);
    SortDedupCanonical(a.shapePolicy.hotShapes, b.shapePolicy.hotShapes, ShapeLe);
    SortDedupCanonical(a.shapePolicy.cudaGraphShapes, b.shapePolicy.cudaGraphShapes, ShapeLe);
    LayersCanonical(a.layers, b.layers);
  }

  lemma EquivalentToCanonical(r: Request)
    ensures Equivalent(r, CanonicalBody(r))
  {
    StringOrder();
    FamilyOrder();
    ShapeOrder();
    SortDedupMembers(r.environment.gpuArches, StringLe);
    SortDedupMembers(r.backendPolicy.preferredFamilies, FamilyLe);
    SortDedupMembers(r.shapePolicy.hotShapes, ShapeLe);
    SortDedupMembers(r.shapePolicy.cudaGraphShapes, ShapeLe);
    forall k: LayerKey ensures SameEntrySets(WithKey(r.layers, k), WithKey(CanonicalLayers(r.layers), k)) {
      CanonicalWithKey(r.layers, k);
      var s := WithKey(r.layers, k);
      forall i | 0 <= i < |s| ensures Elements(s[i].entries) == Elements(EntriesCanonical(s)[i].entries) {
        EntryOrder();
        SortDedupMembers(s[i].entries, EntryLe);
      }
    }
  }

  /** Normalizing twice is normalizing once. */
  lemma NormalizeIdempotent(r: Request)
    ensures CanonicalBody(CanonicalBody(r)) == CanonicalBody(r)
  {
    EquivalentToCanonical(r);
    IdentityCharacterized(r, CanonicalBody(r));
  }

  /** With distinct layer keys, layer lists are equivalent exactly when they have the same
      keys and every key carries the same set of entries: layer order is irrelevant. */
  lemma DistinctKeysIgnoreOrder(a: seq<ConfigLayer>, b: seq<ConfigLayer>)
    requires DistinctBy(a, KeyOf) && DistinctBy(b, KeyOf)
    ensures EquivalentLayers(a, b) <==>
              (set l | l in a :: (KeyOf(l), Elements(l.entries))) == (set l | l in b :: (KeyOf(l), Elements(l.entries)))
  {
    forall k: LayerKey
      ensures SameEntrySets(WithKey(a, k), WithKey(b, k)) <==>
                (forall e: set<ConfigEntry> :: Declares(a, k, e) <==> Declares(b, k, e))
    {
      AgreeOnKey(a, b, k);
    }
    DeclaresMatchesSet(a);
    DeclaresMatchesSet(b);
    var A := set l | l in a :: (KeyOf(l), Elements(l.entries));
    var B := set l | l in b :: (KeyOf(l), Elements(l.entries));
    if EquivalentLayers(a, b) {
      forall k: LayerKey, e: set<ConfigEntry> ensures (k, e) in A <==> (k, e) in B {
        assert SameEntrySets(WithKey(a, k), WithKey(b, k));
      }
    }
    if A == B {
      forall k: LayerKey ensures SameEntrySets(WithKey(a, k), WithKey(b, k)) {
        forall e: set<ConfigEntry> ensures Declares(a, k, e) <==> Declares(b, k, e) {
          assert (k, e) in A <==> (k, e) in B;
        }
      }
    }
  }

  lemma AgreeOnKey(a: seq<ConfigLayer>, b: seq<ConfigLayer>, k: LayerKey)
    requires DistinctBy(a, KeyOf) && DistinctBy(b, KeyOf)
    ensures SameEntrySets(WithKey(a, k), WithKey(b, k)) <==>
              (forall e: set<ConfigEntry> :: Declares(a, k, e) <==> Declares(b, k, e))
  {
    UniqueWithKey(a, k);
    UniqueWithKey(b, k);
    var u, v := WithKey(a, k), WithKey(b, k);
    if forall e: set<ConfigEntry> :: Declares(a, k, e) <==> Declares(b, k, e) {
      assert u != [] ==> Declares(a, k, Elements(u[0].entries));
      assert v != [] ==> Declares(b, k, Elements(v[0].entries));
    }
  }

  ghost predicate Declares(s: seq<ConfigLayer>, k: LayerKey, e: set<ConfigEntry>) {
    exists i :: 0 <= i < |s| && KeyOf(s[i]) == k && Elements(s[i].entries) == e
  }

  lemma DeclaresMatchesSet(s: seq<ConfigLayer>)
    ensures forall k: LayerKey, e: set<ConfigEntry> ::
              Declares(s, k, e) <==> (k, e) in set l | l in s :: (KeyOf(l), Elements(l.entries))
  {
  }

  /** With distinct keys at most one layer carries a key. */
  lemma {:induction false} UniqueWithKey(s: seq<ConfigLayer>, k: LayerKey)
    requires DistinctBy(s, KeyOf)
    ensures |WithKey(s, k)| <= 1
    ensures forall e: set<ConfigEntry> ::
              Declares(s, k, e) <==> WithKey(s, k) != [] && Elements(WithKey(s, k)[0].entries) == e
  {
    WithKeyMember(s, k);
    if s != [] {
      UniqueWithKey(s[1..], k);
      WithKeyMember(s[1..], k);
      assert s == [s[0]] + s[1..];
      if KeyOf(s[0]) == k {
        assert WithKey(s[1..], k) == [];
      }
    }
  }
}
