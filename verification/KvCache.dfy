/** Paged KV accounting of the CUDA shim: page sizes, the mixed-precision (TMH)
    pressure formula and the memory-budget acceptance rule. Byte counts are exact:
    a precision is a number of half bytes per scalar, percentages are reals. */
module KvCache {

  import opened Capabilities
  import Types

  datatype Layout = VllmBlockMajor | FlashInferPaged | TrtllmPaged | TmhFidelityPaged

  datatype Precision = FP16 | BF16 | FP8 | INT8 | INT4 | NVFP4

  function HalfBytes(p: Precision): nat {
    match p
    case FP16 | BF16 => 4
    case FP8 | INT8 => 2
    case INT4 | NVFP4 => 1
  }

  datatype RawPageSpec = PageSpec(
    blockTokens: int, numLayers: int, numKvHeads: int, headSizeK: int, headSizeV: int,
    precision: Precision, layout: Layout)
  {
    predicate Positive() {
      blockTokens > 0 && numLayers > 0 && numKvHeads > 0 && headSizeK > 0 && headSizeV > 0
    }
  }

  /** A spec that survived its constructor check. */
  type PageSpec = s: RawPageSpec | s.Positive() witness RawPageSpec.PageSpec(1, 1, 1, 1, 1, FP16, VllmBlockMajor)

  datatype RawPolicy = TmhPolicy(
    hotBudgetPct: real, anchorPages: int,
    earlyK: Precision, earlyV: Precision, lateK: Precision, lateV: Precision)

  /** A policy that survived its constructor check. */
  type TmhPolicy = p: RawPolicy | 0.0 <= p.hotBudgetPct <= 100.0 && p.anchorPages >= 0
    witness RawPolicy.TmhPolicy(25.0, 1, INT8, INT4, INT8, INT8)

  function Max(a: int, b: int): int { if a >= b then a else b }
  function Min(a: int, b: int): int { if a <= b then a else b }
  function CeilDiv(a: nat, b: int): nat requires b > 0 { (a + b - 1) / b }
  function Ceil(x: real): int { -((-x).Floor) }

  /** Bytes taken by `scalars` numbers of the given precision, rounded up. */
  function BytesOf(scalars: nat, p: Precision): nat {
    match HalfBytes(p)
    case 1 => CeilDiv(scalars, 2)
    case 2 => scalars
    case _ => 2 * scalars
  }

  function PageScalars(spec: PageSpec): nat {
    Product4(spec.blockTokens, spec.numLayers, spec.numKvHeads, spec.headSizeK + spec.headSizeV)
  }

  function Product4(a: nat, b: nat, c: nat, d: nat): nat { a * b * c * d }

  function Scale(k: nat, n: nat): nat { k * n }

  function ReductionPct(tmh: nat, regular: nat): real {
    if regular == 0 then 0.0 else 100.0 * (1.0 - tmh as real / regular as real)
  }

  function PageBytes(spec: PageSpec): nat {
    BytesOf(PageScalars(spec), spec.precision)
  }

  function PagesForTokens(spec: PageSpec, tokens: int): Outcome<nat> {
    if tokens < 0 then Raised(InvalidConfiguration("tokens cannot be negative"))
    else Ok(Max(1, CeilDiv(Max(1, tokens), spec.blockTokens)))
  }

  datatype Pressure = Pressure(
    totalPages: nat, hotPages: nat, oldPages: nat, regularBytes: nat, tmhBytes: nat, reductionPct: real)

  function Percent(x: real, pct: real): real { x * pct / 100.0 }

  /** Pages kept hot beyond the anchors, out of `m`. */
  function HotShare(m: nat, pct: real): int { Ceil(Percent(m as real, pct)) }

  function HotPages(policy: TmhPolicy, totalPages: nat): int {
    Min(totalPages,
        policy.anchorPages + HotShare(Max(0, totalPages - policy.anchorPages), policy.hotBudgetPct))
  }

  function OldPages(policy: TmhPolicy, totalPages: nat): nat {
    Max(0, totalPages - HotPages(policy, totalPages))
  }

  function EarlyLayers(spec: PageSpec): nat { spec.numLayers * 2 / 3 }
  function LateLayers(spec: PageSpec): nat { spec.numLayers - EarlyLayers(spec) }

  /** Scalars of the four cold groups: early/late layers, keys/values. */
  function ColdScalars(spec: PageSpec, oldPages: nat, layers: nat, headSize: nat): nat {
    Product4(oldPages * spec.blockTokens, layers, spec.numKvHeads, headSize)
  }

  function ColdBytes(policy: TmhPolicy, spec: PageSpec, oldPages: nat): nat {
    BytesOf(ColdScalars(spec, oldPages, EarlyLayers(spec), spec.headSizeK), policy.earlyK)
    + BytesOf(ColdScalars(spec, oldPages, EarlyLayers(spec), spec.headSizeV), policy.earlyV)
    + BytesOf(ColdScalars(spec, oldPages, LateLayers(spec), spec.headSizeK), policy.lateK)
    + BytesOf(ColdScalars(spec, oldPages, LateLayers(spec), spec.headSizeV), policy.lateV)
  }

  function PolicyPressure(policy: TmhPolicy, spec: PageSpec, totalTokens: int): (r: Outcome<Pressure>)
    ensures r.Ok? <==> totalTokens >= 0
    ensures r.Ok? ==> r.value.hotPages + r.value.oldPages == r.value.totalPages
  {
    var totalPages :- PagesForTokens(spec, totalTokens);
    HotPagesBounded(policy, totalPages);
    var hot := HotPages(policy, totalPages);
    var cold := OldPages(policy, totalPages);
    var regular := Scale(PageBytes(spec), totalPages);
    var tmh := Scale(PageBytes(spec), hot) + ColdBytes(policy, spec, cold);
    Ok(Pressure(totalPages, hot, cold, regular, tmh, ReductionPct(tmh, regular)))
  }

  // ---------------------------------------------------------------------------
  // Page split

  lemma CeilMonotone(x: real, y: real)
    requires x <= y
    ensures Ceil(x) <= Ceil(y)
  {
    assert -y <= -x;
  }

  lemma CeilShift(x: real, k: int)
    ensures Ceil(x + k as real) == Ceil(x) + k
  {
    assert -(x + k as real) == -x - k as real;
  }

  lemma CeilSandwich(x: real, y: real, m: nat, n: nat)
    requires m <= n && 0.0 <= x <= m as real && x <= y <= x + (n - m) as real
    ensures 0 <= Ceil(x) <= m
    ensures Ceil(x) <= Ceil(y) <= Ceil(x) + (n - m)
  {
    CeilMonotone(x, m as real);
    CeilMonotone(x, y);
    CeilMonotone(y, x + (n - m) as real);
    CeilShift(x, n - m);
  }

  lemma Percentage(x: real, pct: real)
    requires 0.0 <= x && 0.0 <= pct <= 100.0
    ensures 0.0 <= Percent(x, pct) <= x
  {
    assert x * pct >= 0.0;
    assert x * (100.0 - pct) >= 0.0;
  }

  lemma PercentageOfSum(a: real, b: real, pct: real)
    ensures Percent(a + b, pct) == Percent(a, pct) + Percent(b, pct)
  {
    assert (a + b) * pct == a * pct + b * pct;
  }

  lemma PercentageGrows(a: real, b: real, pct: real)
    requires 0.0 <= a <= b && 0.0 <= pct <= 100.0
    ensures 0.0 <= Percent(a, pct) <= a
    ensures Percent(a, pct) <= Percent(b, pct) <= Percent(a, pct) + (b - a)
  {
    Percentage(a, pct);
    Percentage(b - a, pct);
    PercentageOfSum(a, b - a, pct);
    assert a + (b - a) == b;
  }

  lemma HotShareGrows(m: nat, n: nat, pct: real)
    requires m <= n && 0.0 <= pct <= 100.0
    ensures 0 <= HotShare(m, pct) <= m
    ensures HotShare(m, pct) <= HotShare(n, pct) <= HotShare(m, pct) + (n - m)
  {
    PercentageGrows(m as real, n as real, pct);
    CeilSandwich(Percent(m as real, pct), Percent(n as real, pct), m, n);
  }

  lemma HotPagesForm(policy: TmhPolicy, totalPages: nat)
    ensures totalPages <= policy.anchorPages ==> HotPages(policy, totalPages) == totalPages
    ensures totalPages > policy.anchorPages ==>
              HotPages(policy, totalPages)
              == policy.anchorPages + HotShare(totalPages - policy.anchorPages, policy.hotBudgetPct)
  {
    var m := Max(0, totalPages - policy.anchorPages);
    HotShareGrows(m, m, policy.hotBudgetPct);
  }

  lemma HotPagesBounded(policy: TmhPolicy, totalPages: nat)
    ensures 0 <= HotPages(policy, totalPages) <= totalPages
    ensures OldPages(policy, totalPages) == totalPages - HotPages(policy, totalPages)
  {
    var m := Max(0, totalPages - policy.anchorPages);
    HotShareGrows(m, m, policy.hotBudgetPct);
  }

  /** Adding pages never shrinks the hot set nor the cold set. */
  lemma SplitMonotone(policy: TmhPolicy, few: nat, many: nat)
    requires few <= many
    ensures HotPages(policy, few) <= HotPages(policy, many)
    ensures OldPages(policy, few) <= OldPages(policy, many)
  {
    HotPagesBounded(policy, few);
    HotPagesBounded(policy, many);
    HotPagesForm(policy, few);
    HotPagesForm(policy, many);
    var m := Max(0, few - policy.anchorPages);
    var n := Max(0, many - policy.anchorPages);
    HotShareGrows(m, n, policy.hotBudgetPct);
    HotShareGrows(0, n, policy.hotBudgetPct);
  }

  // ---------------------------------------------------------------------------
  // Bytes

  lemma Product4Monotone(a: nat, a': nat, b: nat, c: nat, d: nat)
    requires a <= a'
    ensures Product4(a, b, c, d) <= Product4(a', b, c, d)
  {
    var k := b * c * d;
    assert Product4(a, b, c, d) == a * k && Product4(a', b, c, d) == a' * k by {
      Regroup(a, b, c, d);
      Regroup(a', b, c, d);
    }
    assert a * k <= a' * k by {
      assert a' * k - a * k == (a' - a) * k;
    }
  }

  lemma Regroup(a: nat, b: nat, c: nat, d: nat)
    ensures Product4(a, b, c, d) == a * (b * c * d)
  {
    assert a * b * c * d == a * (b * c) * d == a * (b * c * d);
  }

  /** The four cold groups hold exactly the scalars of the cold pages. */
  lemma ColdScalarsAddUp(spec: PageSpec, oldPages: nat)
    ensures ColdScalars(spec, oldPages, EarlyLayers(spec), spec.headSizeK)
            + ColdScalars(spec, oldPages, EarlyLayers(spec), spec.headSizeV)
            + ColdScalars(spec, oldPages, LateLayers(spec), spec.headSizeK)
            + ColdScalars(spec, oldPages, LateLayers(spec), spec.headSizeV)
            == Scale(oldPages, PageScalars(spec))
  {
    var t, h := oldPages * spec.blockTokens, spec.numKvHeads;
    SplitWidth(t, EarlyLayers(spec), h, spec.headSizeK, spec.headSizeV);
    SplitWidth(t, LateLayers(spec), h, spec.headSizeK, spec.headSizeV);
    SplitLayers(t, EarlyLayers(spec), LateLayers(spec), h, spec.headSizeK + spec.headSizeV);
    PullPages(oldPages, spec.blockTokens, spec.numLayers, h, spec.headSizeK + spec.headSizeV);
  }

  lemma SplitWidth(t: nat, e: nat, h: nat, k: nat, v: nat)
    ensures Product4(t, e, h, k) + Product4(t, e, h, v) == Product4(t, e, h, k + v)
  {
    ScaleSplit(t * e * h, k, v);
  }

  lemma PullPages(pages: nat, b: nat, n: nat, h: nat, w: nat)
    ensures Product4(pages * b, n, h, w) == Scale(pages, Product4(b, n, h, w))
  {
    Regroup(pages * b, n, h, w);
    Regroup(b, n, h, w);
    Associate(pages, b, n * h * w);
  }

  lemma Associate(a: nat, b: nat, c: nat)
    ensures a * b * c == a * (b * c)
  {
  }

  lemma SplitLayers(t: nat, e: nat, l: nat, h: nat, w: nat)
    ensures Product4(t, e, h, w) + Product4(t, l, h, w) == Product4(t, e + l, h, w)
  {
    Distribute(t, e, l);
    Distribute(h, t * e, t * l);
    Distribute(w, t * e * h, t * l * h);
  }

  lemma Distribute(a: nat, b: nat, c: nat)
    ensures a * b + a * c == a * (b + c)
  {
  }

  ghost predicate NoFinerThan(policy: TmhPolicy, p: Precision) {
    && HalfBytes(policy.earlyK) <= HalfBytes(p)
    && HalfBytes(policy.earlyV) <= HalfBytes(p)
    && HalfBytes(policy.lateK) <= HalfBytes(p)
    && HalfBytes(policy.lateV) <= HalfBytes(p)
  }

  lemma WholeByteCost(scalars: nat, p: Precision, q: Precision)
    requires HalfBytes(p) <= HalfBytes(q) && HalfBytes(q) >= 2
    ensures BytesOf(scalars, p) <= BytesOf(scalars, q) == if HalfBytes(q) == 2 then scalars else 2 * scalars
  {
  }

  lemma ScaleSplit(k: nat, a: nat, b: nat)
    ensures Scale(k, a) + Scale(k, b) == Scale(k, a + b)
  {
  }

  lemma ScaleCommutes(k: nat, a: nat)
    ensures Scale(k, a) == Scale(a, k)
  {
  }

  lemma PagesCost(pages: nat, n: nat, q: Precision)
    requires HalfBytes(q) >= 2
    ensures Scale(BytesOf(n, q), pages) == if HalfBytes(q) == 2 then Scale(pages, n) else 2 * Scale(pages, n)
  {
    ScaleCommutes(BytesOf(n, q), pages);
    ScaleSplit(pages, n, n);
  }

  lemma PressureParts(policy: TmhPolicy, spec: PageSpec, totalTokens: nat)
    ensures var r := PolicyPressure(policy, spec, totalTokens).value;
            && r.regularBytes == Scale(PageBytes(spec), r.hotPages) + Scale(PageBytes(spec), r.oldPages)
            && r.tmhBytes == Scale(PageBytes(spec), r.hotPages) + ColdBytes(policy, spec, r.oldPages)
  {
    var r := PolicyPressure(policy, spec, totalTokens).value;
    ScaleSplit(PageBytes(spec), r.hotPages, r.oldPages);
  }

  /** For whole-byte specs the mixed layout never costs more than the regular one. */
  lemma TmhNeverExceedsWholeByte(policy: TmhPolicy, spec: PageSpec, totalTokens: nat)
    requires NoFinerThan(policy, spec.precision) && HalfBytes(spec.precision) >= 2
    ensures var r := PolicyPressure(policy, spec, totalTokens).value;
            r.tmhBytes <= r.regularBytes && 0.0 <= r.reductionPct <= 100.0
  {
    var r := PolicyPressure(policy, spec, totalTokens).value;
    PressureParts(policy, spec, totalTokens);
    ColdWithinPages(policy, spec, r.oldPages);
    ReductionInRange(r.tmhBytes, r.regularBytes);
  }

  lemma ColdWithinPages(policy: TmhPolicy, spec: PageSpec, oldPages: nat)
    requires NoFinerThan(policy, spec.precision) && HalfBytes(spec.precision) >= 2
    ensures ColdBytes(policy, spec, oldPages) <= Scale(PageBytes(spec), oldPages)
  {
    ColdScalarsAddUp(spec, oldPages);
    PagesCost(oldPages, PageScalars(spec), spec.precision);
    WholeByteCost(ColdScalars(spec, oldPages, EarlyLayers(spec), spec.headSizeK), policy.earlyK, spec.precision);
    WholeByteCost(ColdScalars(spec, oldPages, EarlyLayers(spec), spec.headSizeV), policy.earlyV, spec.precision);
    WholeByteCost(ColdScalars(spec, oldPages, LateLayers(spec), spec.headSizeK), policy.lateK, spec.precision);
    WholeByteCost(ColdScalars(spec, oldPages, LateLayers(spec), spec.headSizeV), policy.lateV, spec.precision);
  }

  lemma ReductionInRange(tmh: nat, regular: nat)
    requires tmh <= regular
    ensures 0.0 <= ReductionPct(tmh, regular) <= 100.0
  {
    if regular != 0 {
      var q := tmh as real / regular as real;
      assert q * regular as real == tmh as real;
      assert 0.0 <= q <= 1.0;
    }
  }

  function OddTerms(spec: PageSpec, oldPages: nat): nat {
    ColdScalars(spec, oldPages, EarlyLayers(spec), spec.headSizeK) % 2
    + ColdScalars(spec, oldPages, EarlyLayers(spec), spec.headSizeV) % 2
    + ColdScalars(spec, oldPages, LateLayers(spec), spec.headSizeK) % 2
    + ColdScalars(spec, oldPages, LateLayers(spec), spec.headSizeV) % 2
  }

  lemma HalfByteCost(scalars: nat, p: Precision)
    requires HalfBytes(p) == 1
    ensures BytesOf(scalars, p) + BytesOf(scalars, p) == scalars + scalars % 2
  {
  }

  lemma HalfBytePagesCost(pages: nat, n: nat, q: Precision)
    requires HalfBytes(q) == 1
    ensures 2 * Scale(BytesOf(n, q), pages) == Scale(pages, n) + Scale(pages, n % 2)
  {
    HalfByteCost(n, q);
    ScaleCommutes(BytesOf(n, q), pages);
    ScaleSplit(pages, BytesOf(n, q), BytesOf(n, q));
    ScaleSplit(pages, n, n % 2);
  }

  /** For half-byte specs the four separate roundings can cost more than rounding
      per page: the exact difference, which is at most two bytes, and exactly when
      the mixed layout is the dearer one. */
  lemma TmhHalfByteExcess(policy: TmhPolicy, spec: PageSpec, totalTokens: nat)
    requires NoFinerThan(policy, spec.precision) && HalfBytes(spec.precision) == 1
    ensures var r := PolicyPressure(policy, spec, totalTokens).value;
            var cold := OldPages(policy, PagesForTokens(spec, totalTokens).value);
            var slack := Scale(cold, PageScalars(spec) % 2);
            && 2 * (r.tmhBytes - r.regularBytes) == OddTerms(spec, cold) - slack
            && r.tmhBytes <= r.regularBytes + 2
            && (r.tmhBytes > r.regularBytes <==> OddTerms(spec, cold) > slack)
  {
    var r := PolicyPressure(policy, spec, totalTokens).value;
    PressureParts(policy, spec, totalTokens);
    ColdHalfByteExcess(policy, spec, r.oldPages);
  }

  lemma ColdHalfByteExcess(policy: TmhPolicy, spec: PageSpec, oldPages: nat)
    requires NoFinerThan(policy, spec.precision) && HalfBytes(spec.precision) == 1
    ensures 2 * (ColdBytes(policy, spec, oldPages) - Scale(PageBytes(spec), oldPages))
            == OddTerms(spec, oldPages) - Scale(oldPages, PageScalars(spec) % 2)
    ensures OddTerms(spec, oldPages) <= 4
  {
    ColdScalarsAddUp(spec, oldPages);
    HalfBytePagesCost(oldPages, PageScalars(spec), spec.precision);
    HalfByteCost(ColdScalars(spec, oldPages, EarlyLayers(spec), spec.headSizeK), policy.earlyK);
    HalfByteCost(ColdScalars(spec, oldPages, EarlyLayers(spec), spec.headSizeV), policy.earlyV);
    HalfByteCost(ColdScalars(spec, oldPages, LateLayers(spec), spec.headSizeK), policy.lateK);
    HalfByteCost(ColdScalars(spec, oldPages, LateLayers(spec), spec.headSizeV), policy.lateV);
  }

  /** The bound of two bytes is attained: one cold page of two layers of single scalars. */
  lemma TmhHalfByteExcessTight(policy: TmhPolicy, spec: PageSpec)
    requires spec == RawPageSpec.PageSpec(1, 2, 1, 1, 1, INT4, TmhFidelityPaged)
    requires policy == RawPolicy.TmhPolicy(0.0, 0, INT4, INT4, INT4, INT4)
    ensures var r := PolicyPressure(policy, spec, 1).value;
            r.tmhBytes == r.regularBytes + 2
  {
    hide PolicyPressure, OddTerms, Scale, OldPages, PagesForTokens, PageScalars;
    TmhHalfByteExcess(policy, spec, 1);
    OnePageIsCold(policy, spec);
    OddOnOnePage(spec);
  }

  lemma OnePageIsCold(policy: TmhPolicy, spec: PageSpec)
    requires spec.blockTokens == 1 && policy.hotBudgetPct == 0.0 && policy.anchorPages == 0
    ensures PagesForTokens(spec, 1) == Ok(1) && OldPages(policy, 1) == 1
  {
    assert Percent(1.0, 0.0) == 0.0;
  }

  lemma OddOnOnePage(spec: PageSpec)
    requires spec == RawPageSpec.PageSpec(1, 2, 1, 1, 1, INT4, TmhFidelityPaged)
    ensures OddTerms(spec, 1) == 4 && Scale(1, PageScalars(spec) % 2) == 0
  {
    assert EarlyLayers(spec) == 1 && LateLayers(spec) == 1;
    assert ColdScalars(spec, 1, 1, 1) == 1;
    assert PageScalars(spec) == 4;
  }

  // ---------------------------------------------------------------------------
  // Budget acceptance

  datatype Device = Device(totalMemoryBytes: int)

  function MemoryBudget(device: Device, utilization: real, reserveBytes: int): Outcome<int> {
    if !(0.0 < utilization <= 1.0) then Raised(InvalidConfiguration("gpu_memory_utilization must be in (0, 1]"))
    else
      var budget := (device.totalMemoryBytes as real * utilization).Floor - reserveBytes;
      if budget <= 0 then Raised(InvalidConfiguration("memory reserve exceeds usable device memory")) else Ok(budget)
  }

  datatype KvRequest = KvRequest(promptTokens: int, generatedTokens: int, slotMapping: seq<int>, blockTable: seq<int>) {
    function TotalTokens(): int { promptTokens + generatedTokens }
  }

  function ValidateRequest(request: KvRequest, spec: PageSpec): Outcome<()> {
    if request.promptTokens < 0 || request.generatedTokens < 0 then
      Raised(InvalidConfiguration("request token counts cannot be negative"))
    else
      var neededPages :- PagesForTokens(spec, request.TotalTokens());
      if |request.blockTable| < neededPages then
        Raised(InvalidConfiguration("block table is shorter than required pages"))
      else if |request.slotMapping| != request.TotalTokens() then
        Raised(InvalidConfiguration("slot mapping must contain one entry per token"))
      else if exists slot | slot in request.slotMapping :: slot < 0 then
        Raised(InvalidConfiguration("slot mapping cannot contain negative slots"))
      else Ok(())
  }

  datatype BudgetReport = BudgetReport(
    totalPages: nat, regularBytes: nat, requiredBytes: nat, budgetBytes: int, tmh: Types.Option<Pressure>)

  function RequiredBytes(spec: PageSpec, policy: Types.Option<TmhPolicy>, tokens: nat): nat {
    if policy.Some? && spec.layout == TmhFidelityPaged
    then PolicyPressure(policy.value, spec, tokens).value.tmhBytes
    else Scale(PageBytes(spec), PagesForTokens(spec, tokens).value)
  }

  function KvMemoryPressure(
      device: Device, spec: PageSpec, request: KvRequest, policy: Types.Option<TmhPolicy>,
      utilization: real, reserveBytes: int): (r: Outcome<BudgetReport>)
    ensures r.Ok? ==> 0 < r.value.budgetBytes && r.value.requiredBytes <= r.value.budgetBytes
  {
    var _ :- ValidateRequest(request, spec);
    var totalPages :- PagesForTokens(spec, request.TotalTokens());
    var regularBytes := Scale(PageBytes(spec), totalPages);
    var tmh: Types.Option<Pressure> :=
      if policy.Some? && spec.layout == TmhFidelityPaged
      then Types.Some(PolicyPressure(policy.value, spec, request.TotalTokens()).value)
      else Types.None;
    var requiredBytes := if tmh.Some? then tmh.value.tmhBytes else regularBytes;
    var budgetBytes :- MemoryBudget(device, utilization, reserveBytes);
    if requiredBytes > budgetBytes then Raised(CudaMemoryError(requiredBytes, budgetBytes))
    else Ok(BudgetReport(totalPages, regularBytes, requiredBytes, budgetBytes, tmh))
  }

  lemma PagesMonotone(spec: PageSpec, few: nat, many: nat)
    requires few <= many
    ensures PagesForTokens(spec, few).value <= PagesForTokens(spec, many).value
  {
    DivMonotone(Max(1, few) + spec.blockTokens - 1, Max(1, many) + spec.blockTokens - 1, spec.blockTokens);
  }

  lemma DivMonotone(a: nat, b: nat, d: int)
    requires a <= b && d > 0
    ensures a / d <= b / d
  {
    var p, q := a / d, b / d;
    assert p * d <= a <= b < q * d + d;
    MultipleBelow(p, q + 1, d);
  }

  lemma MultipleBelow(p: int, q: int, d: int)
    requires p * d < q * d && d > 0
    ensures p < q
  {
    assert (q - p) * d > 0;
  }

  lemma BytesMonotone(x: nat, y: nat, p: Precision)
    requires x <= y
    ensures BytesOf(x, p) <= BytesOf(y, p)
  {
    assert x * HalfBytes(p) <= y * HalfBytes(p);
  }

  /** More tokens never need fewer bytes, in either layout. */
  lemma RequiredBytesMonotone(spec: PageSpec, policy: Types.Option<TmhPolicy>, few: nat, many: nat)
    requires few <= many
    ensures RequiredBytes(spec, policy, few) <= RequiredBytes(spec, policy, many)
  {
    PagesMonotone(spec, few, many);
    var m, n := PagesForTokens(spec, few).value, PagesForTokens(spec, many).value;
    if policy.Some? && spec.layout == TmhFidelityPaged {
      var p := policy.value;
      SplitMonotone(p, m, n);
      HotPagesBounded(p, m);
      HotPagesBounded(p, n);
      ScaleMonotone(PageBytes(spec), HotPages(p, m), HotPages(p, n));
      ColdBytesMonotone(p, spec, OldPages(p, m), OldPages(p, n));
    } else {
      ScaleMonotone(PageBytes(spec), m, n);
    }
  }

  lemma ScaleMonotone(k: nat, a: nat, b: nat)
    requires a <= b
    ensures Scale(k, a) <= Scale(k, b)
  {
    assert k * b == k * a + k * (b - a);
  }

  lemma ColdBytesMonotone(policy: TmhPolicy, spec: PageSpec, few: nat, many: nat)
    requires few <= many
    ensures ColdBytes(policy, spec, few) <= ColdBytes(policy, spec, many)
  {
    ColdGroupMonotone(spec, few, many, EarlyLayers(spec), spec.headSizeK, policy.earlyK);
    ColdGroupMonotone(spec, few, many, EarlyLayers(spec), spec.headSizeV, policy.earlyV);
    ColdGroupMonotone(spec, few, many, LateLayers(spec), spec.headSizeK, policy.lateK);
    ColdGroupMonotone(spec, few, many, LateLayers(spec), spec.headSizeV, policy.lateV);
  }

  lemma ColdGroupMonotone(spec: PageSpec, few: nat, many: nat, layers: nat, headSize: nat, p: Precision)
    requires few <= many
    ensures BytesOf(ColdScalars(spec, few, layers, headSize), p) <=
              BytesOf(ColdScalars(spec, many, layers, headSize), p)
  {
    ScaleMonotone(spec.blockTokens, few, many);
    Product4Monotone(few * spec.blockTokens, many * spec.blockTokens, layers, spec.numKvHeads, headSize);
    BytesMonotone(ColdScalars(spec, few, layers, headSize), ColdScalars(spec, many, layers, headSize), p);
  }

  /** A request that truncates another one: fewer tokens on the same block table. */
  ghost predicate Truncates(short: KvRequest, long: KvRequest) {
    && short.promptTokens >= 0 && short.generatedTokens >= 0
    && short.TotalTokens() <= long.TotalTokens()
    && short.slotMapping <= long.slotMapping
    && |short.slotMapping| == short.TotalTokens()
    && short.blockTable == long.blockTable
  }

  /** Budget acceptance is downward closed in the token count. */
  lemma AcceptanceDownwardClosed(
      device: Device, spec: PageSpec, short: KvRequest, long: KvRequest, policy: Types.Option<TmhPolicy>,
      utilization: real, reserveBytes: int)
    requires KvMemoryPressure(device, spec, long, policy, utilization, reserveBytes).Ok?
    requires Truncates(short, long)
    ensures KvMemoryPressure(device, spec, short, policy, utilization, reserveBytes).Ok?
    ensures KvMemoryPressure(device, spec, short, policy, utilization, reserveBytes).value.requiredBytes
            <= KvMemoryPressure(device, spec, long, policy, utilization, reserveBytes).value.requiredBytes
  {
    TruncationValid(spec, short, long);
    RequiredBytesMonotone(spec, policy, short.TotalTokens(), long.TotalTokens());
    RequiredBytesReported(device, spec, short, policy, utilization, reserveBytes);
    RequiredBytesReported(device, spec, long, policy, utilization, reserveBytes);
  }

  lemma TruncationValid(spec: PageSpec, short: KvRequest, long: KvRequest)
    requires ValidateRequest(long, spec).Ok? && Truncates(short, long)
    ensures ValidateRequest(short, spec).Ok?
  {
    PagesMonotone(spec, short.TotalTokens(), long.TotalTokens());
    forall slot | slot in short.slotMapping ensures slot >= 0 {
      var i :| 0 <= i < |short.slotMapping| && short.slotMapping[i] == slot;
      assert long.slotMapping[i] == slot;
      assert slot in long.slotMapping;
    }
  }

  /** Acceptance in terms of the bytes a valid request needs. */
  lemma RequiredBytesReported(
      device: Device, spec: PageSpec, request: KvRequest, policy: Types.Option<TmhPolicy>,
      utilization: real, reserveBytes: int)
    requires ValidateRequest(request, spec).Ok? && MemoryBudget(device, utilization, reserveBytes).Ok?
    ensures var r := KvMemoryPressure(device, spec, request, policy, utilization, reserveBytes);
            var needed := RequiredBytes(spec, policy, request.TotalTokens());
            && (r.Ok? <==> needed <= MemoryBudget(device, utilization, reserveBytes).value)
            && (r.Ok? ==> r.value.requiredBytes == needed)
  {
  }
}
