/** The CUDA virtual-memory pool: a bump allocator whose unmapped ranges stay holes. */
module MemoryPool {
  import opened Capabilities

  const VMM_GRANULARITY := 2 * 1024 * 1024

  datatype Allocation = Allocation(base: int, size: int, mapped: bool) {
    function End(): int { base + size }
  }

  function MappedBytes(s: seq<Allocation>): int {
    if s == [] then 0 else (if s[0].mapped then s[0].size else 0) + MappedBytes(s[1..])
  }

  function HoleBytes(s: seq<Allocation>): int {
    if s == [] then 0 else (if s[0].mapped then 0 else s[0].size) + HoleBytes(s[1..])
  }

  function MaxEnd(s: seq<Allocation>): int
    requires s != []
  {
    if |s| == 1 then s[0].End()
    else if s[0].End() >= MaxEnd(s[1..]) then s[0].End() else MaxEnd(s[1..])
  }

  /** One past the highest address ever handed out. */
  function HighWater(s: seq<Allocation>): int {
    if s == [] then 0 else MaxEnd(s)
  }

  function FirstIndex(s: seq<Allocation>, a: Allocation): (i: nat)
    requires a in s
    ensures i < |s| && s[i] == a && a !in s[..i]
  {
    if s[0] == a then 0
    else
      assert s == [s[0]] + s[1..];
      var i := FirstIndex(s[1..], a);
      assert s[..i + 1] == [s[0]] + s[1..][..i];
      1 + i
  }

  /** The pool as a value; the class below changes one in place. */
  datatype Pool = Pool(usableBytes: int, chunkBytes: int, allocations: seq<Allocation>) {
    function FreeBytes(): int { usableBytes - MappedBytes(allocations) }
  }

  datatype Operation = Reserve(requested: int) | Unmap(target: Allocation)

  function Size(p: Pool, requested: int): Outcome<int> {
    if requested <= 0 then Raised(InvalidConfiguration("allocation size must be positive"))
    else
      var size :- RoundUp(requested, p.chunkBytes);
      if size > p.FreeBytes() then Raised(CudaMemoryError(size, p.FreeBytes())) else Ok(size)
  }

  function Reserved(p: Pool, requested: int): Pool {
    match Size(p, requested)
    case Raised(_) => p
    case Ok(size) => p.(allocations := p.allocations + [Allocation(HighWater(p.allocations), size, true)])
  }

  function Unmapped(p: Pool, target: Allocation): Pool {
    if target !in p.allocations then p
    else p.(allocations := p.allocations[FirstIndex(p.allocations, target) := target.(mapped := false)])
  }

  function Apply(p: Pool, op: Operation): Pool {
    match op
    case Reserve(n) => Reserved(p, n)
    case Unmap(a) => Unmapped(p, a)
  }

  function Run(p: Pool, ops: seq<Operation>): Pool
    decreases ops
  {
    if ops == [] then p else Run(Apply(p, ops[0]), ops[1..])
  }

  // ---------------------------------------------------------------------------
  // The mutable pool

  class CudaMemoryPool {
    const usableBytes: int
    const chunkBytes: int
    var allocations: seq<Allocation>

    ghost function Value(): Pool
      reads this
    {
      Pool(usableBytes, chunkBytes, allocations)
    }

    constructor (usableBytes: int, chunkBytes: int)
      ensures Value() == Pool(usableBytes, chunkBytes, [])
    {
      this.usableBytes := usableBytes;
      this.chunkBytes := chunkBytes;
      allocations := [];
    }

    /** Construction is refused beyond the device memory or off the mapping granularity. */
    static method Create(deviceBytes: int, usableBytes: int, chunkBytes: int) returns (r: Outcome<CudaMemoryPool>)
      ensures r.Ok? <==> usableBytes <= deviceBytes && chunkBytes % VMM_GRANULARITY == 0
      ensures r.Ok? ==> fresh(r.value) && r.value.Value() == Pool(usableBytes, chunkBytes, [])
    {
      if usableBytes > deviceBytes {
        return Raised(InvalidConfiguration("pool usable bytes exceed device memory"));
      }
      if chunkBytes % VMM_GRANULARITY != 0 {
        return Raised(InvalidConfiguration("CUDA VMM chunks must respect allocation granularity"));
      }
      var pool := new CudaMemoryPool(usableBytes, chunkBytes);
      return Ok(pool);
    }

    method Reserve(requested: int) returns (r: Outcome<Allocation>)
      modifies this`allocations
      ensures Value() == Apply(old(Value()), Operation.Reserve(requested))
      ensures r.Ok? <==> Size(old(Value()), requested).Ok?
      ensures r.Raised? ==> r.error == Size(old(Value()), requested).error && allocations == old(allocations)
      ensures r.Ok? ==> r.value.base == HighWater(old(allocations)) && allocations == old(allocations) + [r.value]
    {
      if requested <= 0 {
        return Raised(InvalidConfiguration("allocation size must be positive"));
      }
      var size :- RoundUp(requested, chunkBytes);
      var free := usableBytes - MappedBytes(allocations);
      if size > free {
        return Raised(CudaMemoryError(size, free));
      }
      var base := if allocations == [] then 0 else MaxEnd(allocations);
      var allocation := Allocation(base, size, true);
      allocations := allocations + [allocation];
      return Ok(allocation);
    }

    method Unmap(target: Allocation) returns (r: Outcome<()>)
      modifies this`allocations
      ensures Value() == Apply(old(Value()), Operation.Unmap(target))
      ensures r.Ok? <==> target in old(allocations)
      ensures r.Raised? ==> allocations == old(allocations)
    {
      if target !in allocations {
        return Raised(InvalidConfiguration("allocation is not owned by this pool"));
      }
      var index := FirstIndex(allocations, target);
      allocations := allocations[index := Allocation(target.base, target.size, false)];
      return Ok(());
    }
  }

  // ---------------------------------------------------------------------------
  // Every run

  /** Allocations tile the addresses from zero upwards, in positive multiples of the chunk. */
  ghost predicate Tiles(s: seq<Allocation>, chunk: int) {
    && (forall i :: 0 <= i < |s| ==> chunk > 0 && s[i].size > 0 && s[i].size % chunk == 0)
    && (s != [] ==> s[0].base == 0)
    && (forall i :: 0 < i < |s| ==> s[i].base == s[i - 1].End())
  }

  ghost predicate Inv(p: Pool) {
    Tiles(p.allocations, p.chunkBytes) && MappedBytes(p.allocations) <= p.usableBytes
  }

  lemma {:induction false} EndsAscend(s: seq<Allocation>, chunk: int, i: nat, j: nat)
    requires Tiles(s, chunk) && i < j < |s|
    ensures s[i].End() <= s[j].base
    decreases j
  {
    if i < j - 1 {
      EndsAscend(s, chunk, i, j - 1);
      assert s[j - 1].size > 0;
    }
  }

  lemma {:induction false} MaxEndIsLast(s: seq<Allocation>)
    requires s != [] && (forall i :: 0 <= i < |s| ==> s[i].End() <= s[|s| - 1].End())
    ensures MaxEnd(s) == s[|s| - 1].End()
  {
    if |s| > 1 {
      MaxEndIsLast(s[1..]);
    }
  }

  lemma HighWaterIsLastEnd(s: seq<Allocation>, chunk: int)
    requires Tiles(s, chunk) && s != []
    ensures HighWater(s) == s[|s| - 1].End()
  {
    forall i | 0 <= i < |s| ensures s[i].End() <= s[|s| - 1].End() {
      if i < |s| - 1 {
        EndsAscend(s, chunk, i, |s| - 1);
        assert s[|s| - 1].size > 0;
      }
    }
    MaxEndIsLast(s);
  }

  lemma {:induction false} SumsSplit(s: seq<Allocation>, t: seq<Allocation>)
    ensures MappedBytes(s + t) == MappedBytes(s) + MappedBytes(t)
    ensures HoleBytes(s + t) == HoleBytes(s) + HoleBytes(t)
  {
    if s == [] {
      assert s + t == t;
    } else {
      assert (s + t)[1..] == s[1..] + t;
      SumsSplit(s[1..], t);
    }
  }

  lemma UpdateSums(s: seq<Allocation>, i: nat)
    requires i < |s|
    ensures var t := s[i := s[i].(mapped := false)];
            && MappedBytes(t) == MappedBytes(s) - (if s[i].mapped then s[i].size else 0)
            && HoleBytes(t) == HoleBytes(s) + (if s[i].mapped then s[i].size else 0)
  {
    var t := s[i := s[i].(mapped := false)];
    assert s == s[..i] + ([s[i]] + s[i + 1..]);
    assert t == s[..i] + ([t[i]] + s[i + 1..]);
    SumsSplit(s[..i], [s[i]] + s[i + 1..]);
    SumsSplit(s[..i], [t[i]] + s[i + 1..]);
    SumsSplit([s[i]], s[i + 1..]);
    SumsSplit([t[i]], s[i + 1..]);
  }

  lemma ReserveKeepsInv(p: Pool, requested: int)
    requires Inv(p)
    ensures Inv(Reserved(p, requested))
  {
    var q := Reserved(p, requested);
    if Size(p, requested).Ok? {
      var a := q.allocations[|p.allocations|];
      SumsSplit(p.allocations, [a]);
      if p.allocations != [] {
        HighWaterIsLastEnd(p.allocations, p.chunkBytes);
      }
      forall i | 0 < i < |q.allocations| ensures q.allocations[i].base == q.allocations[i - 1].End() {
        if i < |p.allocations| {
          assert q.allocations[i] == p.allocations[i] && q.allocations[i - 1] == p.allocations[i - 1];
        }
      }
    }
  }

  lemma UnmapKeepsInv(p: Pool, target: Allocation)
    requires Inv(p)
    ensures Inv(Unmapped(p, target))
  {
    if target in p.allocations {
      var i := FirstIndex(p.allocations, target);
      UpdateSums(p.allocations, i);
      var t := Unmapped(p, target).allocations;
      forall j | 0 < j < |t| ensures t[j].base == t[j - 1].End() {
        assert t[j].base == p.allocations[j].base && t[j - 1].End() == p.allocations[j - 1].End();
      }
    }
  }

  lemma {:induction false} RunKeepsInv(p: Pool, ops: seq<Operation>)
    requires Inv(p)
    ensures Inv(Run(p, ops))
    decreases ops
  {
    if ops != [] {
      match ops[0] {
        case Reserve(n) => ReserveKeepsInv(p, n);
        case Unmap(a) => UnmapKeepsInv(p, a);
      }
      RunKeepsInv(Apply(p, ops[0]), ops[1..]);
    }
  }

  lemma {:induction false} SumsAreHighWater(s: seq<Allocation>, chunk: int)
    requires Tiles(s, chunk)
    ensures MappedBytes(s) + HoleBytes(s) == HighWater(s)
  {
    if s != [] {
      var n := |s| - 1;
      var front := s[..n];
      assert s == front + [s[n]];
      assert Tiles(front, chunk);
      SumsAreHighWater(front, chunk);
      SumsSplit(front, [s[n]]);
      HighWaterIsLastEnd(s, chunk);
      if front != [] {
        HighWaterIsLastEnd(front, chunk);
        assert s[n].base == s[n - 1].End();
      }
    }
  }

  /** From an empty pool, whatever is reserved and unmapped: ranges tile the address
      space below the high-water mark without gap or overlap, mapped bytes stay within
      the usable bytes, and mapped bytes plus holes are the high-water mark. */
  lemma PoolInvariant(usable: int, chunk: int, ops: seq<Operation>)
    requires usable >= 0
    ensures var p := Run(Pool(usable, chunk, []), ops);
            && Tiles(p.allocations, p.chunkBytes)
            && 0 <= MappedBytes(p.allocations) <= usable
            && MappedBytes(p.allocations) + HoleBytes(p.allocations) == HighWater(p.allocations)
            && (forall i, j :: 0 <= i < j < |p.allocations| ==> p.allocations[i].End() <= p.allocations[j].base)
  {
    var empty := Pool(usable, chunk, []);
    var p := Run(empty, ops);
    RunKeepsInv(empty, ops);
    RunContinues(empty, ops);
    SumsAreHighWater(p.allocations, p.chunkBytes);
    MappedNonNegative(p.allocations);
    forall i, j | 0 <= i < j < |p.allocations| ensures p.allocations[i].End() <= p.allocations[j].base {
      EndsAscend(p.allocations, p.chunkBytes, i, j);
    }
  }

  lemma {:induction false} MappedNonNegative(s: seq<Allocation>)
    requires forall i :: 0 <= i < |s| ==> s[i].size > 0
    ensures MappedBytes(s) >= 0
  {
    if s != [] { MappedNonNegative(s[1..]); }
  }

  /** `q` continues `p`: earlier ranges keep their place and are never mapped again. */
  ghost predicate Continues(p: Pool, q: Pool) {
    && |p.allocations| <= |q.allocations|
    && forall i :: 0 <= i < |p.allocations| ==>
                     && q.allocations[i].base == p.allocations[i].base
                     && q.allocations[i].size == p.allocations[i].size
                     && (q.allocations[i].mapped ==> p.allocations[i].mapped)
  }

  lemma {:induction false} RunContinues(p: Pool, ops: seq<Operation>)
    ensures Continues(p, Run(p, ops))
    ensures Run(p, ops).usableBytes == p.usableBytes && Run(p, ops).chunkBytes == p.chunkBytes
    decreases ops
  {
    if ops != [] {
      RunContinues(Apply(p, ops[0]), ops[1..]);
    }
  }

  /** Addresses are never reused: whatever is reserved in a later run lies wholly above every
      range that was ever reserved before, mapped or not. */
  lemma AddressesNeverReused(p: Pool, ops: seq<Operation>, i: nat, k: nat)
    requires Inv(p) && i < |p.allocations| <= k < |Run(p, ops).allocations|
    ensures p.allocations[i].End() <= Run(p, ops).allocations[k].base
  {
    var q := Run(p, ops);
    RunKeepsInv(p, ops);
    RunContinues(p, ops);
    assert q.allocations[i].End() == p.allocations[i].End();
    EndsAscend(q.allocations, q.chunkBytes, i, k);
  }
}
