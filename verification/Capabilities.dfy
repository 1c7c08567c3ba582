/** Shared primitives of the CUDA shim: raised errors and alignment. */
module Capabilities {

  datatype ShimError =
    | InvalidConfiguration(reason: string)
    | CudaMemoryError(required: int, available: int)

  datatype Outcome<+T> = Ok(value: T) | Raised(error: ShimError) {
    predicate IsFailure() { Raised? }
    function PropagateFailure<U>(): Outcome<U> requires Raised? { Raised(error) }
    function Extract(): T requires Ok? { value }
  }

  /** The least multiple of `alignment` that is not below `value`. */
  function RoundUp(value: int, alignment: int): (r: Outcome<int>)
    ensures r.Ok? <==> alignment > 0
    ensures r.Ok? ==> value <= r.value < value + alignment && r.value % alignment == 0
  {
    if alignment <= 0 then Raised(InvalidConfiguration("alignment must be positive"))
    else
      var chunks := (value + alignment - 1) / alignment;
      assert (chunks * alignment) % alignment == 0 by { MultipleHasNoRemainder(chunks, alignment); }
      Ok(chunks * alignment)
  }

  lemma MultipleHasNoRemainder(k: int, d: int)
    requires d > 0
    ensures (k * d) % d == 0
  {
    var q, r := (k * d) / d, (k * d) % d;
    assert k * d == d * q + r;
    assert (k - q) * d == r;
    SmallMultiple(k - q, d);
  }

  lemma SmallMultiple(j: int, d: int)
    requires d > 0 && 0 <= j * d < d
    ensures j == 0
  {
    Positive(j, d);
    assert (1 - j) * d == d - j * d;
    Positive(1 - j, d);
    assert j == 1 ==> j * d == d;
  }

  lemma Positive(j: int, d: int)
    requires d > 0 && j * d > -d
    ensures j >= 0
  {
    if j < 0 {
      NonPositiveProduct(j + 1, d);
      assert false;
    }
  }

  lemma NonPositiveProduct(a: int, d: int)
    requires a <= 0 && d > 0
    ensures a * d <= 0
  {
  }
}
