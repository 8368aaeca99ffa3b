/**
 * The size a resized claim asks for: the current capacity plus the increase,
 * rounded up to a whole gibibyte, then clamped to the claim's ceiling
 * (cmd/reconcile.go, lines 140-144).
 */
module Growth {

  /** 1 << 30 bytes. */
  const GiB: int := 0x4000_0000

  predicate GiBAligned(n: int) {
    n % GiB == 0
  }

  /**
   * `int64(math.Ceil(float64(n) / (1 << 30))) << 30`, computed exactly: the
   * next multiple of a gibibyte at or above `n`.
   */
  function RoundUpToGiB(n: int): (r: int)
    ensures GiBAligned(r)
    ensures n <= r < n + GiB
  {
    ((n + GiB - 1) / GiB) * GiB
  }

  /** Rounding up never skips a gibibyte boundary: it is the least aligned size at or above `n`. */
  lemma RoundUpIsLeast(n: int, m: int)
    requires GiBAligned(m) && n <= m
    ensures RoundUpToGiB(n) <= m
  {
  }

  /** `if newStorage.Cmp(ceiling) > 0 { newStorage = &ceiling }`. */
  function ClampToCeiling(target: int, ceiling: int): (r: int)
    ensures r <= ceiling
    ensures r == ceiling <==> target >= ceiling
    ensures target <= ceiling ==> r == target
  {
    if target > ceiling then ceiling else target
  }

  /** The new storage request for a claim of `capacity` bytes below `ceiling`. */
  function NewStorageBytes(capacity: int, increase: int, ceiling: int): (r: int)
    ensures r <= ceiling
    ensures r == ceiling <==> RoundUpToGiB(capacity + increase) >= ceiling
    ensures r == ceiling || (GiBAligned(r) && capacity + increase <= r < capacity + increase + GiB)
    ensures capacity < ceiling && increase >= 0 ==> capacity <= r
    ensures capacity < ceiling && increase > 0 ==> capacity < r
  {
    ClampToCeiling(RoundUpToGiB(capacity + increase), ceiling)
  }
}
