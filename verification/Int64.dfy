/** Go's int64 arithmetic, chosen explicitly wherever the ledger adds or subtracts. */
module Int64 {
  const TWO_64: int := 0x1_0000_0000_0000_0000
  const MIN_INT64: int := -0x8000_0000_0000_0000
  const MAX_INT64: int := 0x7FFF_FFFF_FFFF_FFFF

  /** `Wrapping` is what the Go code does; `Exact` is the unbounded arithmetic it stands for. */
  datatype Arith = Exact | Wrapping

  predicate InRange(x: int) {
    MIN_INT64 <= x <= MAX_INT64
  }

  /**
   * The int64 that a two's-complement machine stores for x, when x is the sum or difference of two
   * int64 values: the only integer in range that differs from x by a multiple of 2^64.
   */
  function Wrap(x: int): (r: int)
    ensures MIN_INT64 - TWO_64 <= x <= MAX_INT64 + TWO_64 ==> InRange(r)
    ensures r == x - TWO_64 || r == x || r == x + TWO_64
  {
    if x > MAX_INT64 then x - TWO_64
    else if x < MIN_INT64 then x + TWO_64
    else x
  }

  function Norm(arith: Arith, x: int): (r: int)
    ensures arith.Exact? || InRange(x) ==> r == x
  {
    if arith.Exact? then x else Wrap(x)
  }
}
