/** The slice of Go's sync/atomic package the proxy uses: a 64-bit counter. */
module Atomic {

  const TwoTo64: int := 0x1_0000_0000_0000_0000

  /** Go's int64: two's-complement 64-bit integers. */
  newtype int64 = x: int | -0x8000_0000_0000_0000 <= x < 0x8000_0000_0000_0000

  const MinInt64: int64 := -0x8000_0000_0000_0000
  const MaxInt64: int64 := 0x7fff_ffff_ffff_ffff

  /** atomic.AddInt64: adds `delta` to the counter and returns the new value.
      Go's integer addition wraps around modulo 2^64. */
  function AddInt64(x: int64, delta: int64): (r: int64)
    ensures (r as int - (x as int + delta as int)) % TwoTo64 == 0
    ensures MinInt64 as int <= x as int + delta as int <= MaxInt64 as int ==> r as int == x as int + delta as int
  {
    var s := x as int + delta as int;
    if s > MaxInt64 as int then (s - TwoTo64) as int64
    else if s < MinInt64 as int then (s + TwoTo64) as int64
    else s as int64
  }
}
