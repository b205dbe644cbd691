/** Go's int64: exact while in range, two's complement beyond. */
module Int64 {
  const MAX_INT64: int := 0x7fff_ffff_ffff_ffff
  const TWO_64: int := 0x1_0000_0000_0000_0000

  function Wrap64(n: int): (r: int)
    ensures -MAX_INT64 - 1 <= r <= MAX_INT64
    ensures -MAX_INT64 - 1 <= n <= MAX_INT64 ==> r == n
    ensures MAX_INT64 < n <= 2 * MAX_INT64 ==> r == n - TWO_64
  {
    (n + MAX_INT64 + 1) % TWO_64 - MAX_INT64 - 1
  }
}
