/**
 * Java's 32-bit `int`, as far as the selection counters need it: the value
 * range, the wrap-around of `AtomicInteger.getAndIncrement`, and the `%`
 * operator, which truncates toward zero (so its remainder takes the sign of
 * the dividend, unlike Dafny's Euclidean `%`).
 */
module JavaInt {

  const MIN_VALUE: int := -0x8000_0000
  const MAX_VALUE: int := 0x7FFF_FFFF

  /** A Java `int`. */
  newtype int32 = x: int | -0x8000_0000 <= x <= 0x7FFF_FFFF

  /**
   * The value an `AtomicInteger` holds after `getAndIncrement` when it held
   * `c`: `c + 1` in two's complement, so `MAX_VALUE` is followed by `MIN_VALUE`.
   */
  function Increment(c: int32): (r: int32)
    ensures (r as int - c as int - 1) % 0x1_0000_0000 == 0
    ensures c as int < MAX_VALUE ==> r as int == c as int + 1
  {
    if c as int == MAX_VALUE then MIN_VALUE as int32 else c + 1
  }

  /** Java's `a / n` for a positive divisor: division truncating toward zero. */
  function Quot(a: int, n: int): int
    requires n > 0
  {
    if a >= 0 then a / n else -((-a) / n)
  }

  /**
   * Java's `a % n` for a positive divisor. Section 15.17.3 of the Java
   * Language Specification defines it by `(a / n) * n + a % n == a`, with
   * a remainder that is never larger than the divisor in magnitude and
   * takes the sign of the dividend.
   */
  function Rem(a: int, n: int): (r: int)
    requires n > 0
    ensures -n < r < n
    ensures a >= 0 ==> r >= 0
    ensures a < 0 ==> r <= 0
    ensures Quot(a, n) * n + r == a
  {
    if a >= 0 then a % n else -((-a) % n)
  }
}
