/** Go's `int64`: its range and the two's-complement wrap-around of its arithmetic. */
module Int64 {

  const MIN: int := -0x8000_0000_0000_0000
  const MAX: int := 0x7fff_ffff_ffff_ffff
  const MODULUS: int := 0x1_0000_0000_0000_0000

  predicate InRange(x: int) {
    MIN <= x <= MAX
  }

  /** The int64 value that Go's wrapping arithmetic leaves for the exact result `x`:
      the one value in range congruent to `x` modulo 2^64. */
  function Wrap(x: int): (r: int)
    ensures InRange(r)
    ensures (x - r) % MODULUS == 0
    ensures InRange(x) ==> r == x
  {
    var m := x % MODULUS;
    if m <= MAX then m else m - MODULUS
  }

  /** Go's `a - b` on int64 operands. */
  function Sub(a: int, b: int): (r: int)
    requires InRange(a) && InRange(b)
    ensures InRange(r)
    ensures (a - b - r) % MODULUS == 0
    ensures r == a - b <==> InRange(a - b)
  {
    Wrap(a - b)
  }

  /** Go's `a * b` on int64 operands: the exact product only when that fits. */
  function Mul(a: int, b: int): (r: int)
    requires InRange(a) && InRange(b)
    ensures InRange(r)
    ensures (a * b - r) % MODULUS == 0
    ensures r == a * b <==> InRange(a * b)
  {
    Wrap(a * b)
  }
}
