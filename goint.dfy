/** Go's 64-bit integer arithmetic, written out over Dafny's unbounded integers. */
module GoInt {
  const TwoTo63: int := 0x8000_0000_0000_0000
  const TwoTo64: int := 0x1_0000_0000_0000_0000

  /** The values of Go's `int` on a 64-bit platform. */
  type Int64 = x: int | -TwoTo63 <= x < TwoTo63

  /** The `int` that Go's two's-complement arithmetic yields for the exact result `x`. */
  function Wrap(x: int): (r: Int64)
    ensures (x - r) % TwoTo64 == 0
    ensures -TwoTo63 <= x < TwoTo63 ==> r == x
  {
    var r := (x + TwoTo63) % TwoTo64 - TwoTo63;
    MultipleMod((x + TwoTo63) / TwoTo64);
    r
  }

  /** `uint64(x)`: the unsigned reading of the same 64 bits. */
  function ToUint64(x: Int64): (r: nat)
    ensures r < TwoTo64
    ensures (r - x) % TwoTo64 == 0
  {
    if x < 0 then x + TwoTo64 else x
  }

  lemma MultipleMod(q: int)
    ensures (q * TwoTo64) % TwoTo64 == 0
  {
  }

  /** Euclidean remainder by 2^64 ignores added multiples of 2^64. */
  lemma ModShift(y: int, q: int)
    ensures (y + q * TwoTo64) % TwoTo64 == y % TwoTo64
  {
    var d := y / TwoTo64;
    var m := y % TwoTo64;
    assert y + q * TwoTo64 == (d + q) * TwoTo64 + m;
  }

  /** Wrapping an intermediate sum does not change the wrapped total. */
  lemma WrapAdd(a: int, b: int)
    ensures Wrap(Wrap(a) + b) == Wrap(a + b)
  {
    var q := (a + TwoTo63) / TwoTo64;
    assert Wrap(a) == a - q * TwoTo64;
    ModShift(a + b + TwoTo63, -q);
  }
}
