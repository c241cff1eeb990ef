/** Go's fixed-width integers and its `error` value, as the log writer and the
    etcd helpers use them. */
module GoTypes {

  /** One byte of a log record. */
  type Byte = b: int | 0 <= b < 256

  type Bytes = seq<Byte>

  const TwoTo63: int := 0x8000_0000_0000_0000
  const TwoTo64: int := 0x1_0000_0000_0000_0000
  const TwoTo32: int := 0x1_0000_0000

  /** Go's `int64` (and `int` on 64-bit platforms). */
  type Int64 = x: int | -0x8000_0000_0000_0000 <= x < 0x8000_0000_0000_0000

  /** Go's `uint32`. */
  type Uint32 = x: int | 0 <= x < 0x1_0000_0000

  /** Two's-complement truncation of a mathematical integer to 64 bits. */
  function Wrap64(x: int): (r: Int64)
    ensures (r - x) % TwoTo64 == 0
    ensures -TwoTo63 <= x < TwoTo63 ==> r == x
  {
    (x + TwoTo63) % TwoTo64 - TwoTo63
  }

  /** Go's `a * b` on `int64`: the product wraps around. */
  function Mul64(a: Int64, b: Int64): Int64 {
    Wrap64(a * b)
  }

  /** Go's `x++` on a `uint32`. */
  function Inc32(x: Uint32): (r: Uint32)
    ensures x < TwoTo32 - 1 ==> r == x + 1
    ensures x == TwoTo32 - 1 ==> r == 0
  {
    (x + 1) % TwoTo32
  }

  /** Wrapping is insensitive to adding multiples of 2^64. */
  lemma WrapShift(x: int, q: int)
    ensures Wrap64(x + q * TwoTo64) == Wrap64(x)
  {
  }

  /** Truncating an intermediate product does not change the truncated
      final product: Go's step-by-step `int64` multiplication agrees with one
      truncation of the exact product. */
  lemma WrapMul(x: int, k: int)
    ensures Wrap64(Wrap64(x) * k) == Wrap64(x * k)
  {
    var q := (x + TwoTo63) / TwoTo64;
    assert Wrap64(x) == x - q * TwoTo64;
    assert Wrap64(x) * k == x * k + (-q * k) * TwoTo64;
    WrapShift(x * k, -q * k);
  }

  /** Go's `error`: nil, or an error carrying its message. */
  datatype Error = Nil | Failure(msg: string)
}
