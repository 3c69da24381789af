/** Rust's i8 and the `as i8` cast, which keeps the low eight bits of an
    integer and reads them as a two's-complement number. */
module Int8Cast {

  newtype Int8 = x: int | -128 <= x < 128

  /** n as i8: the representative of n modulo 256 in [-128, 128). */
  function AsI8(n: int): (r: Int8)
    ensures (r as int - n) % 256 == 0
  {
    (((n + 128) % 256) - 128) as Int8
  }

  /** Values that fit are unchanged; 128 wraps to -128 and 255 to -1. */
  lemma AsI8Examples()
    ensures forall n :: 0 <= n < 128 ==> AsI8(n) as int == n
    ensures AsI8(128) == -128 && AsI8(255) == -1 && AsI8(256) == 0
  {
  }

  /** The cast only depends on n modulo 256. */
  lemma AsI8Periodic(n: int)
    ensures AsI8(n + 256) == AsI8(n)
  {
  }
}
