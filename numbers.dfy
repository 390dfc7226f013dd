/**
 * Rust's fixed-width integer conversions, written out on unbounded integers: `as i32` keeps the
 * low 32 bits and reads them as a signed number; `as_i64` on a JSON number succeeds only for an
 * integer that fits in 64 signed bits.
 */
module Numbers {

  import opened Wrappers

  const I32Modulus := 0x1_0000_0000
  const I32Min := -0x8000_0000
  const I64Min := -0x8000_0000_0000_0000
  const I64Max := 0x7fff_ffff_ffff_ffff

  /** `as i32`: the number congruent to `n` modulo 2^32 in the signed 32-bit range. */
  function AsI32(n: int): (r: int)
    ensures I32Min <= r < I32Min + I32Modulus
    ensures I32Min <= n < I32Min + I32Modulus ==> r == n
    ensures (n - r) % I32Modulus == 0
  {
    var low := n % I32Modulus;
    if low < 0x8000_0000 then low else low - I32Modulus
  }

  /** `as_i64` on a JSON number: the integer it denotes when it is one and fits in an `i64`. */
  function AsI64(x: real): (r: Option<int>)
    ensures r.Some? <==> x == x.Floor as real && I64Min <= x.Floor <= I64Max
    ensures r.Some? ==> r.value as real == x
  {
    if x == x.Floor as real && I64Min <= x.Floor <= I64Max then Some(x.Floor) else None
  }

  /** 2^31 milliseconds or tokens read as an `i32` come out negative. */
  lemma AsI32WrapsAtTwoToThe31()
    ensures AsI32(0x8000_0000) == I32Min
    ensures AsI32(0x1_0000_0000 + 5) == 5
  {
  }
}
