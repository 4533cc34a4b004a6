/** Java value shapes shared by the model: nullable references and `int` arithmetic. */
module Common {

  /** A Java reference that may be null, or a call that may throw (None). */
  datatype Option<+T> = None | Some(value: T)

  /** A computation that yields a value or an error. */
  datatype Result<+T, +E> = Ok(value: T) | Err(error: E)

  const IntMin: int := -0x8000_0000
  const IntMax: int := 0x7fff_ffff
  const IntRange: int := 0x1_0000_0000

  /** Java `int`. */
  type Int32 = x: int | IntMin <= x <= IntMax

  /** A Java `int` result of arithmetic whose mathematical value is `x`:
      two's-complement wrap-around modulo 2^32. */
  function WrapInt(x: int): (r: Int32)
    ensures (x - r) % IntRange == 0
    ensures IntMin <= x <= IntMax ==> r == x
  {
    (x - IntMin) % IntRange + IntMin
  }

  /** Java `String.startsWith`. */
  predicate StartsWith(s: string, prefix: string)
  {
    |prefix| <= |s| && s[..|prefix|] == prefix
  }
}
