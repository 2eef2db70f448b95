/** Values shared by every module. */
module Basics {
  datatype Option<+T> = None | Some(value: T)

  datatype Result<+T, +E> = Ok(value: T) | Err(error: E)

  /** Nanoseconds, for instants and for durations. */
  type Time = int
}

/** Go's int64: two's-complement wrap-around and a quotient that truncates. */
module Int64 {
  const TWO_63 := 0x8000_0000_0000_0000
  const TWO_64 := 0x1_0000_0000_0000_0000

  predicate Fits(x: int) {
    -TWO_63 <= x < TWO_63
  }

  /** The int64 that x wraps around to. */
  function Wrap(x: int): (r: int)
    ensures Fits(r)
    ensures Fits(x) ==> r == x
    decreases if Fits(x) then 0 else if x < 0 then -x else x
  {
    if x >= TWO_63 then Wrap(x - TWO_64) else if x < -TWO_63 then Wrap(x + TWO_64) else x
  }

  /** Wrapping changes x by a multiple of 2^64 only. */
  lemma {:induction false} WrapCongruent(x: int)
    ensures (x - Wrap(x)) % TWO_64 == 0
    decreases if Fits(x) then 0 else if x < 0 then -x else x
  {
    if x >= TWO_63 {
      WrapCongruent(x - TWO_64);
    } else if x < -TWO_63 {
      WrapCongruent(x + TWO_64);
    }
  }

  /** Wrap is the one int64 that is congruent to x modulo 2^64. */
  lemma WrapIsTheCongruent(x: int, y: int)
    ensures Wrap(x) == y <==> Fits(y) && (x - y) % TWO_64 == 0
  {
    WrapCongruent(x);
    if Fits(y) && (x - y) % TWO_64 == 0 {
      assert (Wrap(x) - y) % TWO_64 == 0;
    }
  }

  function Quo(a: int, b: int): int
    requires b > 0
  {
    if a >= 0 then a / b else -((-a) / b)
  }
}
