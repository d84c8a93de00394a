/** Values that may be missing. Where the source divides a float by zero and
    gets NaN or an infinity, the model returns None. */
module Optional {
  datatype Option<T> = None | Some(value: T)
}

/** The C and C++ arithmetic the source relies on, written out over Dafny's
    unbounded integers and exact reals. */
module CArith {

  function Abs(n: int): nat
  {
    if n < 0 then -n else n
  }

  function Min(a: int, b: int): int
  {
    if a <= b then a else b
  }

  /** Integer `/` of C: the quotient is truncated toward zero (C11 6.5.5),
      unlike Dafny's Euclidean `/`. */
  function CDiv(a: int, b: int): (q: int)
    requires b != 0
    ensures a >= 0 && b > 0 ==> q == a / b
    ensures Abs(q) == NatDiv(Abs(a), Abs(b))
    ensures (a < 0) == (b < 0) ==> q >= 0
    ensures (a < 0) != (b < 0) ==> q <= 0
  {
    var m: int := NatDiv(Abs(a), Abs(b));
    if (a < 0) == (b < 0) then m else -m
  }

  /** Division of naturals, whose quotient is a natural. */
  function NatDiv(a: nat, b: nat): (q: nat)
    requires b > 0
    ensures q == a / b
  {
    a / b
  }

  /** Integer `%` of C: `a == CDiv(a, b) * b + CRem(a, b)`, and the remainder
      takes the sign of the dividend. */
  function CRem(a: int, b: int): (r: int)
    requires b != 0
    ensures a == CDiv(a, b) * b + r
    ensures Abs(r) < Abs(b)
    ensures r > 0 ==> a > 0
    ensures r < 0 ==> a < 0
    ensures a >= 0 && b > 0 ==> r == a % b
  {
    DivModAbs(Abs(a), Abs(b));
    a - CDiv(a, b) * b
  }

  lemma DivModAbs(a: nat, b: nat)
    requires b > 0
    ensures a - (a / b) * b == a % b
  {
  }

  /** Conversion of a floating value to an integer type in C and C++: the
      fractional part is discarded, that is, the value is truncated toward
      zero (C11 6.3.1.4). */
  function Trunc(r: real): (t: int)
    ensures r >= 0.0 ==> 0 <= t && t as real <= r < t as real + 1.0
    ensures r < 0.0 ==> t <= 0 && t as real - 1.0 < r <= t as real
  {
    if r >= 0.0 then r.Floor else -((-r).Floor)
  }

  /** Truncation is monotone. */
  lemma TruncMonotone(a: real, b: real)
    requires a <= b
    ensures Trunc(a) <= Trunc(b)
  {
  }
}
