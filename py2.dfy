/**
  * What the model borrows from Python 2: integer division on `int` operands,
  * which rounds toward negative infinity, and `None`.
  */
module Py2 {

  datatype Option<T> = None | Some(value: T)

  /** Python 2 `a / b` on two `int`s: the quotient rounded toward negative infinity. */
  function FloorDiv(a: int, b: int): (q: int)
    requires b != 0
    ensures b > 0 ==> b * q <= a < b * q + b
    ensures b < 0 ==> b * q + b < a <= b * q
  {
    if b > 0 then a / b else (-a) / (-b)
  }

  /** The bounds in FloorDiv's contract pin the quotient down. */
  lemma FloorDivUnique(a: int, b: int, q: int)
    requires b > 0 ==> b * q <= a < b * q + b
    requires b < 0 ==> b * q + b < a <= b * q
    requires b != 0
    ensures FloorDiv(a, b) == q
  {
    var r := FloorDiv(a, b);
    if r < q {
      MulMonotone(b, r + 1, q);
    } else if q < r {
      MulMonotone(b, q + 1, r);
    }
  }

  /** Multiplying by a fixed factor preserves (b > 0) or reverses (b < 0) the order. */
  lemma MulMonotone(b: int, x: int, y: int)
    requires x <= y
    ensures b >= 0 ==> b * x <= b * y
    ensures b <= 0 ==> b * y <= b * x
  {
    var d := y - x;
    assert b * y == b * x + b * d;
    if b >= 0 {
      MulNonNegative(b, d);
    } else {
      MulNonNegative(-b, d);
    }
  }

  lemma {:induction false} MulNonNegative(x: nat, y: nat)
    ensures x * y >= 0
  {
    if x > 0 {
      MulNonNegative(x - 1, y);
      assert x * y == (x - 1) * y + y;
    }
  }

  /** Adding k multiples of the divisor adds exactly k to the floor quotient. */
  lemma FloorDivShift(a: int, b: int, k: int)
    requires b != 0
    ensures FloorDiv(a + k * b, b) == FloorDiv(a, b) + k
  {
    var q := FloorDiv(a, b);
    assert b * (q + k) == b * q + k * b;
    FloorDivUnique(a + k * b, b, q + k);
  }

  /** With a positive divisor the floor quotient is monotone in the dividend. */
  lemma FloorDivMonotone(a: int, a': int, b: int)
    requires b > 0 && a <= a'
    ensures FloorDiv(a, b) <= FloorDiv(a', b)
  {
    var q, q' := FloorDiv(a, b), FloorDiv(a', b);
    if q' < q {
      MulMonotone(b, q' + 1, q);
    }
  }
}
