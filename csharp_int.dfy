/** The parts of C#'s 32-bit integer arithmetic that the model relies on. */
module CSharpInt {

  /** A C# `int`. */
  newtype int32 = x: int | -0x8000_0000 <= x < 0x8000_0000

  const Int32Min: int := -0x8000_0000
  const Int32Max: int := 0x7fff_ffff

  function Abs(a: int): nat {
    if a < 0 then -a else a
  }

  /** Unchecked C# `int` arithmetic: the mathematical value reduced into the int range. */
  function Wrap32(v: int): (r: int32)
    ensures (r as int - v) % 0x1_0000_0000 == 0
    ensures Int32Min <= v <= Int32Max ==> r as int == v
  {
    ((v - Int32Min) % 0x1_0000_0000 + Int32Min) as int32
  }

  /** C# `a / b` on integers: the quotient is truncated toward zero. */
  function Div(a: int, b: int): (q: int)
    requires b != 0
    ensures a >= 0 && b > 0 ==> q == a / b
    ensures Abs(a - b * q) < Abs(b)
    ensures a - b * q == 0 || (a - b * q < 0 <==> a < 0)
  {
    var q := if (a < 0) == (b < 0) then Abs(a) / Abs(b) else -(Abs(a) / Abs(b));
    DivFacts(a, b, q);
    q
  }

  /** C# `a % b` on integers (the remainder of `Math.DivRem`): it takes the sign of `a`. */
  function Rem(a: int, b: int): (r: int)
    requires b != 0
    ensures a == b * Div(a, b) + r
    ensures Abs(r) < Abs(b)
    ensures r == 0 || (r < 0 <==> a < 0)
  {
    a - b * Div(a, b)
  }

  lemma DivFacts(a: int, b: int, q: int)
    requires b != 0
    requires q == if (a < 0) == (b < 0) then Abs(a) / Abs(b) else -(Abs(a) / Abs(b))
    ensures a >= 0 && b > 0 ==> q == a / b
    ensures Abs(a - b * q) < Abs(b)
    ensures a - b * q == 0 || (a - b * q < 0 <==> a < 0)
  {
    DivFactsOf(a, b, q, Abs(a) / Abs(b), Abs(a) % Abs(b));
  }

  /** `DivFacts` for a quotient magnitude `m` and remainder `rm` already known, with no division left. */
  lemma DivFactsOf(a: int, b: int, q: int, m: int, rm: int)
    requires b != 0 && 0 <= m && Abs(a) == Abs(b) * m + rm && 0 <= rm < Abs(b)
    requires q == if (a < 0) == (b < 0) then m else -m
    ensures Abs(a - b * q) < Abs(b)
    ensures a - b * q == 0 || (a - b * q < 0 <==> a < 0)
  {
    var p := Abs(b) * m;
    assert b * q == (if a < 0 then -p else p) by {
      assert Abs(q) == m;
      SignedProduct(b, q);
    }
    RemainderSign(a, Abs(b), b * q, p, rm);
  }

  /** A remainder of magnitude below the divisor's, taking the sign of the dividend. */
  lemma RemainderSign(a: int, d: int, product: int, p: int, rm: int)
    requires 0 <= rm < d
    requires Abs(a) == p + rm
    requires product == (if a < 0 then -p else p)
    ensures Abs(a - product) < d
    ensures a - product == 0 || (a - product < 0 <==> a < 0)
  {
  }

  /** The product's magnitude is the product of the magnitudes, with the sign it must have. */
  lemma SignedProduct(b: int, q: int)
    ensures b * q == (if (b < 0) == (q < 0) then Abs(b) * Abs(q) else -(Abs(b) * Abs(q)))
  {
  }
}
