/**
 18-decimal fixed-point arithmetic, with the rounding of the source: unsigned division rounds down, signed
 division (Solidity's and BigInt's alike) rounds toward zero.
 */
module FixedPoint {

  /** 1.0 in 18 decimals. */
  const W: int := 1_000_000_000_000_000_000

  /** 100% in basis points. */
  const BPS: int := 10000

  function Abs(x: int): nat {
    if x < 0 then -x else x
  }

  /** Signed division. */
  function Trunc(a: int, b: int): (q: int)
    requires b > 0
    ensures 0 <= a ==> 0 <= q && q * b <= a < q * b + b
    ensures a <= 0 ==> q <= 0 && q * b - b < a <= q * b
  {
    if a >= 0 then a / b else -(-a / b)
  }

  function MulFp(a: nat, b: nat): nat {
    a * b / W
  }

  function DivFp(a: nat, b: nat): nat
    requires b > 0
  {
    a * W / b
  }

  function MulDiv(a: nat, b: nat, denominator: nat): nat
    requires denominator > 0
  {
    a * b / denominator
  }

  function MulFpSigned(a: int, b: int): int {
    Trunc(a * b, W)
  }

  function DivFpSigned(a: int, b: int): int
    requires b > 0
  {
    Trunc(a * W, b)
  }

  // ---------------------------------------------------------------- rounding

  lemma Scale(a: int, b: int, c: int)
    requires a <= b && 0 <= c
    ensures a * c <= b * c
  {
  }

  lemma Cancel(a: int, b: int, c: int)
    requires c > 0
    ensures a * c <= b * c <==> a <= b
    ensures a * c < b * c <==> a < b
  {
    if a <= b { Scale(a, b, c); } else { Scale(b + 1, a, c); }
    if a < b { Scale(a + 1, b, c); } else { Scale(b, a, c); }
  }

  lemma TruncNegates(a: int, b: int)
    requires b > 0
    ensures Trunc(-a, b) == -Trunc(a, b)
  {
  }

  /** How the quotient of a number compares with `q` can be read off the product `q * b`. */
  lemma TruncBound(a: int, b: int, q: int)
    requires b > 0
    ensures 0 <= a ==> (q * b <= a <==> q <= Trunc(a, b))
    ensures a <= 0 ==> (a <= q * b <==> Trunc(a, b) <= q)
  {
    hide Trunc;
    var t := Trunc(a, b);
    if t <= q { Scale(t, q, b); } else { Scale(q + 1, t, b); }
    if q <= t { Scale(q, t, b); } else { Scale(t + 1, q, b); }
  }

  lemma TruncMonotone(a: int, a': int, b: int)
    requires b > 0 && a <= a'
    ensures Trunc(a, b) <= Trunc(a', b)
  {
    hide Trunc;
    if a >= 0 { TruncBound(a', b, Trunc(a, b)); }
    else if a' <= 0 { TruncBound(a, b, Trunc(a', b)); }
  }

  lemma Ratio(a: nat, b: nat, q: int)
    requires b > 0 && q == a / b
    ensures q * b <= a < q * b + b
  {
  }

  lemma ExactQuotient(q: nat, b: nat)
    requires b > 0
    ensures q * b / b == q
  {
    Ratio(q * b, b, q * b / b);
    Cancel(q * b / b, q, b);
    Cancel(q, q * b / b + 1, b);
  }
}
