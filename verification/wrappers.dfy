/** Shared value types and the small amount of real arithmetic the other modules use. */
module Wrappers {
  datatype Option<+T> = None | Some(value: T) {
    function GetOr(default: T): T {
      match this
      case Some(v) => v
      case None => default
    }
  }

  datatype Result<+T, +E> = Ok(value: T) | Err(error: E)
}

module Numbers {
  function Max(a: real, b: real): real { if a >= b then a else b }

  function Min(a: real, b: real): real { if a <= b then a else b }

  function Abs(a: real): real { if a >= 0.0 then a else -a }

  ghost predicate StrictlyIncreasing(xs: seq<real>) {
    forall i, j :: 0 <= i < j < |xs| ==> xs[i] < xs[j]
  }

  /** Sum of a sequence of amounts. */
  function Sum(xs: seq<real>): real {
    if xs == [] then 0.0 else Sum(xs[..|xs| - 1]) + xs[|xs| - 1]
  }

  lemma SumSnoc(xs: seq<real>, x: real)
    ensures Sum(xs + [x]) == Sum(xs) + x
  {
    assert (xs + [x])[..|xs|] == xs;
  }

  lemma {:induction false} SumAppend(xs: seq<real>, ys: seq<real>)
    ensures Sum(xs + ys) == Sum(xs) + Sum(ys)
  {
    if ys == [] {
      assert xs + ys == xs;
    } else {
      var n := |ys| - 1;
      assert xs + ys == (xs + ys[..n]) + [ys[n]];
      SumSnoc(xs + ys[..n], ys[n]);
      SumAppend(xs, ys[..n]);
    }
  }

  // ---- products of reals, one fact each, for proofs that must not meet raw nonlinear goals ----

  lemma MulPos(a: real, b: real)
    requires a > 0.0 && b > 0.0
    ensures a * b > 0.0
  {
  }

  lemma DivMul(x: real, y: real)
    requires y != 0.0
    ensures (x / y) * y == x
  {
  }

  /** a times b. Proofs hide its body and use the facts below, so that they stay linear. */
  function Mul(a: real, b: real): real { a * b }

  lemma MulAdd(a: real, b: real, d: real)
    ensures Mul(a + b, d) == Mul(a, d) + Mul(b, d)
    ensures Mul(d, a + b) == Mul(d, a) + Mul(d, b)
  {
  }

  lemma MulUnit(d: real)
    ensures Mul(0.0, d) == Mul(d, 0.0) == 0.0
    ensures Mul(1.0, d) == Mul(d, 1.0) == d
  {
  }

  lemma MulNeg(a: real, d: real)
    ensures Mul(-a, d) == Mul(a, -d) == -Mul(a, d)
  {
  }

  lemma MulSign(a: real, d: real)
    ensures a >= 0.0 && d >= 0.0 ==> Mul(a, d) >= 0.0
    ensures a > 0.0 && d > 0.0 ==> Mul(a, d) > 0.0
  {
  }

  /** An integer slope times a distance. */
  function Times(k: int, d: real): real { Mul(k as real, d) }

  lemma TimesAdd(k: int, m: int, d: real)
    ensures Times(k + m, d) == Times(k, d) + Times(m, d)
  {
    hide Mul;
    MulAdd(k as real, m as real, d);
  }

  lemma TimesOne(d: real)
    ensures Times(1, d) == d
  {
  }

  lemma TimesSign(k: int, d: real)
    requires d >= 0.0
    ensures k == 0 ==> Times(k, d) == 0.0
    ensures k > 0 ==> Times(k, d) >= d
    ensures k < 0 ==> Times(k, d) <= -d
    ensures d > 0.0 && k != 0 ==> Times(k, d) != 0.0
  {
    hide Mul;
    var r := k as real;
    MulUnit(d);
    if k > 0 {
      MulAdd(1.0, r - 1.0, d);
      MulSign(r - 1.0, d);
    } else if k < 0 {
      MulNeg(-r, d);
      MulAdd(1.0, -r - 1.0, d);
      MulSign(-r - 1.0, d);
    }
  }

  /** Along a line, the value moves one way only. */
  lemma TimesMono(k: int, d: real, w: real)
    requires d <= w
    ensures k >= 0 ==> Times(k, d) <= Times(k, w)
    ensures k <= 0 ==> Times(k, d) >= Times(k, w)
    ensures k != 0 && d < w ==> Times(k, d) != Times(k, w)
    ensures Times(k, 0.0) == 0.0
  {
    hide Mul;
    MulUnit(k as real);
    MulAdd(d, w - d, k as real);
    TimesSign(k, w - d);
  }

  /** Bounds on a quotient from bounds on the cross product. */
  lemma DivBounds(x: real, y: real, lo: real, hi: real)
    requires y > 0.0
    requires lo * y <= x <= hi * y
    ensures lo <= x / y <= hi
  {
    var q := x / y;
    DivMul(x, y);
    if q < lo {
      MulPos(lo - q, y);
      assert false;
    }
    if q > hi {
      MulPos(q - hi, y);
      assert false;
    }
  }
}
