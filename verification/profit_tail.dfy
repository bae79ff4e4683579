/** Past the end of the grid: when breakevens and profit ranges are right for every spot in [0, oo). */
module ProfitTail {
  import opened Numbers
  import opened Strategy
  import opened Payoff
  import opened Breakeven
  import opened ProfitRanges

  /** The payoff has no zero left to reach at or past hi: it is flat there, or moves away from zero. */
  predicate TailSettled(legs: seq<Leg>, hi: real) {
    || NetUpside(legs) == 0
    || (NetUpside(legs) > 0 && PnlAt(legs, hi) > 0.0)
    || (NetUpside(legs) < 0 && PnlAt(legs, hi) < 0.0)
  }

  /** The reported ranges are the profit set on all of [0, oo), breakeven points aside. */
  ghost predicate ExactEverywhere(legs: seq<Leg>, rs: seq<Interval>) {
    forall s :: 0.0 <= s && PnlAt(legs, s) != 0.0 ==> (InSome(rs, s) <==> PnlAt(legs, s) > 0.0)
  }

  /** Every isolated zero in [0, oo) is among the given ones. */
  ghost predicate Complete(legs: seq<Leg>, zeros: seq<real>) {
    forall z :: IsolatedZero(legs, z) ==> z in zeros
  }

  /** Past the last grid point but one the payoff is one line. */
  lemma TailLine(curve: seq<Point>, legs: seq<Leg>, hi: real, t: real, s: real)
    requires ExactCurve(curve, legs, hi) && curve[|curve| - 2].spot <= t <= s
    ensures var d := Times(NetUpside(legs), s - t);
      && PnlAt(legs, s) == PnlAt(legs, t) + d
      && (NetUpside(legs) == 0 ==> d == 0.0)
      && (NetUpside(legs) > 0 ==> d >= s - t)
      && (NetUpside(legs) < 0 ==> d <= -(s - t))
  {
    hide PnlAt, NetUpside, Times, NoKink, GridPoint;
    var a, k := curve[|curve| - 2].spot, NetUpside(legs);
    BeyondGrid(curve, legs, hi, t);
    BeyondGrid(curve, legs, hi, s);
    TimesSplit(k, t - a, s - t);
    assert t - a + (s - t) == s - a;
    TimesSign(k, s - t);
  }

  lemma TimesSplit(k: int, x: real, y: real)
    ensures Times(k, x + y) == Times(k, x) + Times(k, y)
  {
    hide Mul;
    MulAdd(x, y, k as real);
  }

  /** Two spots past every reported breakeven lie in the same, last range. */
  lemma LastRangeShared(curve: seq<Point>, legs: seq<Leg>, hi: real, x: real, y: real)
    requires ExactCurve(curve, legs, hi) && 0.0 <= x && 0.0 <= y
    requires forall z :: z in Zeros(curve) ==> z < x && z < y
    ensures InSome(ProfitIntervals(curve), x) <==> InSome(ProfitIntervals(curve), y)
  {
    hide PnlAt, NoKink, GridPoint, Zeros, Profitable, Covers;
    var bes, rs := Zeros(curve), Ranges(Zeros(curve));
    assert |rs| == |bes| + 1;
    hide Ranges;
    KeptIff(curve, rs, |bes| + 1, x);
    KeptIff(curve, rs, |bes| + 1, y);
    OnlyLastRange(bes, x);
    OnlyLastRange(bes, y);
  }

  lemma OnlyLastRange(bes: seq<real>, x: real)
    requires 0.0 <= x && forall z :: z in bes ==> z < x
    ensures forall m :: 0 <= m <= |bes| ==> (Covers(Ranges(bes)[m], x) <==> m == |bes|)
  {
    assert forall m :: 0 <= m < |bes| ==> bes[m] in bes;
  }

  lemma SettledIsExact(curve: seq<Point>, legs: seq<Leg>, hi: real)
    requires ExactCurve(curve, legs, hi) && !LastTie(curve) && TailSettled(legs, hi)
    ensures ExactEverywhere(legs, ProfitIntervals(curve))
  {
    hide PnlAt, NetUpside, Times, NoKink, GridPoint, Zeros, ProfitIntervals, InSome;
    ExactWithoutTie(curve, legs, hi);
    BreakevensSorted(curve, legs, hi);
    forall s | 0.0 <= s && PnlAt(legs, s) != 0.0
      ensures InSome(ProfitIntervals(curve), s) <==> PnlAt(legs, s) > 0.0
    {
      if s > hi {
        TailLine(curve, legs, hi, hi, s);
        LastRangeShared(curve, legs, hi, hi, s);
      }
    }
  }

  /** Just before a tail that still has to cross zero: a spot past every reported breakeven, on the wrong side. */
  lemma WrongSide(curve: seq<Point>, legs: seq<Leg>, hi: real) returns (x: real)
    requires ExactCurve(curve, legs, hi) && !TailSettled(legs, hi)
    ensures 0.0 <= x <= hi && forall z :: z in Zeros(curve) ==> z < x
    ensures if NetUpside(legs) > 0 then PnlAt(legs, x) < 0.0 else PnlAt(legs, x) > 0.0
  {
    hide PnlAt, NetUpside, Times, NoKink, GridPoint, Zeros;
    BreakevensSorted(curve, legs, hi);
    if PnlAt(legs, hi) != 0.0 {
      x := hi;
    } else {
      x := curve[|curve| - 2].spot;
      assert curve[0].spot < x < curve[|curve| - 1].spot;
      TailLine(curve, legs, hi, x, hi);
      forall z | z in Zeros(curve) ensures z < x {
        ReportedZero(curve, legs, hi, z);
        if z >= x { TailLine(curve, legs, hi, z, hi); }
      }
    }
  }

  lemma UnsettledIsWrong(curve: seq<Point>, legs: seq<Leg>, hi: real)
    requires ExactCurve(curve, legs, hi) && !TailSettled(legs, hi)
    ensures !ExactEverywhere(legs, ProfitIntervals(curve))
  {
    hide PnlAt, NetUpside, Times, NoKink, GridPoint, Zeros, ProfitIntervals, InSome, TailSettled;
    var x := WrongSide(curve, legs, hi);
    var far := hi + Abs(PnlAt(legs, hi)) + 1.0;
    BreakevensSorted(curve, legs, hi);
    TailSlope(legs, hi);
    TailLine(curve, legs, hi, hi, far);
    LastRangeShared(curve, legs, hi, x, far);
  }

  lemma TailSlope(legs: seq<Leg>, hi: real)
    ensures !TailSettled(legs, hi) ==> NetUpside(legs) != 0
  {
  }

  /** The reported ranges are the profit set on all of [0, oo) exactly when the last-range tie does not occur and
      the payoff is settled at the end of the grid. */
  lemma ExactEverywhereIff(curve: seq<Point>, legs: seq<Leg>, hi: real)
    requires ExactCurve(curve, legs, hi)
    ensures ExactEverywhere(legs, ProfitIntervals(curve)) <==> !LastTie(curve) && TailSettled(legs, hi)
  {
    hide PnlAt, NetUpside, NoKink, GridPoint, Zeros, ProfitIntervals, InSome, TailSettled;
    if !TailSettled(legs, hi) {
      UnsettledIsWrong(curve, legs, hi);
    } else if LastTie(curve) {
      TieLosesTheEnd(curve, legs, hi);
    } else {
      SettledIsExact(curve, legs, hi);
    }
  }

  // ---- breakevens ----

  lemma SettledIsComplete(curve: seq<Point>, legs: seq<Leg>, hi: real)
    requires ExactCurve(curve, legs, hi) && TailSettled(legs, hi)
    ensures Complete(legs, Zeros(curve))
  {
    hide PnlAt, NetUpside, Times, NoKink, GridPoint, Zeros;
    assert curve[|curve| - 2].spot < curve[|curve| - 1].spot;
    forall z | IsolatedZero(legs, z) ensures z in Zeros(curve) {
      ReportedZero(curve, legs, hi, z);
      if z >= hi {
        TailLine(curve, legs, hi, hi, z);
        if NetUpside(legs) == 0 { FlatTail(curve, legs, hi, z); }
      }
    }
  }

  lemma FlatTail(curve: seq<Point>, legs: seq<Leg>, hi: real, z: real)
    requires ExactCurve(curve, legs, hi) && NetUpside(legs) == 0 && z >= hi && PnlAt(legs, z) == 0.0
    ensures exists a, b :: FlatAround(legs, a, b, z)
  {
    hide PnlAt, NetUpside, Times, NoKink, GridPoint;
    var a := curve[|curve| - 2].spot;
    assert curve[0].spot < a < curve[|curve| - 1].spot;
    forall s | a <= s <= z + 1.0 ensures PnlAt(legs, s) == 0.0 {
      TailLine(curve, legs, hi, a, s);
      TailLine(curve, legs, hi, a, z);
    }
    assert FlatAround(legs, a, z + 1.0, z);
  }

  /** An unsettled tail crosses zero at or past hi, where no breakeven is ever reported. */
  lemma UnsettledLosesZero(curve: seq<Point>, legs: seq<Leg>, hi: real)
    requires ExactCurve(curve, legs, hi) && !TailSettled(legs, hi)
    ensures exists z :: z >= hi && IsolatedZero(legs, z) && z !in Zeros(curve)
  {
    hide PnlAt, NetUpside, Times, NoKink, GridPoint, Zeros;
    var k := NetUpside(legs);
    var z := hi + CrossingDistance(k, PnlAt(legs, hi));
    BreakevensSorted(curve, legs, hi);
    assert curve[|curve| - 2].spot < curve[|curve| - 1].spot;
    TailLine(curve, legs, hi, hi, z);
    assert z - hi == CrossingDistance(k, PnlAt(legs, hi));
    forall a, b ensures !FlatAround(legs, a, b, z) {
      if a < z < b { TailLine(curve, legs, hi, z, b); }
    }
    assert IsolatedZero(legs, z);
  }

  /** How far a line of slope k is from zero. */
  function CrossingDistance(k: int, p: real): (d: real)
    requires (k > 0 && p <= 0.0) || (k < 0 && p >= 0.0)
    ensures d >= 0.0 && p + Times(k, d) == 0.0
  {
    var d := -p / k as real;
    DivMul(-p, k as real);
    assert Times(k, d) == k as real * d;
    TimesMono(k, Min(d, 0.0), 0.0);
    d
  }

  /** Every isolated zero in [0, oo) is reported exactly when the payoff is settled at the end of the grid. */
  lemma CompleteIff(curve: seq<Point>, legs: seq<Leg>, hi: real)
    requires ExactCurve(curve, legs, hi)
    ensures Complete(legs, Zeros(curve)) <==> TailSettled(legs, hi)
  {
    hide PnlAt, NetUpside, NoKink, GridPoint, Zeros, TailSettled, IsolatedZero;
    if TailSettled(legs, hi) { SettledIsComplete(curve, legs, hi); } else { UnsettledLosesZero(curve, legs, hi); }
  }
}
