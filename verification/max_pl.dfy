/** `max_pl`: the largest and smallest payoff over every spot price, read off the grid. */
module MaxPl {
  import opened Wrappers
  import opened Numbers
  import opened Strategy
  import opened Payoff

  datatype Extremes = Extremes(
    maxProfit: Option<real>, maxLoss: Option<real>, unboundedProfit: bool, unboundedLoss: bool)

  function MaxPnl(curve: seq<Point>): (m: real)
    requires curve != []
    ensures forall i :: 0 <= i < |curve| ==> curve[i].pnl <= m
    ensures exists i :: 0 <= i < |curve| && curve[i].pnl == m
  {
    if |curve| == 1 then curve[0].pnl
    else
      var m := MaxPnl(curve[1..]);
      assert forall i :: 1 <= i < |curve| ==> curve[i] == curve[1..][i - 1];
      if curve[0].pnl >= m then curve[0].pnl
      else
        assert exists i :: 0 <= i < |curve[1..]| && curve[1..][i].pnl == m;
        m
  }

  function MinPnl(curve: seq<Point>): (m: real)
    requires curve != []
    ensures forall i :: 0 <= i < |curve| ==> m <= curve[i].pnl
    ensures exists i :: 0 <= i < |curve| && curve[i].pnl == m
  {
    if |curve| == 1 then curve[0].pnl
    else
      var m := MinPnl(curve[1..]);
      assert forall i :: 1 <= i < |curve| ==> curve[i] == curve[1..][i - 1];
      if curve[0].pnl <= m then curve[0].pnl
      else
        assert exists i :: 0 <= i < |curve[1..]| && curve[1..][i].pnl == m;
        m
  }

  /** Needs two points: the source indexes the last two. */
  function MaxPL(curve: seq<Point>): Extremes
    requires |curve| >= 2
  {
    var rightSlope := curve[|curve| - 1].pnl - curve[|curve| - 2].pnl;
    var unboundedProfit := rightSlope > TOL;
    var unboundedLoss := rightSlope < -TOL;
    Extremes(
      if unboundedProfit then None else Some(MaxPnl(curve)),
      if unboundedLoss then None else Some(MinPnl(curve)),
      unboundedProfit, unboundedLoss)
  }

  // ---- what the fields promise, over every spot s >= 0 ----

  ghost predicate Exceeds(legs: seq<Leg>, m: real) { exists s :: s >= 0.0 && PnlAt(legs, s) > m }

  ghost predicate Undercuts(legs: seq<Leg>, m: real) { exists s :: s >= 0.0 && PnlAt(legs, s) < m }

  ghost predicate UnboundedAbove(legs: seq<Leg>) { forall m: real :: Exceeds(legs, m) }

  ghost predicate UnboundedBelow(legs: seq<Leg>) { forall m: real :: Undercuts(legs, m) }

  ghost predicate IsMaximum(legs: seq<Leg>, m: real) {
    && (forall s :: s >= 0.0 ==> PnlAt(legs, s) <= m)
    && exists s :: s >= 0.0 && PnlAt(legs, s) == m
  }

  ghost predicate IsMinimum(legs: seq<Leg>, m: real) {
    && (forall s :: s >= 0.0 ==> m <= PnlAt(legs, s))
    && exists s :: s >= 0.0 && PnlAt(legs, s) == m
  }

  ghost predicate Correct(legs: seq<Leg>, r: Extremes) {
    && (r.unboundedProfit <==> UnboundedAbove(legs))
    && (r.unboundedLoss <==> UnboundedBelow(legs))
    && (r.maxProfit.Some? <==> !UnboundedAbove(legs))
    && (r.maxLoss.Some? <==> !UnboundedBelow(legs))
    && (r.maxProfit.Some? ==> IsMaximum(legs, r.maxProfit.value))
    && (r.maxLoss.Some? ==> IsMinimum(legs, r.maxLoss.value))
  }

  // ---- proof ----

  lemma RisingTail(legs: seq<Leg>, curve: seq<Point>, hi: real)
    requires ExactCurve(curve, legs, hi)
    ensures NetUpside(legs) > 0 ==> UnboundedAbove(legs)
    ensures NetUpside(legs) < 0 ==> UnboundedBelow(legs)
  {
    hide PnlAt, NetUpside;
    var a := curve[|curve| - 2];
    assert a.spot >= 0.0;
    if NetUpside(legs) > 0 {
      forall m: real ensures Exceeds(legs, m) {
        var d := Max(m - a.pnl, 0.0) + 1.0;
        TailMoves(curve, legs, hi, d);
        assert PnlAt(legs, a.spot + d) > m;
      }
    }
    if NetUpside(legs) < 0 {
      forall m: real ensures Undercuts(legs, m) {
        var d := Max(a.pnl - m, 0.0) + 1.0;
        TailMoves(curve, legs, hi, d);
        assert PnlAt(legs, a.spot + d) < m;
      }
    }
  }

  /** Past the last but one grid point, the payoff moves with the sign of the tail slope, and
      by at least one unit per unit of spot when that slope is not zero. */
  lemma TailMoves(curve: seq<Point>, legs: seq<Leg>, hi: real, d: real)
    requires ExactCurve(curve, legs, hi) && d >= 0.0
    ensures var a, k := curve[|curve| - 2], NetUpside(legs);
      && (k == 0 ==> PnlAt(legs, a.spot + d) == a.pnl)
      && (k > 0 ==> PnlAt(legs, a.spot + d) >= a.pnl + d)
      && (k < 0 ==> PnlAt(legs, a.spot + d) <= a.pnl - d)
  {
    hide PnlAt, NetUpside, Times;
    BeyondGrid(curve, legs, hi, curve[|curve| - 2].spot + d);
    assert curve[|curve| - 2].spot + d - curve[|curve| - 2].spot == d;
    TimesSign(NetUpside(legs), d);
  }

  /** On a segment an affine function stays between its end values. */
  lemma BetweenEnds(curve: seq<Point>, legs: seq<Leg>, hi: real, i: nat, s: real)
    requires ExactCurve(curve, legs, hi) && i + 1 < |curve|
    requires curve[i].spot <= s <= curve[i + 1].spot
    ensures Min(curve[i].pnl, curve[i + 1].pnl) <= PnlAt(legs, s) <= Max(curve[i].pnl, curve[i + 1].pnl)
  {
    hide PnlAt, SlopeAt, Times;
    var a, b := curve[i].spot, curve[i + 1].spot;
    OnSegment(curve, legs, hi, i, s);
    OnSegment(curve, legs, hi, i, b);
    TimesMono(SlopeAt(legs, a), s - a, b - a);
    TimesMono(SlopeAt(legs, a), 0.0, s - a);
  }

  lemma WithinGridRange(curve: seq<Point>, legs: seq<Leg>, hi: real, s: real)
    requires ExactCurve(curve, legs, hi) && 0.0 <= s <= hi
    ensures MinPnl(curve) <= PnlAt(legs, s) <= MaxPnl(curve)
  {
    hide PnlAt;
    var i := SegmentOf(curve, s, |curve| - 1);
    BetweenEnds(curve, legs, hi, i, s);
    assert curve[i].pnl <= MaxPnl(curve) && curve[i + 1].pnl <= MaxPnl(curve);
    assert MinPnl(curve) <= curve[i].pnl && MinPnl(curve) <= curve[i + 1].pnl;
  }

  lemma WithinRange(curve: seq<Point>, legs: seq<Leg>, hi: real, s: real)
    requires ExactCurve(curve, legs, hi) && s >= 0.0
    ensures NetUpside(legs) <= 0 ==> PnlAt(legs, s) <= MaxPnl(curve)
    ensures NetUpside(legs) >= 0 ==> MinPnl(curve) <= PnlAt(legs, s)
  {
    hide PnlAt, NetUpside, NoKink, GridPoint, Strikes, MaxPnl, MinPnl;
    if s <= hi {
      WithinGridRange(curve, legs, hi, s);
    } else {
      TailMoves(curve, legs, hi, s - curve[|curve| - 2].spot);
      assert MinPnl(curve) <= curve[|curve| - 2].pnl <= MaxPnl(curve);
    }
  }

  lemma FlatOrFallingTail(curve: seq<Point>, legs: seq<Leg>, hi: real)
    requires ExactCurve(curve, legs, hi)
    ensures NetUpside(legs) <= 0 ==> IsMaximum(legs, MaxPnl(curve)) && !UnboundedAbove(legs)
    ensures NetUpside(legs) >= 0 ==> IsMinimum(legs, MinPnl(curve)) && !UnboundedBelow(legs)
  {
    hide PnlAt, NetUpside, NoKink, GridPoint, Strikes, MaxPnl, MinPnl;
    forall s | s >= 0.0
      ensures NetUpside(legs) <= 0 ==> PnlAt(legs, s) <= MaxPnl(curve)
      ensures NetUpside(legs) >= 0 ==> MinPnl(curve) <= PnlAt(legs, s)
    {
      WithinRange(curve, legs, hi, s);
    }
    var top :| 0 <= top < |curve| && curve[top].pnl == MaxPnl(curve);
    var bottom :| 0 <= bottom < |curve| && curve[bottom].pnl == MinPnl(curve);
    assert curve[top].spot >= 0.0 && PnlAt(legs, curve[top].spot) == MaxPnl(curve);
    assert curve[bottom].spot >= 0.0 && PnlAt(legs, curve[bottom].spot) == MinPnl(curve);
    if NetUpside(legs) <= 0 { assert !Exceeds(legs, MaxPnl(curve)); }
    if NetUpside(legs) >= 0 { assert !Undercuts(legs, MinPnl(curve)); }
  }

  lemma LastStep(curve: seq<Point>, legs: seq<Leg>, hi: real)
    requires ExactCurve(curve, legs, hi)
    ensures curve[|curve| - 1].pnl - curve[|curve| - 2].pnl == Times(NetUpside(legs), hi / 160.0)
  {
    hide PnlAt, NetUpside, Times;
    BeyondGrid(curve, legs, hi, hi);
    assert hi - curve[|curve| - 2].spot == hi / 160.0;
  }

  /** The report is correct exactly when its two flags have the sign of the tail slope. */
  lemma CorrectIffFlagsMatch(curve: seq<Point>, legs: seq<Leg>, hi: real)
    requires ExactCurve(curve, legs, hi)
    ensures var r, k := MaxPL(curve), NetUpside(legs);
      Correct(legs, r) <==> (r.unboundedProfit <==> k > 0) && (r.unboundedLoss <==> k < 0)
  {
    hide PnlAt, NetUpside, UnboundedAbove, UnboundedBelow, IsMaximum, IsMinimum, ExactCurve;
    RisingTail(legs, curve, hi);
    FlatOrFallingTail(curve, legs, hi);
  }

  /** The reported extremes are the payoff's true ones over [0, oo) exactly when the last grid step can
      see the tail: a non-zero integer tail slope must move the payoff by more than the tolerance. */
  lemma MaxPlExactIff(legs: seq<Leg>, spot: real, grid: seq<real>)
    requires GridTop(legs, spot) > 0.0 && IsSpotGrid(grid, legs, spot)
    ensures |grid| >= 2
    ensures Correct(legs, MaxPL(ExpirationCurve(legs, grid))) <==>
            NetUpside(legs) == 0 || Abs(Times(NetUpside(legs), GridTop(legs, spot) / 160.0)) > TOL
  {
    hide PnlAt, NetUpside, GridTop, Correct, Times, IsSpotGrid, MaxPL, GridPoint, NoKink;
    var hi := GridTop(legs, spot);
    var curve := ExpirationCurve(legs, grid);
    CurveIsExact(legs, spot, grid);
    CorrectIffFlagsMatch(curve, legs, hi);
    LastStep(curve, legs, hi);
    FlagsFromStep(curve, NetUpside(legs), hi / 160.0);
  }

  lemma FlagsFromStep(curve: seq<Point>, k: int, step: real)
    requires |curve| >= 2 && step > 0.0
    requires curve[|curve| - 1].pnl - curve[|curve| - 2].pnl == Times(k, step)
    ensures var r := MaxPL(curve);
      (r.unboundedProfit <==> k > 0) && (r.unboundedLoss <==> k < 0)
      <==> k == 0 || Abs(Times(k, step)) > TOL
  {
    hide Times;
    TimesSign(k, step);
  }

  /** Grids whose step exceeds the tolerance, so every realistic spot, are always exact. */
  lemma MaxPlExact(legs: seq<Leg>, spot: real, grid: seq<real>)
    requires GridTop(legs, spot) / 160.0 > TOL && IsSpotGrid(grid, legs, spot)
    ensures |grid| >= 2 && Correct(legs, MaxPL(ExpirationCurve(legs, grid)))
  {
    hide PnlAt, NetUpside, GridTop, Correct, Times;
    MaxPlExactIff(legs, spot, grid);
    TimesSign(NetUpside(legs), GridTop(legs, spot) / 160.0);
  }

  /** One long share priced at 0.00005: the last step moves the payoff by less than the tolerance,
      and an unbounded profit is reported as bounded. */
  lemma TinySpotIsMisread(grid: seq<real>)
    requires IsSpotGrid(grid, [EquityLeg(Buy, 1, None)], 0.00005)
    ensures |grid| >= 2
    ensures var legs := [EquityLeg(Buy, 1, None)];
      UnboundedAbove(legs) && !MaxPL(ExpirationCurve(legs, grid)).unboundedProfit
  {
    var legs := [EquityLeg(Buy, 1, None)];
    assert Strikes(legs) == [] by { assert legs[1..] == []; }
    assert NetUpside(legs) == 1 by { assert legs[1..] == []; }
    CurveIsExact(legs, 0.00005, grid);
    var curve := ExpirationCurve(legs, grid);
    RisingTail(legs, curve, GridTop(legs, 0.00005));
    LastStep(curve, legs, GridTop(legs, 0.00005));
  }

  /** One long share priced at 0.00016: the last step is two millionths, above the tolerance, and is read right. */
  lemma SmallSpotIsRead(grid: seq<real>)
    requires IsSpotGrid(grid, [EquityLeg(Buy, 1, None)], 0.00016)
    ensures |grid| >= 2 && MaxPL(ExpirationCurve([EquityLeg(Buy, 1, None)], grid)).unboundedProfit
  {
    var legs := [EquityLeg(Buy, 1, None)];
    assert Strikes(legs) == [] by { assert legs[1..] == []; }
    assert NetUpside(legs) == 1 by { assert legs[1..] == []; }
    CurveIsExact(legs, 0.00016, grid);
    LastStep(ExpirationCurve(legs, grid), legs, GridTop(legs, 0.00016));
  }
}
