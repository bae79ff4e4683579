/** The expiry analysis of a strategy: the grid, the curve and everything read off it, stated about the payoff. */
module Analysis {
  import opened Wrappers
  import opened Numbers
  import opened Strategy
  import opened Payoff
  import opened Breakeven
  import opened MaxPl
  import opened ProfitRanges
  import opened ProfitTail
  import Valuation

  method Analyze(legs: seq<Leg>, spot: real)
      returns (curve: seq<Point>, zeros: seq<real>, extremes: Extremes, profits: seq<Interval>)
    requires GridTop(legs, spot) > 0.0
    ensures forall i :: 0 <= i < |curve| ==> curve[i].pnl == PnlAt(legs, curve[i].spot)
    ensures StrictlyIncreasing(zeros)
    ensures forall z :: z in zeros ==> 0.0 <= z < GridTop(legs, spot) && PnlAt(legs, z) == 0.0
    ensures forall z :: IsolatedZero(legs, z) && z < GridTop(legs, spot) ==> z in zeros
    ensures Complete(legs, zeros) <==> TailSettled(legs, GridTop(legs, spot))
    ensures Correct(legs, extremes) <==>
            NetUpside(legs) == 0 || Abs(Times(NetUpside(legs), GridTop(legs, spot) / 160.0)) > TOL
    ensures ExactOn(legs, profits, GridTop(legs, spot)) <==>
            !(PnlAt(legs, GridPoint(159, GridTop(legs, spot))) == 0.0 && PnlAt(legs, GridTop(legs, spot)) > 0.0)
    ensures ExactEverywhere(legs, profits) <==>
            ExactOn(legs, profits, GridTop(legs, spot)) && TailSettled(legs, GridTop(legs, spot))
  {
    hide PnlAt, NetUpside, Times, Correct, Zeros, GridPoint, GridTop, NoKink, MaxPL, ProfitIntervals, ExactOn;
    hide ExactEverywhere, Complete, TailSettled, IsolatedZero;
    ghost var hi := GridTop(legs, spot);
    var grid := SpotGrid(legs, spot);
    curve := ExpirationCurve(legs, grid);
    CurveIsExact(legs, spot, grid);
    MaxPlExactIff(legs, spot, grid);
    zeros := Breakevens(curve);
    BreakevensSorted(curve, legs, hi);
    forall z
      ensures z in zeros ==> PnlAt(legs, z) == 0.0
      ensures IsolatedZero(legs, z) && z < hi ==> z in zeros
    {
      ReportedZero(curve, legs, hi, z);
    }
    extremes := MaxPL(curve);
    profits := ComputeProfitIntervals(curve);
    ProfitIntervalsExactIff(curve, legs, hi);
    ExactEverywhereIff(curve, legs, hi);
    CompleteIff(curve, legs, hi);
  }

  // ---- without live data ----

  /** `_anchor_spot`: the mean strike, or 100 without options. */
  function AnchorSpot(legs: seq<Leg>): real {
    if Strikes(legs) == [] then 100.0 else Sum(Strikes(legs)) / |Strikes(legs)| as real
  }

  /** The anchor is the mean: 100 without options, and otherwise the strikes add up to their number times it. */
  lemma AnchorIsMean(legs: seq<Leg>)
    ensures Strikes(legs) == [] ==> AnchorSpot(legs) == 100.0
    ensures AnchorSpot(legs) * |Strikes(legs)| as real == Sum(Strikes(legs))
  {
    if Strikes(legs) != [] { DivMul(Sum(Strikes(legs)), |Strikes(legs)| as real); }
  }

  function RiskReward(maxProfit: Option<real>, maxLoss: Option<real>): Option<real> {
    if maxProfit.None? || maxLoss.None? || maxLoss.value == 0.0 then None
    else Some(Abs(maxProfit.value) / Abs(maxLoss.value))
  }

  /** What the reported ratio says of the payoff over every spot: how far the best outcome is from zero, relative to
      the worst; absent exactly when one of them does not exist or the worst is zero. */
  ghost predicate IsRiskReward(legs: seq<Leg>, ratio: Option<real>) {
    && (ratio.None? <==> UnboundedAbove(legs) || UnboundedBelow(legs) || IsMinimum(legs, 0.0))
    && (ratio.Some? ==> exists best, worst ::
          IsMaximum(legs, best) && IsMinimum(legs, worst) && worst != 0.0 && ratio.value * Abs(worst) == Abs(best))
  }

  lemma RiskRewardOf(legs: seq<Leg>, r: Extremes)
    requires Correct(legs, r)
    ensures IsRiskReward(legs, RiskReward(r.maxProfit, r.maxLoss))
  {
    hide UnboundedAbove, UnboundedBelow, IsMaximum, IsMinimum;
    if r.maxLoss.Some? {
      OneMinimum(legs, r.maxLoss.value, 0.0);
      if r.maxProfit.Some? && r.maxLoss.value != 0.0 {
        DivMul(Abs(r.maxProfit.value), Abs(r.maxLoss.value));
      }
    } else {
      BoundedByMinimum(legs, 0.0);
    }
  }

  lemma OneMinimum(legs: seq<Leg>, m: real, k: real)
    requires IsMinimum(legs, m)
    ensures IsMinimum(legs, k) ==> k == m
  {
  }

  lemma BoundedByMinimum(legs: seq<Leg>, m: real)
    ensures IsMinimum(legs, m) ==> !UnboundedBelow(legs)
  {
    if IsMinimum(legs, m) { assert !Undercuts(legs, m); }
  }

  /** `analyze_pure`: the analysis around the mean strike, with the net premium and the ratio of the extremes. */
  method AnalyzePure(legs: seq<Leg>)
      returns (curve: seq<Point>, zeros: seq<real>, extremes: Extremes, premium: real, ratio: Option<real>)
    requires GridTop(legs, AnchorSpot(legs)) > 0.0
    ensures forall i :: 0 <= i < |curve| ==> curve[i].pnl == PnlAt(legs, curve[i].spot)
    ensures StrictlyIncreasing(zeros)
    ensures forall z :: z in zeros ==> 0.0 <= z < GridTop(legs, AnchorSpot(legs)) && PnlAt(legs, z) == 0.0
    ensures Complete(legs, zeros) <==> TailSettled(legs, GridTop(legs, AnchorSpot(legs)))
    ensures Correct(legs, extremes) <==>
            NetUpside(legs) == 0 || Abs(Times(NetUpside(legs), GridTop(legs, AnchorSpot(legs)) / 160.0)) > TOL
    ensures Correct(legs, extremes) ==> IsRiskReward(legs, ratio)
    ensures forall s :: PnlAt(legs, s) == PnlAt(Valuation.StripAll(legs), s) - premium
  {
    hide PnlAt, Correct, Complete, TailSettled, GridTop, NetUpside, Times, IsRiskReward;
    var profits: seq<Interval>;
    curve, zeros, extremes, profits := Analyze(legs, AnchorSpot(legs));
    premium := Valuation.NetPremium(legs);
    ratio := RiskReward(extremes.maxProfit, extremes.maxLoss);
    if Correct(legs, extremes) { RiskRewardOf(legs, extremes); }
  }

  /** One long share bought at 318 with spot 160: the grid ends at 320, 318 is its last point but one, and
      the profit above 318 goes unreported. */
  lemma ShareBoughtAtTheTie(grid: seq<real>)
    requires IsSpotGrid(grid, [EquityLeg(Buy, 1, Some(318.0))], 160.0)
    ensures |grid| > 0
    ensures var legs := [EquityLeg(Buy, 1, Some(318.0))];
      PnlAt(legs, 320.0) > 0.0 && !InSome(ProfitIntervals(ExpirationCurve(legs, grid)), 320.0)
  {
    var legs := [EquityLeg(Buy, 1, Some(318.0))];
    assert Strikes(legs) == [] && (forall s :: PnlAt(legs, s) == s - 318.0) by { assert legs[1..] == []; }
    CurveIsExact(legs, 160.0, grid);
    TieLosesTheEnd(ExpirationCurve(legs, grid), legs, 320.0);
  }

  /** One long share bought at 250 with spot 100: the grid ends at 200, so the breakeven at 250 is not reported
      and neither is the profit at 300. */
  lemma ShareBoughtPastTheGrid(grid: seq<real>)
    requires IsSpotGrid(grid, [EquityLeg(Buy, 1, Some(250.0))], 100.0)
    ensures |grid| >= 2
    ensures var legs := [EquityLeg(Buy, 1, Some(250.0))]; var curve := ExpirationCurve(legs, grid);
      && IsolatedZero(legs, 250.0) && 250.0 !in Zeros(curve)
      && PnlAt(legs, 300.0) > 0.0 && !InSome(ProfitIntervals(curve), 300.0)
      && !LastTie(curve)
  {
    var legs := [EquityLeg(Buy, 1, Some(250.0))];
    ShareLine();
    hide PnlAt, Zeros, GridPoint, NoKink, ProfitIntervals, InSome, IsolatedZero;
    var curve := ExpirationCurve(legs, grid);
    CurveIsExact(legs, 100.0, grid);
    BreakevensSorted(curve, legs, 200.0);
    ExactWithoutTie(curve, legs, 200.0);
    LastRangeShared(curve, legs, 200.0, 200.0, 300.0);
  }

  lemma ShareLine()
    ensures var legs := [EquityLeg(Buy, 1, Some(250.0))];
      && Strikes(legs) == [] && PnlAt(legs, 200.0) == -50.0 && PnlAt(legs, 300.0) == 50.0
      && IsolatedZero(legs, 250.0)
  {
    var legs := [EquityLeg(Buy, 1, Some(250.0))];
    assert legs[1..] == [];
    forall a, b ensures !FlatAround(legs, a, b, 250.0) {
      assert PnlAt(legs, a) == a - 250.0;
    }
  }
}
