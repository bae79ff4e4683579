/** `probability_of_profit`: mass of the profitable ranges under a terminal-price distribution.
    The lognormal CDF is any function that behaves like one. */
module Pop {
  import opened Wrappers
  import opened Numbers
  import opened Strategy
  import opened Payoff
  import opened Breakeven
  import opened ProfitRanges

  type Cdf = real -> real

  ghost predicate IsCdf(f: Cdf) {
    && (forall s :: s <= 0.0 ==> f(s) == 0.0)
    && (forall s :: 0.0 <= f(s) <= 1.0)
    && (forall a, b :: a <= b ==> f(a) <= f(b))
  }

  function Mass(f: Cdf, r: Interval): real {
    (if r.hi.None? then 1.0 else f(r.hi.value)) - f(r.lo)
  }

  function MassUpTo(f: Cdf, rs: seq<Interval>, n: nat): real
    requires n <= |rs|
  {
    if n == 0 then 0.0 else MassUpTo(f, rs, n - 1) + Mass(f, rs[n - 1])
  }

  function TotalMass(f: Cdf, rs: seq<Interval>): real { MassUpTo(f, rs, |rs|) }

  /** The whole routine. The clamp to [0, 1] is the source's; IsCdf makes it idle (`ClampIsIdle`). */
  method ProbabilityOfProfit(spot: real, atmIv: real, tYears: real, f: Cdf, intervals: seq<Interval>)
      returns (pop: Option<real>)
    ensures pop.None? <==> tYears <= 0.0 || atmIv <= 0.0 || spot <= 0.0
    ensures pop.Some? ==> pop.value == Max(0.0, Min(1.0, TotalMass(f, intervals)))
  {
    if tYears <= 0.0 || atmIv <= 0.0 || spot <= 0.0 { return None; }
    var total := 0.0;
    for i := 0 to |intervals|
      invariant total == MassUpTo(f, intervals, i)
    {
      var upper := if intervals[i].hi.None? then 1.0 else f(intervals[i].hi.value);
      total := total + (upper - f(intervals[i].lo));
    }
    return Some(Max(0.0, Min(1.0, total)));
  }

  // ---- the ranges tile [0, oo), so no mass is counted twice ----

  /** The ranges profit_intervals leaves out. */
  ghost function Dropped(curve: seq<Point>, rs: seq<Interval>, n: nat): seq<Interval>
    requires curve != [] && n <= |rs|
  {
    if n == 0 then []
    else Dropped(curve, rs, n - 1) + (if Profitable(curve, rs[n - 1]) then [] else [rs[n - 1]])
  }

  ghost function Losses(curve: seq<Point>): seq<Interval>
    requires curve != []
  {
    Dropped(curve, Ranges(Zeros(curve)), |Zeros(curve)| + 1)
  }

  lemma {:induction false} MassUpToPrefix(f: Cdf, rs: seq<Interval>, more: seq<Interval>, n: nat)
    requires n <= |rs|
    ensures MassUpTo(f, rs + more, n) == MassUpTo(f, rs, n)
  {
    if n > 0 { MassUpToPrefix(f, rs, more, n - 1); }
  }

  lemma MassSnoc(f: Cdf, rs: seq<Interval>, r: Interval)
    ensures TotalMass(f, rs + [r]) == TotalMass(f, rs) + Mass(f, r)
  {
    MassUpToPrefix(f, rs, [r], |rs|);
  }

  /** Kept and dropped ranges share out the mass of the ranges they come from. */
  lemma {:induction false} MassSplits(f: Cdf, curve: seq<Point>, rs: seq<Interval>, n: nat)
    requires curve != [] && n <= |rs|
    ensures TotalMass(f, Keep(curve, rs, n)) + TotalMass(f, Dropped(curve, rs, n)) == MassUpTo(f, rs, n)
  {
    hide Profitable, Mass;
    if n > 0 {
      hide TotalMass;
      MassSplits(f, curve, rs, n - 1);
      var kept, dropped, r := Keep(curve, rs, n - 1), Dropped(curve, rs, n - 1), rs[n - 1];
      MassSnoc(f, kept, r);
      MassSnoc(f, dropped, r);
      assert kept + [] == kept && dropped + [] == dropped;
    }
  }

  lemma {:induction false} RangesTelescope(f: Cdf, bes: seq<real>, n: nat)
    requires IsCdf(f) && n <= |bes|
    ensures MassUpTo(f, Ranges(bes), n) == if n == 0 then 0.0 else f(bes[n - 1])
  {
    if n > 0 { RangesTelescope(f, bes, n - 1); }
  }

  lemma {:induction false} NonNegativeMass(f: Cdf, rs: seq<Interval>, n: nat)
    requires n <= |rs| && forall i :: 0 <= i < |rs| ==> Mass(f, rs[i]) >= 0.0
    ensures MassUpTo(f, rs, n) >= 0.0
  {
    if n > 0 { NonNegativeMass(f, rs, n - 1); }
  }

  lemma {:induction false} Selected(curve: seq<Point>, rs: seq<Interval>, n: nat)
    requires curve != [] && n <= |rs|
    ensures forall r :: r in Keep(curve, rs, n) ==> r in rs
    ensures forall r :: r in Dropped(curve, rs, n) ==> r in rs
  {
    if n > 0 { Selected(curve, rs, n - 1); }
  }

  /** Every range of a payoff curve has non-negative mass. */
  lemma RangeMass(f: Cdf, curve: seq<Point>, legs: seq<Leg>, hi: real, r: Interval)
    requires IsCdf(f) && ExactCurve(curve, legs, hi) && r in Ranges(Zeros(curve))
    ensures Mass(f, r) >= 0.0
  {
    hide PnlAt, NoKink, GridPoint, Zeros;
    var bes := Zeros(curve);
    BreakevensSorted(curve, legs, hi);
    var k :| 0 <= k <= |bes| && Ranges(bes)[k] == r;
    if k < |bes| { assert bes[k] in bes; }
    assert r.hi.Some? ==> r.lo <= r.hi.value;
  }

  /** Profit mass and loss mass are both non-negative and add up to exactly one. */
  lemma PopTelescopes(f: Cdf, curve: seq<Point>, legs: seq<Leg>, hi: real)
    requires IsCdf(f) && ExactCurve(curve, legs, hi)
    ensures TotalMass(f, ProfitIntervals(curve)) + TotalMass(f, Losses(curve)) == 1.0
    ensures TotalMass(f, ProfitIntervals(curve)) >= 0.0 && TotalMass(f, Losses(curve)) >= 0.0
  {
    hide PnlAt, NoKink, GridPoint, Zeros, Profitable, IsCdf;
    var bes, rs := Zeros(curve), Ranges(Zeros(curve));
    MassSplits(f, curve, rs, |rs|);
    RangesTelescope(f, bes, |bes|);
    Selected(curve, rs, |rs|);
    forall r | r in rs ensures Mass(f, r) >= 0.0 { RangeMass(f, curve, legs, hi, r); }
    NonNegativeMass(f, ProfitIntervals(curve), |ProfitIntervals(curve)|);
    NonNegativeMass(f, Losses(curve), |Losses(curve)|);
    WholeMass(f, bes);
  }

  lemma WholeMass(f: Cdf, bes: seq<real>)
    requires IsCdf(f)
    ensures TotalMass(f, Ranges(bes)) == 1.0
  {
    RangesTelescope(f, bes, |bes|);
  }

  /** The clamp never changes a probability computed from a strategy's own profit ranges. */
  lemma ClampIsIdle(f: Cdf, curve: seq<Point>, legs: seq<Leg>, hi: real)
    requires IsCdf(f) && ExactCurve(curve, legs, hi)
    ensures var pop := TotalMass(f, ProfitIntervals(curve)); Max(0.0, Min(1.0, pop)) == pop
  {
    PopTelescopes(f, curve, legs, hi);
  }
}
