/** Expiry payoff of a strategy and its gridded curve. */
module Payoff {
  import opened Numbers
  import opened Strategy

  const TOL := 0.000001
  const POINTS := 161

  datatype Point = Point(spot: real, pnl: real)

  function LegPnl(leg: Leg, s: real): real {
    match leg
    case OptionLeg(kind, side, strike, _, qty, entryPrice) =>
      var intrinsic := if kind.Call? then Max(s - strike, 0.0) else Max(strike - s, 0.0);
      side.Sign() as real * (intrinsic - entryPrice.GetOr(0.0)) * OPTION_MULTIPLIER as real * qty as real
    case EquityLeg(side, qty, entryPrice) =>
      side.Sign() as real * (s - entryPrice.GetOr(0.0)) * qty as real
    case CashLeg(_) => 0.0
  }

  /** The true expiry P&L at spot s. */
  function PnlAt(legs: seq<Leg>, s: real): real {
    if legs == [] then 0.0 else LegPnl(legs[0], s) + PnlAt(legs[1..], s)
  }

  function ExpirationCurve(legs: seq<Leg>, grid: seq<real>): seq<Point> {
    seq(|grid|, i requires 0 <= i < |grid| => Point(grid[i], PnlAt(legs, grid[i])))
  }

  function Strikes(legs: seq<Leg>): seq<real> {
    if legs == [] then []
    else (if legs[0].OptionLeg? then [legs[0].strike] else []) + Strikes(legs[1..])
  }

  function MaxFrom(first: real, rest: seq<real>): (m: real)
    ensures m == first || m in rest
    ensures first <= m && forall x :: x in rest ==> x <= m
  {
    if rest == [] then first
    else
      assert rest == [rest[0]] + rest[1..];
      Max(rest[0], MaxFrom(first, rest[1..]))
  }

  function GridTop(legs: seq<Leg>, spot: real): real {
    MaxFrom(spot, Strikes(legs)) * 2.0
  }

  function GridPoint(i: nat, hi: real): real {
    i as real * (hi / (POINTS - 1) as real)
  }

  ghost function GridValues(legs: seq<Leg>, spot: real): set<real> {
    var hi := GridTop(legs, spot);
    (set i: nat | i < POINTS :: GridPoint(i, hi)) + (set x | x in Strikes(legs) && 0.0 <= x <= hi)
  }

  /** What `sorted(set(...))` leaves: the grid values once each, in order. */
  ghost predicate IsSpotGrid(grid: seq<real>, legs: seq<Leg>, spot: real) {
    StrictlyIncreasing(grid) && forall x :: x in grid <==> x in GridValues(legs, spot)
  }

  /** `sorted(set(xs))`. */
  method SortedDistinct(xs: seq<real>) returns (ys: seq<real>)
    ensures StrictlyIncreasing(ys)
    ensures forall x :: x in ys <==> x in xs
  {
    ys := [];
    for i := 0 to |xs|
      invariant StrictlyIncreasing(ys)
      invariant forall x :: x in ys <==> x in xs[..i]
    {
      var k := 0;
      while k < |ys| && ys[k] < xs[i]
        invariant 0 <= k <= |ys|
        invariant forall j :: 0 <= j < k ==> ys[j] < xs[i]
      {
        k := k + 1;
      }
      if k == |ys| || ys[k] != xs[i] {
        ghost var was := ys;
        ys := ys[..k] + [xs[i]] + ys[k..];
        assert forall x :: x in ys <==> x in was || x == xs[i] by {
          assert was == was[..k] + was[k..];
        }
      }
      assert xs[..i + 1] == xs[..i] + [xs[i]];
    }
    assert xs[..|xs|] == xs;
  }

  method SpotGrid(legs: seq<Leg>, spot: real) returns (grid: seq<real>)
    ensures IsSpotGrid(grid, legs, spot)
  {
    hide GridPoint, GridTop, Strikes;
    var strikes := Strikes(legs);
    var hi := GridTop(legs, spot);
    var points: seq<real> := [];
    for i := 0 to POINTS
      invariant forall x :: x in points <==> x in (set j: nat | j < i :: GridPoint(j, hi))
    {
      points := points + [GridPoint(i, hi)];
    }
    for i := 0 to |strikes|
      invariant forall x :: x in points <==>
        x in (set j: nat | j < POINTS :: GridPoint(j, hi)) || (x in strikes[..i] && 0.0 <= x <= hi)
    {
      assert strikes[..i + 1] == strikes[..i] + [strikes[i]];
      if 0.0 <= strikes[i] <= hi {
        points := points + [strikes[i]];
      }
    }
    assert strikes[..|strikes|] == strikes;
    grid := SortedDistinct(points);
  }

  // ---- between kinks the payoff is affine with an integer slope ----

  /** No option strike lies strictly between a and b. */
  ghost predicate NoKink(legs: seq<Leg>, a: real, b: real) {
    forall x :: x in Strikes(legs) ==> !(a < x < b)
  }

  function LegSlope(leg: Leg, a: real): int {
    match leg
    case OptionLeg(kind, side, strike, _, qty, _) =>
      if kind.Call? then (if strike <= a then side.Sign() * OPTION_MULTIPLIER * qty else 0)
      else (if strike <= a then 0 else -side.Sign() * OPTION_MULTIPLIER * qty)
    case EquityLeg(side, qty, _) => side.Sign() * qty
    case CashLeg(_) => 0
  }

  /** Slope of the payoff just to the right of a. */
  function SlopeAt(legs: seq<Leg>, a: real): int {
    if legs == [] then 0 else LegSlope(legs[0], a) + SlopeAt(legs[1..], a)
  }

  /** Net share-equivalents above every strike: calls and stock, never puts. */
  function NetUpside(legs: seq<Leg>): int {
    if legs == [] then 0
    else
      (match legs[0]
       case OptionLeg(kind, side, _, _, qty, _) => if kind.Call? then side.Sign() * OPTION_MULTIPLIER * qty else 0
       case EquityLeg(side, qty, _) => side.Sign() * qty
       case CashLeg(_) => 0)
      + NetUpside(legs[1..])
  }

  lemma LegAffine(leg: Leg, a: real, s: real)
    requires a <= s
    requires leg.OptionLeg? ==> !(a < leg.strike < s)
    ensures LegPnl(leg, s) == LegPnl(leg, a) + Times(LegSlope(leg, a), s - a)
  {
    match leg
    case OptionLeg(kind, side, strike, _, qty, entryPrice) =>
      var e := entryPrice.GetOr(0.0);
      var q := qty as real;
      if side.Buy? {
        if kind.Call? {
          if strike <= a { assert LegSlope(leg, a) as real == 100.0 * q; }
        } else {
          if strike > a { assert LegSlope(leg, a) as real == -100.0 * q; }
        }
      } else {
        if kind.Call? {
          if strike <= a { assert LegSlope(leg, a) as real == -100.0 * q; }
        } else {
          if strike > a { assert LegSlope(leg, a) as real == 100.0 * q; }
        }
      }
    case EquityLeg(_, _, _) =>
    case CashLeg(_) =>
  }

  lemma {:induction false} PnlAffine(legs: seq<Leg>, a: real, s: real)
    requires a <= s && NoKink(legs, a, s)
    ensures PnlAt(legs, s) == PnlAt(legs, a) + Times(SlopeAt(legs, a), s - a)
  {
    hide LegPnl, LegSlope, Times;
    if legs == [] {
      TimesSign(0, s - a);
    } else {
      assert forall x :: x in Strikes(legs[1..]) ==> x in Strikes(legs);
      if legs[0].OptionLeg? { assert legs[0].strike in Strikes(legs); }
      LegAffine(legs[0], a, s);
      PnlAffine(legs[1..], a, s);
      TimesAdd(LegSlope(legs[0], a), SlopeAt(legs[1..], a), s - a);
    }
  }

  lemma {:induction false} SlopeAboveStrikes(legs: seq<Leg>, a: real)
    requires forall x :: x in Strikes(legs) ==> x <= a
    ensures SlopeAt(legs, a) == NetUpside(legs)
  {
    if legs != [] {
      assert forall x :: x in Strikes(legs[1..]) ==> x in Strikes(legs);
      if legs[0].OptionLeg? { assert legs[0].strike in Strikes(legs); }
      SlopeAboveStrikes(legs[1..], a);
    }
  }

  // ---- the grid sees every kink ----

  /** A curve that samples the true payoff so that every piece between neighbours is affine. */
  ghost predicate ExactCurve(curve: seq<Point>, legs: seq<Leg>, hi: real) {
    var n := |curve|;
    && n >= 4 && hi > 0.0
    && (forall i, j :: 0 <= i < j < n ==> curve[i].spot < curve[j].spot)
    && (forall i :: 0 <= i < n ==> curve[i].pnl == PnlAt(legs, curve[i].spot))
    && curve[0].spot == 0.0 && curve[n - 1].spot == hi && curve[n - 2].spot == GridPoint(POINTS - 2, hi)
    && (forall i :: 0 <= i < n - 1 ==> NoKink(legs, curve[i].spot, curve[i + 1].spot))
    && (forall x :: x in Strikes(legs) ==> x <= curve[n - 2].spot)
    && exists i :: 0 < i < n - 1 && curve[i].spot == hi / 2.0
  }

  lemma GridPointMono(i: nat, j: nat, hi: real)
    requires i < j && hi > 0.0
    ensures GridPoint(i, hi) < GridPoint(j, hi)
  {
    var step := hi / 160.0;
    MulPos((j - i) as real, step);
    assert j as real * step == i as real * step + (j - i) as real * step;
  }

  lemma LastButOne(legs: seq<Leg>, spot: real, grid: seq<real>)
    requires GridTop(legs, spot) > 0.0 && IsSpotGrid(grid, legs, spot)
    ensures var hi := GridTop(legs, spot);
      forall x :: x in GridValues(legs, spot) ==> 0.0 <= x <= GridPoint(POINTS - 2, hi) || x == hi
  {
    var hi := GridTop(legs, spot);
    forall x | x in GridValues(legs, spot)
      ensures 0.0 <= x <= GridPoint(POINTS - 2, hi) || x == hi
    {
      if x in Strikes(legs) && 0.0 <= x {
        assert x <= hi / 2.0 <= GridPoint(159, hi);
      } else {
        var i: nat :| i < POINTS && x == GridPoint(i, hi);
        if 0 < i { GridPointMono(0, i, hi); }
        if i < 159 { GridPointMono(i, 159, hi); }
        if i == 160 { assert x == hi; }
      }
    }
  }

  /** The even points the proofs name: both ends, the middle and the last but one. */
  lemma NamedPoints(legs: seq<Leg>, spot: real)
    requires GridTop(legs, spot) > 0.0
    ensures var hi, vs := GridTop(legs, spot), GridValues(legs, spot);
      && 0.0 in vs && hi / 2.0 in vs && GridPoint(159, hi) in vs && hi in vs
      && 0.0 < hi / 2.0 < GridPoint(159, hi) < hi
  {
    var hi := GridTop(legs, spot);
    assert GridPoint(0, hi) == 0.0 && GridPoint(80, hi) == hi / 2.0 && GridPoint(160, hi) == hi;
    GridPointMono(80, 159, hi);
    GridPointMono(159, 160, hi);
  }

  lemma GridShape(legs: seq<Leg>, spot: real, grid: seq<real>)
    requires GridTop(legs, spot) > 0.0 && IsSpotGrid(grid, legs, spot)
    ensures var hi := GridTop(legs, spot); var n := |grid|;
      && n >= 4 && grid[0] == 0.0 && grid[n - 1] == hi && grid[n - 2] == GridPoint(POINTS - 2, hi)
      && exists i :: 0 < i < n - 1 && grid[i] == hi / 2.0
  {
    hide GridValues, GridPoint, GridTop;
    var hi := GridTop(legs, spot);
    LastButOne(legs, spot, grid);
    NamedPoints(legs, spot);
    var i0 :| 0 <= i0 < |grid| && grid[i0] == 0.0;
    var i80 :| 0 <= i80 < |grid| && grid[i80] == hi / 2.0;
    var i159 :| 0 <= i159 < |grid| && grid[i159] == GridPoint(159, hi);
    var i160 :| 0 <= i160 < |grid| && grid[i160] == hi;
    assert i0 < i80 < i159 < i160;
    assert grid[0] in grid && grid[0] >= 0.0;
    assert i0 == 0;
    assert grid[|grid| - 1] in grid;
    assert i160 == |grid| - 1;
    assert grid[i159 + 1] in grid;
  }

  lemma CurveIsExact(legs: seq<Leg>, spot: real, grid: seq<real>)
    requires GridTop(legs, spot) > 0.0 && IsSpotGrid(grid, legs, spot)
    ensures ExactCurve(ExpirationCurve(legs, grid), legs, GridTop(legs, spot))
  {
    var hi := GridTop(legs, spot);
    var curve := ExpirationCurve(legs, grid);
    GridShape(legs, spot, grid);
    var mid :| 0 < mid < |grid| - 1 && grid[mid] == hi / 2.0;
    assert curve[mid].spot == hi / 2.0;
    forall x | x in Strikes(legs)
      ensures x <= hi / 2.0 <= grid[|grid| - 2]
    {
      assert grid[mid] <= grid[|grid| - 2];
    }
    forall i | 0 <= i < |curve| - 1
      ensures NoKink(legs, curve[i].spot, curve[i + 1].spot)
    {
      forall x | x in Strikes(legs)
        ensures !(curve[i].spot < x < curve[i + 1].spot)
      {
        assert 0.0 <= grid[i];
        if 0.0 <= x {
          assert x in GridValues(legs, spot);
          var k :| 0 <= k < |grid| && grid[k] == x;
          assert k <= i ==> x <= grid[i];
          assert k > i ==> x >= grid[i + 1];
        }
      }
    }
  }

  // ---- reading a point off its segment ----

  /** The segment of the curve that holds s. */
  lemma {:induction false} SegmentOf(curve: seq<Point>, s: real, n: nat) returns (i: nat)
    requires 0 < n < |curve|
    requires forall i, j :: 0 <= i < j < |curve| ==> curve[i].spot < curve[j].spot
    requires curve[0].spot <= s <= curve[n].spot
    ensures i < n && curve[i].spot <= s <= curve[i + 1].spot
    ensures s < curve[n].spot ==> s < curve[i + 1].spot
  {
    if curve[n - 1].spot <= s {
      i := n - 1;
    } else {
      i := SegmentOf(curve, s, n - 1);
    }
  }

  lemma OnSegment(curve: seq<Point>, legs: seq<Leg>, hi: real, i: nat, s: real)
    requires ExactCurve(curve, legs, hi) && i + 1 < |curve|
    requires curve[i].spot <= s <= curve[i + 1].spot
    ensures PnlAt(legs, s) == curve[i].pnl + Times(SlopeAt(legs, curve[i].spot), s - curve[i].spot)
  {
    hide PnlAt, SlopeAt, Times;
    assert NoKink(legs, curve[i].spot, curve[i + 1].spot);
    PnlAffine(legs, curve[i].spot, s);
  }

  lemma BeyondGrid(curve: seq<Point>, legs: seq<Leg>, hi: real, s: real)
    requires ExactCurve(curve, legs, hi) && s >= curve[|curve| - 2].spot
    ensures PnlAt(legs, s) == curve[|curve| - 2].pnl + Times(NetUpside(legs), s - curve[|curve| - 2].spot)
  {
    hide PnlAt, SlopeAt, NetUpside, Times;
    var a := curve[|curve| - 2].spot;
    SlopeAboveStrikes(legs, a);
    PnlAffine(legs, a, s);
  }
}
