/** `profit_intervals`: the spot ranges reported profitable, and exactly when they are right. */
module ProfitRanges {
  import opened Wrappers
  import opened Numbers
  import opened Strategy
  import opened Payoff
  import opened Breakeven

  /** hi absent means the range has no upper end. */
  datatype Interval = Interval(lo: real, hi: Option<real>)

  /** The n + 1 ranges that n breakevens cut [0, oo) into. */
  function Ranges(bes: seq<real>): seq<Interval> {
    seq(|bes| + 1, k requires 0 <= k <= |bes| => Interval(
      if k == 0 then 0.0 else bes[k - 1],
      if k < |bes| then Some(bes[k]) else None))
  }

  /** Index of the first grid point nearest to m, as `min(curve, key=...)` finds it among the first n. */
  function NearestUpTo(curve: seq<Point>, m: real, n: nat): (c: nat)
    requires 0 < n <= |curve|
    ensures c < n
    ensures forall i :: 0 <= i < n ==> Abs(curve[c].spot - m) <= Abs(curve[i].spot - m)
    ensures forall i :: 0 <= i < c ==> Abs(curve[c].spot - m) < Abs(curve[i].spot - m)
  {
    if n == 1 then 0
    else
      var c := NearestUpTo(curve, m, n - 1);
      if Abs(curve[n - 1].spot - m) < Abs(curve[c].spot - m) then n - 1 else c
  }

  function SamplePoint(curve: seq<Point>, r: Interval): (c: nat)
    requires curve != []
    ensures c < |curve|
  {
    NearestUpTo(curve, (r.lo + r.hi.GetOr(curve[|curve| - 1].spot)) / 2.0, |curve|)
  }

  predicate Profitable(curve: seq<Point>, r: Interval)
    requires curve != []
  {
    curve[SamplePoint(curve, r)].pnl > 0.0
  }

  function Keep(curve: seq<Point>, rs: seq<Interval>, n: nat): seq<Interval>
    requires curve != [] && n <= |rs|
  {
    if n == 0 then []
    else Keep(curve, rs, n - 1) + (if Profitable(curve, rs[n - 1]) then [rs[n - 1]] else [])
  }

  function ProfitIntervals(curve: seq<Point>): seq<Interval>
    requires curve != []
  {
    Keep(curve, Ranges(Zeros(curve)), |Zeros(curve)| + 1)
  }

  lemma RangeCount(bes: seq<real>)
    ensures |Ranges(bes)| == |bes| + 1
  {
  }

  lemma RangeAt(bes: seq<real>, k: nat)
    requires k <= |bes| && |Ranges(bes)| == |bes| + 1
    ensures Ranges(bes)[k] == Interval(([0.0] + bes)[k], if k < |bes| then Some(bes[k]) else None)
  {
  }

  method ComputeProfitIntervals(curve: seq<Point>) returns (intervals: seq<Interval>)
    requires curve != []
    ensures intervals == ProfitIntervals(curve)
  {
    hide NearestUpTo, Zeros, Ranges;
    var bes := Breakevens(curve);
    var lows := [0.0] + bes;
    RangeCount(bes);
    intervals := [];
    for k := 0 to |lows|
      invariant intervals == Keep(curve, Ranges(bes), k)
    {
      var hi := if k < |bes| then Some(bes[k]) else None;
      var midS := (lows[k] + hi.GetOr(curve[|curve| - 1].spot)) / 2.0;
      var c := NearestUpTo(curve, midS, |curve|);
      RangeAt(bes, k);
      if curve[c].pnl > 0.0 {
        intervals := intervals + [Interval(lows[k], hi)];
      }
    }
  }

  predicate Covers(r: Interval, s: real) { r.lo <= s && (r.hi.Some? ==> s <= r.hi.value) }

  ghost predicate InSome(rs: seq<Interval>, s: real) { exists i :: 0 <= i < |rs| && Covers(rs[i], s) }

  /** The reported ranges are the profit set on [0, hi], breakeven points aside. */
  ghost predicate ExactOn(legs: seq<Leg>, rs: seq<Interval>, hi: real) {
    forall s :: 0.0 <= s <= hi && PnlAt(legs, s) != 0.0 ==> (InSome(rs, s) <==> PnlAt(legs, s) > 0.0)
  }

  // ---- between breakevens the payoff keeps its sign ----

  lemma SignChangeInSegment(curve: seq<Point>, legs: seq<Leg>, hi: real, i: nat, x: real, y: real)
    requires ExactCurve(curve, legs, hi) && i + 1 < |curve|
    requires curve[i].spot <= x < y <= curve[i + 1].spot
    requires (PnlAt(legs, x) < 0.0 < PnlAt(legs, y)) || (PnlAt(legs, y) < 0.0 < PnlAt(legs, x))
    ensures exists z :: z in Zeros(curve) && x < z < y
  {
    hide PnlAt, SlopeAt, Times, ChordZero;
    var a, b, k := curve[i], curve[i + 1], SlopeAt(legs, curve[i].spot);
    OnSegment(curve, legs, hi, i, x);
    OnSegment(curve, legs, hi, i, y);
    OnSegment(curve, legs, hi, i, b.spot);
    TimesMono(k, x - a.spot, y - a.spot);
    TimesMono(k, 0.0, x - a.spot);
    TimesMono(k, y - a.spot, b.spot - a.spot);
    assert OppositeSigns(a, b);
    ChordZeroIsZero(a, b, k);
    var z := ChordZero(a, b);
    OnSegment(curve, legs, hi, i, z);
    if z <= x { TimesMono(k, z - a.spot, x - a.spot); }
    if y <= z { TimesMono(k, y - a.spot, z - a.spot); }
    assert IsolatedZeroIn(curve, legs, i, z);
    BreakevensExact(curve, legs, hi, z);
  }

  /** A change of sign between two spots leaves a reported breakeven strictly between them. */
  lemma {:induction false} SignChange(curve: seq<Point>, legs: seq<Leg>, hi: real, i: nat, j: nat, x: real, y: real)
    requires ExactCurve(curve, legs, hi) && i <= j && j + 1 < |curve|
    requires curve[i].spot <= x <= curve[i + 1].spot && curve[j].spot <= y <= curve[j + 1].spot && x < y
    requires (PnlAt(legs, x) < 0.0 < PnlAt(legs, y)) || (PnlAt(legs, y) < 0.0 < PnlAt(legs, x))
    ensures exists z :: z in Zeros(curve) && x < z < y
    decreases j - i
  {
    hide PnlAt, NoKink, GridPoint;
    if i == j {
      SignChangeInSegment(curve, legs, hi, i, x, y);
    } else {
      var g := curve[i + 1];
      assert curve[i + 1].spot < curve[i + 2].spot && (i + 1 < j ==> curve[i + 1].spot < curve[j].spot);
      if x == g.spot {
        SignChange(curve, legs, hi, i + 1, j, x, y);
      } else if y == g.spot {
        SignChangeInSegment(curve, legs, hi, i, x, y);
      } else if g.pnl == 0.0 {
        assert IsolatedZeroIn(curve, legs, i + 1, g.spot);
        BreakevensExact(curve, legs, hi, g.spot);
      } else if (g.pnl > 0.0) != (PnlAt(legs, x) > 0.0) {
        SignChangeInSegment(curve, legs, hi, i, x, g.spot);
      } else {
        SignChange(curve, legs, hi, i + 1, j, g.spot, y);
      }
    }
  }

  /** No breakeven strictly between two non-zero spots: same sign. */
  lemma SameSign(curve: seq<Point>, legs: seq<Leg>, hi: real, x: real, y: real)
    requires ExactCurve(curve, legs, hi) && 0.0 <= x <= hi && 0.0 <= y <= hi
    requires PnlAt(legs, x) != 0.0 && PnlAt(legs, y) != 0.0
    requires forall z :: z in Zeros(curve) ==> !(x < z < y) && !(y < z < x)
    ensures (PnlAt(legs, x) > 0.0) == (PnlAt(legs, y) > 0.0)
  {
    hide PnlAt, NoKink, GridPoint;
    var i := SegmentOf(curve, x, |curve| - 1);
    var j := SegmentOf(curve, y, |curve| - 1);
    if (PnlAt(legs, x) > 0.0) != (PnlAt(legs, y) > 0.0) {
      if x < y { OrderedSegments(curve, i, j, x, y); SignChange(curve, legs, hi, i, j, x, y); }
      else { OrderedSegments(curve, j, i, y, x); SignChange(curve, legs, hi, j, i, y, x); }
    }
  }

  lemma OrderedSegments(curve: seq<Point>, i: nat, j: nat, x: real, y: real)
    requires forall i, j :: 0 <= i < j < |curve| ==> curve[i].spot < curve[j].spot
    requires i + 1 < |curve| && j + 1 < |curve| && x < y
    requires curve[i].spot <= x <= curve[i + 1].spot && curve[j].spot <= y <= curve[j + 1].spot
    ensures i <= j
  {
  }

  // ---- the sampled point decides its whole range ----

  lemma {:induction false} KeptIff(curve: seq<Point>, rs: seq<Interval>, n: nat, s: real)
    requires curve != [] && n <= |rs|
    ensures InSome(Keep(curve, rs, n), s) <==>
            exists k :: 0 <= k < n && Covers(rs[k], s) && Profitable(curve, rs[k])
  {
    hide Profitable, Covers;
    if n > 0 {
      KeptIff(curve, rs, n - 1, s);
      var was, all := Keep(curve, rs, n - 1), Keep(curve, rs, n);
      assert forall i :: 0 <= i < |was| ==> all[i] == was[i];
      if Profitable(curve, rs[n - 1]) { assert all[|was|] == rs[n - 1]; }
    }
  }

  /** The one range that holds a spot which is no breakeven. */
  lemma {:induction false} RangeOf(bes: seq<real>, s: real, n: nat) returns (k: nat)
    requires StrictlyIncreasing(bes) && s !in bes && n <= |bes|
    requires (forall z :: z in bes ==> 0.0 <= z) && 0.0 <= s
    requires n < |bes| ==> s < bes[n]
    ensures k <= |bes| && Covers(Ranges(bes)[k], s)
    ensures forall m :: 0 <= m <= |bes| && m != k ==> !Covers(Ranges(bes)[m], s)
  {
    if n == 0 || bes[n - 1] < s {
      k := n;
      forall m | 0 <= m <= |bes| && m != k ensures !Covers(Ranges(bes)[m], s) {
        if m < k { assert bes[m] in bes && bes[m] <= bes[k - 1]; }
        else { assert bes[m - 1] in bes && bes[k] <= bes[m - 1]; }
      }
    } else {
      assert bes[n - 1] in bes;
      k := RangeOf(bes, s, n - 1);
    }
  }

  /** The failing case: the last grid point but one is a breakeven and the payoff is positive at the end.
      The last range's midpoint is then a tie, and the tie goes to the breakeven. */
  predicate LastTie(curve: seq<Point>)
    requires |curve| >= 2
  {
    curve[|curve| - 2].pnl == 0.0 && curve[|curve| - 1].pnl > 0.0
  }

  /** Facts about range k that the sampling argument uses. */
  ghost predicate IsRange(curve: seq<Point>, k: nat, r: Interval, end: real) {
    && curve != [] && k <= |Zeros(curve)|
    && r == Ranges(Zeros(curve))[k]
    && end == r.hi.GetOr(curve[|curve| - 1].spot)
  }

  lemma RangeHoldsNoZero(curve: seq<Point>, legs: seq<Leg>, hi: real, k: nat, r: Interval, end: real)
    requires ExactCurve(curve, legs, hi) && IsRange(curve, k, r, end)
    ensures forall z :: z in Zeros(curve) ==> !(r.lo < z < end)
    ensures 0.0 <= r.lo && end <= hi
    ensures k > 0 ==> r.lo in Zeros(curve)
    ensures k == 0 ==> r.lo == 0.0 && forall z :: z in Zeros(curve) ==> end <= z
    ensures k < |Zeros(curve)| ==> end in Zeros(curve)
    ensures k == |Zeros(curve)| ==> end == hi && forall z :: z in Zeros(curve) ==> z <= r.lo
  {
    hide PnlAt, NoKink, GridPoint, Zeros;
    var bes := Zeros(curve);
    BreakevensSorted(curve, legs, hi);
    assert k > 0 ==> bes[k - 1] in bes;
    assert k < |bes| ==> bes[k] in bes;
    forall z | z in bes
      ensures !(r.lo < z < end)
      ensures k == 0 ==> end <= z
      ensures k == |bes| ==> z <= r.lo
    {
      var j :| 0 <= j < |bes| && bes[j] == z;
      assert j < k ==> bes[j] <= bes[k - 1];
      assert j > k ==> bes[k] < bes[j];
    }
  }

  /** Two zeros in one segment: the payoff vanishes between them. */
  lemma FlatBetween(curve: seq<Point>, legs: seq<Leg>, hi: real, i: nat, x: real, y: real, s: real)
    requires ExactCurve(curve, legs, hi) && i + 1 < |curve|
    requires curve[i].spot <= x < y <= curve[i + 1].spot && x <= s <= y
    requires PnlAt(legs, x) == 0.0 && PnlAt(legs, y) == 0.0
    ensures PnlAt(legs, s) == 0.0 && curve[i].pnl == 0.0
  {
    hide PnlAt, SlopeAt, Times, NoKink, GridPoint;
    var a, k := curve[i].spot, SlopeAt(legs, curve[i].spot);
    OnSegment(curve, legs, hi, i, x);
    OnSegment(curve, legs, hi, i, y);
    OnSegment(curve, legs, hi, i, s);
    TimesMono(k, x - a, y - a);
    TimesMono(k, 0.0, x - a);
    TimesMono(k, 0.0, s - a);
  }

  /** Some grid point lies in every range. */
  lemma GridPointInRange(curve: seq<Point>, legs: seq<Leg>, hi: real, k: nat, r: Interval, end: real) returns (g: nat)
    requires ExactCurve(curve, legs, hi) && IsRange(curve, k, r, end) && r.lo < end
    ensures g < |curve| && r.lo <= curve[g].spot <= end
  {
    hide PnlAt, NoKink, GridPoint, Zeros;
    RangeHoldsNoZero(curve, legs, hi, k, r, end);
    if k == 0 {
      g := 0;
    } else if k == |Zeros(curve)| {
      g := |curve| - 1;
    } else {
      BreakevensExact(curve, legs, hi, r.lo);
      BreakevensExact(curve, legs, hi, end);
      var i: nat :| IsolatedZeroIn(curve, legs, i, r.lo);
      var j: nat :| IsolatedZeroIn(curve, legs, j, end);
      g := i + 1;
      assert i < j ==> curve[i + 1].spot <= curve[j].spot;
      if end < curve[g].spot {
        FlatBetween(curve, legs, hi, i, r.lo, end, end);
      }
    }
  }

  ghost predicate OnEdge(curve: seq<Point>, lo: real, end: real, c: nat) {
    && (forall i :: 0 <= i < |curve| ==> !(lo < curve[i].spot < end))
    && (forall i :: 0 <= i < c && i < |curve| ==> curve[i].spot < lo)
  }

  /** The sampled point is the first of the nearest to the middle of its range. */
  lemma SampleNearest(curve: seq<Point>, r: Interval, end: real)
    requires curve != [] && end == r.hi.GetOr(curve[|curve| - 1].spot)
    ensures var mid, c := (r.lo + end) / 2.0, SamplePoint(curve, r);
      && (forall i :: 0 <= i < |curve| ==> Abs(curve[c].spot - mid) <= Abs(curve[i].spot - mid))
      && (forall i :: 0 <= i < c ==> Abs(curve[c].spot - mid) < Abs(curve[i].spot - mid))
  {
    hide NearestUpTo;
  }

  /** The sampled point lies in its range. If it sits on the edge, no grid point is strictly inside, and
      no grid point before it is as near. */
  lemma SampleInRange(curve: seq<Point>, legs: seq<Leg>, hi: real, k: nat, r: Interval, end: real)
    requires ExactCurve(curve, legs, hi) && IsRange(curve, k, r, end) && r.lo < end
    ensures var c := SamplePoint(curve, r);
      && r.lo <= curve[c].spot <= end
      && (curve[c].spot == r.lo || curve[c].spot == end ==> OnEdge(curve, r.lo, end, c))
  {
    var c := SamplePoint(curve, r);
    var g := GridPointInRange(curve, legs, hi, k, r, end);
    SampleNearest(curve, r, end);
    hide PnlAt, NoKink, GridPoint, Zeros, Strikes, IsRange, SamplePoint;
    var mid, half := (r.lo + end) / 2.0, (end - r.lo) / 2.0;
    assert Abs(curve[c].spot - mid) <= Abs(curve[g].spot - mid) <= half;
    if curve[c].spot == r.lo || curve[c].spot == end {
      assert Abs(curve[c].spot - mid) == half;
      forall i | 0 <= i < c ensures curve[i].spot < r.lo {
        assert curve[i].spot < curve[c].spot;
      }
    }
  }

  /** A sample that reads zero, for a range that is not flat, is the last-range tie. */
  lemma ZeroSampleIsTie(curve: seq<Point>, legs: seq<Leg>, hi: real, k: nat, r: Interval, end: real, s: real)
    requires ExactCurve(curve, legs, hi) && IsRange(curve, k, r, end)
    requires r.lo <= s <= end && PnlAt(legs, s) != 0.0 && r.lo < end
    requires curve[SamplePoint(curve, r)].pnl == 0.0
    ensures k == |Zeros(curve)| && SamplePoint(curve, r) == |curve| - 2 && curve[|curve| - 2].spot == r.lo
  {
    hide PnlAt, NoKink, GridPoint, Zeros;
    var c := SamplePoint(curve, r);
    SampleInRange(curve, legs, hi, k, r, end);
    RangeHoldsNoZero(curve, legs, hi, k, r, end);
    if c < |curve| - 1 {
      assert IsolatedZeroIn(curve, legs, c, curve[c].spot);
      BreakevensExact(curve, legs, hi, curve[c].spot);
    }
    assert curve[c].spot == r.lo || curve[c].spot == end;
    if k == 0 {
      assert false;
    } else {
      BreakevensExact(curve, legs, hi, r.lo);
      var i: nat :| IsolatedZeroIn(curve, legs, i, r.lo);
      assert end <= curve[i + 1].spot;
      if PnlAt(legs, end) == 0.0 {
        FlatBetween(curve, legs, hi, i, r.lo, end, s);
        assert false;
      } else {
        assert k == |Zeros(curve)| by {
          if k < |Zeros(curve)| {
            BreakevensExact(curve, legs, hi, end);
          }
        }
        assert curve[c].spot == r.lo;
        assert i + 1 == |curve| - 1;
      }
    }
  }

  /** The sample has the sign of every non-zero spot of its range, the tie aside. */
  lemma SampleDecides(curve: seq<Point>, legs: seq<Leg>, hi: real, k: nat, r: Interval, end: real, s: real)
    requires ExactCurve(curve, legs, hi) && IsRange(curve, k, r, end)
    requires r.lo <= s <= end && PnlAt(legs, s) != 0.0 && r.lo < end
    requires !LastTie(curve)
    ensures Profitable(curve, r) <==> PnlAt(legs, s) > 0.0
  {
    hide PnlAt, NoKink, GridPoint, Zeros, SlopeAt, Times;
    var c := SamplePoint(curve, r);
    RangeHoldsNoZero(curve, legs, hi, k, r, end);
    SampleInRange(curve, legs, hi, k, r, end);
    if curve[c].pnl != 0.0 {
      SameSign(curve, legs, hi, curve[c].spot, s);
    } else {
      ZeroSampleIsTie(curve, legs, hi, k, r, end, s);
      var i, m := |curve| - 2, SlopeAt(legs, curve[|curve| - 2].spot);
      OnSegment(curve, legs, hi, i, s);
      OnSegment(curve, legs, hi, i, hi);
      TimesMono(m, 0.0, s - r.lo);
      TimesMono(m, s - r.lo, hi - r.lo);
    }
  }

  lemma ExactWithoutTie(curve: seq<Point>, legs: seq<Leg>, hi: real)
    requires ExactCurve(curve, legs, hi) && !LastTie(curve)
    ensures ExactOn(legs, ProfitIntervals(curve), hi)
  {
    hide PnlAt, NoKink, GridPoint, Zeros, Profitable;
    var bes, rs := Zeros(curve), Ranges(Zeros(curve));
    BreakevensSorted(curve, legs, hi);
    forall s | 0.0 <= s <= hi && PnlAt(legs, s) != 0.0
      ensures InSome(ProfitIntervals(curve), s) <==> PnlAt(legs, s) > 0.0
    {
      if s in bes { BreakevensExact(curve, legs, hi, s); }
      var k := RangeOf(bes, s, |bes|);
      KeptIff(curve, rs, |bes| + 1, s);
      var end := rs[k].hi.GetOr(hi);
      RangeHoldsNoZero(curve, legs, hi, k, rs[k], end);
      SampleDecides(curve, legs, hi, k, rs[k], end, s);
    }
  }

  /** Under the tie, the last range starts at the last grid point but one, which is also its sample. */
  lemma TieSample(curve: seq<Point>, legs: seq<Leg>, hi: real, k: nat, r: Interval)
    requires ExactCurve(curve, legs, hi) && LastTie(curve)
    requires IsRange(curve, k, r, hi) && k == |Zeros(curve)| && r.lo < hi
    ensures !Profitable(curve, r)
  {
    hide PnlAt, NoKink, GridPoint, Zeros, SamplePoint;
    var n := |curve|;
    RangeHoldsNoZero(curve, legs, hi, k, r, hi);
    assert IsolatedZeroIn(curve, legs, n - 2, curve[n - 2].spot);
    BreakevensExact(curve, legs, hi, curve[n - 2].spot);
    if r.lo > curve[n - 2].spot {
      if k > 0 { BreakevensExact(curve, legs, hi, r.lo); }
      FlatBetween(curve, legs, hi, n - 2, curve[n - 2].spot, r.lo, r.lo);
      TwoZerosFlat(curve, legs, hi, r.lo);
    }
    SampleInRange(curve, legs, hi, k, r, hi);
  }

  lemma TwoZerosFlat(curve: seq<Point>, legs: seq<Leg>, hi: real, x: real)
    requires ExactCurve(curve, legs, hi) && curve[|curve| - 2].spot < x <= hi
    requires curve[|curve| - 2].pnl == 0.0 && PnlAt(legs, x) == 0.0
    ensures curve[|curve| - 1].pnl == 0.0
  {
    hide PnlAt, SlopeAt, Times, NoKink, GridPoint;
    var i, k := |curve| - 2, SlopeAt(legs, curve[|curve| - 2].spot);
    OnSegment(curve, legs, hi, i, x);
    OnSegment(curve, legs, hi, i, hi);
    TimesMono(k, 0.0, x - curve[i].spot);
    TimesMono(k, 0.0, hi - curve[i].spot);
    TimesSign(k, hi - curve[i].spot);
  }

  lemma TieLosesTheEnd(curve: seq<Point>, legs: seq<Leg>, hi: real)
    requires ExactCurve(curve, legs, hi) && LastTie(curve)
    ensures PnlAt(legs, hi) > 0.0 && !InSome(ProfitIntervals(curve), hi)
  {
    hide PnlAt, NoKink, GridPoint, Zeros, SamplePoint, Profitable;
    var bes, rs := Zeros(curve), Ranges(Zeros(curve));
    BreakevensSorted(curve, legs, hi);
    assert forall m :: 0 <= m < |bes| ==> bes[m] in bes;
    var k := RangeOf(bes, hi, |bes|);
    KeptIff(curve, rs, |bes| + 1, hi);
    RangeHoldsNoZero(curve, legs, hi, k, rs[k], hi);
    if k > 0 { assert bes[k - 1] in bes; }
    TieSample(curve, legs, hi, k, rs[k]);
  }

  /** The reported ranges are the profit set on [0, hi] exactly when the last-range tie does not occur. */
  lemma ProfitIntervalsExactIff(curve: seq<Point>, legs: seq<Leg>, hi: real)
    requires ExactCurve(curve, legs, hi)
    ensures ExactOn(legs, ProfitIntervals(curve), hi) <==> !LastTie(curve)
  {
    hide PnlAt, NoKink, GridPoint, Zeros;
    if LastTie(curve) {
      TieLosesTheEnd(curve, legs, hi);
      assert 0.0 <= hi && PnlAt(legs, hi) != 0.0;
    } else {
      ExactWithoutTie(curve, legs, hi);
    }
  }
}
