/** `breakevens`: the zeros of the payoff that the grid reports, and exactly which zeros those are. */
module Breakeven {
  import opened Numbers
  import opened Strategy
  import opened Payoff

  /** Where the chord from a to b meets zero. */
  function ChordZero(a: Point, b: Point): real
    requires a.pnl != b.pnl
  {
    a.spot + (b.spot - a.spot) * (0.0 - a.pnl) / (b.pnl - a.pnl)
  }

  predicate OppositeSigns(a: Point, b: Point) {
    (a.pnl < 0.0 < b.pnl) || (b.pnl < 0.0 < a.pnl)
  }

  /** What one pair of neighbours contributes. */
  function SegmentZero(a: Point, b: Point): seq<real> {
    if a.pnl == 0.0 then [a.spot]
    else if OppositeSigns(a, b) then [ChordZero(a, b)]
    else []
  }

  /** Zeros reported by the first n pairs. */
  function ZerosUpTo(curve: seq<Point>, n: nat): seq<real>
    requires n == 0 || n < |curve|
  {
    if n == 0 then [] else ZerosUpTo(curve, n - 1) + SegmentZero(curve[n - 1], curve[n])
  }

  function Zeros(curve: seq<Point>): seq<real> {
    if curve == [] then [] else ZerosUpTo(curve, |curve| - 1)
  }

  method Breakevens(curve: seq<Point>) returns (out: seq<real>)
    ensures out == Zeros(curve)
  {
    hide ChordZero;
    out := [];
    if curve == [] { return; }
    for i := 0 to |curve| - 1
      invariant out == ZerosUpTo(curve, i)
    {
      var (a, b) := (curve[i], curve[i + 1]);
      if a.pnl == 0.0 {
        out := out + [a.spot];
      } else if OppositeSigns(a, b) {
        out := out + [ChordZero(a, b)];
      }
    }
  }

  // ---- one segment ----

  /** z is a zero of the payoff in the half-open segment i, and not merely inside a flat-zero segment. */
  ghost predicate IsolatedZeroIn(curve: seq<Point>, legs: seq<Leg>, i: nat, z: real) {
    && i + 1 < |curve|
    && curve[i].spot <= z < curve[i + 1].spot
    && PnlAt(legs, z) == 0.0
    && (z == curve[i].spot || curve[i].pnl != 0.0)
  }

  /** The crossing point of a chord whose ends have strictly opposite signs. */
  lemma ChordZeroIsZero(a: Point, b: Point, k: int)
    requires a.spot < b.spot && OppositeSigns(a, b) && b.pnl == a.pnl + Times(k, b.spot - a.spot)
    ensures a.spot < ChordZero(a, b) < b.spot && a.pnl + Times(k, ChordZero(a, b) - a.spot) == 0.0
  {
    var w, p, q := b.spot - a.spot, a.pnl, b.pnl;
    var d := w * (0.0 - p) / (q - p);
    DivMul(w * (0.0 - p), q - p);
    assert d * (q - p) == w * (0.0 - p);
    if p < 0.0 { ProperFraction(w, -p, q - p, d); }
    else { ProperFraction(w, p, p - q, d); }
    CrossProduct(k as real, w, p, q, d);
    assert ChordZero(a, b) - a.spot == d;
  }

  lemma ProperFraction(w: real, t: real, s: real, d: real)
    requires w > 0.0 && 0.0 < t < s && Mul(d, s) == Mul(w, t)
    ensures 0.0 < d < w
  {
    hide Mul;
    MulSign(w, t);
    MulSign(-d, s);
    MulNeg(d, s);
    MulSign(w, s - t);
    MulAdd(t, s - t, w);
    MulAdd(w, d - w, s);
    MulSign(d - w, s);
  }

  lemma CrossProduct(k: real, w: real, p: real, q: real, d: real)
    requires w > 0.0 && q == p + Mul(k, w) && d * (q - p) == w * (0.0 - p)
    ensures p + Mul(k, d) == 0.0
  {
    assert Mul(k, w) == k * w;
    assert d * (k * w) == w * (0.0 - p);
    assert w * (k * d + p) == 0.0;
  }

  lemma SegmentZeroIff(curve: seq<Point>, legs: seq<Leg>, hi: real, i: nat, z: real)
    requires ExactCurve(curve, legs, hi) && i + 1 < |curve|
    ensures z in SegmentZero(curve[i], curve[i + 1]) <==> IsolatedZeroIn(curve, legs, i, z)
  {
    hide PnlAt, SlopeAt, Times, ChordZero;
    var a, b, k := curve[i], curve[i + 1], SlopeAt(legs, curve[i].spot);
    var w := b.spot - a.spot;
    assert a.spot < b.spot;
    OnSegment(curve, legs, hi, i, b.spot);
    OnSegment(curve, legs, hi, i, a.spot);
    if OppositeSigns(a, b) {
      ChordZeroIsZero(a, b, k);
      var x := ChordZero(a, b);
      OnSegment(curve, legs, hi, i, x);
      if a.spot <= z < b.spot {
        OnSegment(curve, legs, hi, i, z);
        if z < x { TimesMono(k, z - a.spot, x - a.spot); }
        if x < z { TimesMono(k, x - a.spot, z - a.spot); }
        TimesSign(k, w);
      }
    } else if a.pnl != 0.0 && a.spot <= z < b.spot {
      OnSegment(curve, legs, hi, i, z);
      TimesMono(k, 0.0, z - a.spot);
      TimesMono(k, z - a.spot, w);
      TimesMono(k, 0.0, 0.0);
    }
  }

  // ---- the whole curve ----

  lemma {:induction false} ZerosUpToIff(curve: seq<Point>, legs: seq<Leg>, hi: real, n: nat, z: real)
    requires ExactCurve(curve, legs, hi) && n < |curve|
    ensures z in ZerosUpTo(curve, n) <==> exists i: nat :: i < n && IsolatedZeroIn(curve, legs, i, z)
  {
    hide SegmentZero, IsolatedZeroIn;
    if n > 0 {
      ZerosUpToIff(curve, legs, hi, n - 1, z);
      SegmentZeroIff(curve, legs, hi, n - 1, z);
      if z in ZerosUpTo(curve, n - 1) {
        var i: nat :| i < n - 1 && IsolatedZeroIn(curve, legs, i, z);
        assert i < n;
      }
    }
  }

  /** Sound and complete: a spot is reported exactly when it is a zero of the true payoff in [0, hi)
      that does not lie strictly inside a segment where the payoff is identically zero. */
  lemma BreakevensExact(curve: seq<Point>, legs: seq<Leg>, hi: real, z: real)
    requires ExactCurve(curve, legs, hi)
    ensures z in Zeros(curve) <==> exists i: nat :: IsolatedZeroIn(curve, legs, i, z)
  {
    hide SegmentZero;
    ZerosUpToIff(curve, legs, hi, |curve| - 1, z);
    if exists i: nat :: IsolatedZeroIn(curve, legs, i, z) {
      var i: nat :| IsolatedZeroIn(curve, legs, i, z);
      assert i < |curve| - 1;
    }
  }

  /** Each reported value is strictly above the one before it. */
  lemma {:induction false} ZerosSorted(curve: seq<Point>, legs: seq<Leg>, hi: real, n: nat)
    requires ExactCurve(curve, legs, hi) && n < |curve|
    ensures StrictlyIncreasing(ZerosUpTo(curve, n))
    ensures forall z :: z in ZerosUpTo(curve, n) ==> 0.0 <= z < curve[n].spot
  {
    hide PnlAt, SegmentZero;
    if n > 0 {
      ZerosSorted(curve, legs, hi, n - 1);
      var before, added := ZerosUpTo(curve, n - 1), SegmentZero(curve[n - 1], curve[n]);
      assert curve[n - 1].spot < curve[n].spot && 0.0 <= curve[n - 1].spot;
      forall z | z in added ensures curve[n - 1].spot <= z < curve[n].spot {
        SegmentZeroIff(curve, legs, hi, n - 1, z);
      }
      assert |added| <= 1 by { OneZeroAtMost(curve[n - 1], curve[n]); }
      assert forall j :: 0 <= j < |before| ==> before[j] in before;
      assert forall j :: 0 <= j < |added| ==> added[j] in added;
    }
  }

  lemma OneZeroAtMost(a: Point, b: Point)
    ensures |SegmentZero(a, b)| <= 1
  {
  }

  lemma BreakevensSorted(curve: seq<Point>, legs: seq<Leg>, hi: real)
    requires ExactCurve(curve, legs, hi)
    ensures StrictlyIncreasing(Zeros(curve)) && forall z :: z in Zeros(curve) ==> 0.0 <= z < hi
  {
    ZerosSorted(curve, legs, hi, |curve| - 1);
  }

  // ---- stated on the payoff alone ----

  /** A zero of the payoff that is not buried inside a stretch of zeros. */
  ghost predicate IsolatedZero(legs: seq<Leg>, z: real) {
    && 0.0 <= z && PnlAt(legs, z) == 0.0
    && !exists a, b :: FlatAround(legs, a, b, z)
  }

  ghost predicate FlatAround(legs: seq<Leg>, a: real, b: real, z: real) {
    0.0 <= a < z < b && forall s :: a <= s <= b ==> PnlAt(legs, s) == 0.0
  }

  lemma ReportedZero(curve: seq<Point>, legs: seq<Leg>, hi: real, z: real)
    requires ExactCurve(curve, legs, hi)
    ensures z in Zeros(curve) ==> PnlAt(legs, z) == 0.0
    ensures IsolatedZero(legs, z) && z < hi ==> z in Zeros(curve)
  {
    hide PnlAt, Zeros, GridPoint, NoKink;
    BreakevensExact(curve, legs, hi, z);
    if 0.0 <= z < hi && PnlAt(legs, z) == 0.0 && z !in Zeros(curve) {
      UnreportedZero(curve, legs, hi, z);
    }
  }

  lemma UnreportedZero(curve: seq<Point>, legs: seq<Leg>, hi: real, z: real)
    requires ExactCurve(curve, legs, hi) && 0.0 <= z < hi
    requires PnlAt(legs, z) == 0.0 && z !in Zeros(curve)
    ensures exists a, b :: FlatAround(legs, a, b, z)
  {
    hide PnlAt, Times, Zeros, GridPoint, NoKink, SlopeAt;
    BreakevensExact(curve, legs, hi, z);
    var i := SegmentOf(curve, z, |curve| - 1);
    assert !IsolatedZeroIn(curve, legs, i, z);
    var a, b, k := curve[i].spot, curve[i + 1].spot, SlopeAt(legs, curve[i].spot);
    forall s | a <= s <= b ensures PnlAt(legs, s) == 0.0 {
      OnSegment(curve, legs, hi, i, z);
      OnSegment(curve, legs, hi, i, s);
      TimesSign(k, z - a);
      TimesSign(k, s - a);
    }
    assert FlatAround(legs, a, b, z);
  }
}
