/** Realised volatility from closes, and when a short window sees what the whole history would. The logarithm and
    the square root are arbitrary functions. */
module Vol {
  import opened Numbers

  const VOL_FLOOR := 0.01
  const TRADING_DAYS := 252.0

  function PairReturn(prev: real, cur: real, ln: real -> real): seq<real> {
    if prev > 0.0 && cur > 0.0 then [ln(cur / prev)] else []
  }

  function LogReturns(closes: seq<real>, ln: real -> real): seq<real> {
    if |closes| < 2 then []
    else LogReturns(closes[..|closes| - 1], ln) + PairReturn(closes[|closes| - 2], closes[|closes| - 1], ln)
  }

  method ComputeLogReturns(closes: seq<real>, ln: real -> real) returns (out: seq<real>)
    ensures out == LogReturns(closes, ln)
  {
    out := [];
    if |closes| < 2 { return; }
    for i := 0 to |closes| - 1
      invariant out == LogReturns(closes[..i + 1], ln)
    {
      assert closes[..i + 2][..i + 1] == closes[..i + 1];
      if closes[i] > 0.0 && closes[i + 1] > 0.0 {
        out := out + [ln(closes[i + 1] / closes[i])];
      }
    }
    assert closes[..|closes|] == closes;
  }

  /** The returns the estimate uses: the last `lookback` of them; all of them when lookback is 0 or they are few. */
  function Window(rets: seq<real>, lookback: nat): seq<real> {
    if lookback != 0 && |rets| > lookback then rets[|rets| - lookback..] else rets
  }

  function SquaredDeviations(xs: seq<real>, mu: real): seq<real> {
    seq(|xs|, i requires 0 <= i < |xs| => (xs[i] - mu) * (xs[i] - mu))
  }

  /** The sample variance. */
  function Variance(window: seq<real>): real
    requires |window| >= 2
  {
    var mu := Sum(window) / |window| as real;
    Sum(SquaredDeviations(window, mu)) / (|window| - 1) as real
  }

  function Annualised(variance: real, sqrt: real -> real): real {
    Max(sqrt(variance) * sqrt(TRADING_DAYS), VOL_FLOOR)
  }

  function Estimate(window: seq<real>, sqrt: real -> real): real {
    if |window| < 2 then VOL_FLOOR else Annualised(Variance(window), sqrt)
  }

  function RealizedVol(closes: seq<real>, lookback: nat, ln: real -> real, sqrt: real -> real): (vol: real)
    ensures vol >= VOL_FLOOR
  {
    Estimate(Window(LogReturns(closes, ln), lookback), sqrt)
  }

  // ---- what it measures ----

  lemma {:induction false} SumShift(xs: seq<real>, ys: seq<real>, c: real)
    requires |ys| == |xs| && forall i :: 0 <= i < |xs| ==> ys[i] == xs[i] + c
    ensures Sum(ys) == Sum(xs) + |xs| as real * c
  {
    if xs != [] {
      var n := |xs| - 1;
      SumShift(xs[..n], ys[..n], c);
      SumSnoc(xs[..n], xs[n]);
      SumSnoc(ys[..n], ys[n]);
      assert xs == xs[..n] + [xs[n]] && ys == ys[..n] + [ys[n]];
      OneMore(n as real, c);
    }
  }

  lemma OneMore(n: real, c: real)
    ensures (n + 1.0) * c == n * c + c
  {
  }

  lemma {:induction false} SumConstant(xs: seq<real>, c: real)
    requires forall i :: 0 <= i < |xs| ==> xs[i] == c
    ensures Sum(xs) == |xs| as real * c
  {
    if xs != [] {
      var n := |xs| - 1;
      SumConstant(xs[..n], c);
      SumSnoc(xs[..n], xs[n]);
      assert xs == xs[..n] + [xs[n]];
      OneMore(n as real, c);
    }
  }

  lemma SameDeviations(xs: seq<real>, ys: seq<real>, mu: real, nu: real)
    requires |ys| == |xs| && forall i :: 0 <= i < |xs| ==> ys[i] - nu == xs[i] - mu
    ensures SquaredDeviations(ys, nu) == SquaredDeviations(xs, mu)
  {
    forall i | 0 <= i < |xs| ensures SquaredDeviations(ys, nu)[i] == SquaredDeviations(xs, mu)[i] {
      var d := xs[i] - mu;
      assert ys[i] - nu == d;
    }
  }

  /** Drift is no volatility: adding the same amount to every return leaves the estimate alone. */
  lemma ShiftLeavesEstimate(xs: seq<real>, ys: seq<real>, c: real, sqrt: real -> real)
    requires |ys| == |xs| && forall i :: 0 <= i < |xs| ==> ys[i] == xs[i] + c
    ensures Estimate(ys, sqrt) == Estimate(xs, sqrt)
  {
    hide Annualised;
    if |xs| >= 2 { ShiftLeavesVariance(xs, ys, c); }
  }

  lemma ShiftLeavesVariance(xs: seq<real>, ys: seq<real>, c: real)
    requires |ys| == |xs| >= 2 && forall i :: 0 <= i < |xs| ==> ys[i] == xs[i] + c
    ensures Variance(ys) == Variance(xs)
  {
    hide SquaredDeviations;
    var n := |xs| as real;
    SumShift(xs, ys, c);
    ShiftedMean(Sum(xs), n, c);
    SameDeviations(xs, ys, Sum(xs) / n, Sum(ys) / n);
  }

  lemma ShiftedMean(total: real, n: real, c: real)
    requires n > 0.0
    ensures (total + n * c) / n == total / n + c
  {
    var q := total / n;
    DivMul(total, n);
    assert (q + c) * n == total + n * c;
    DivMul(total + n * c, n);
    SameQuotient((total + n * c) / n, q + c, n);
  }

  lemma SameQuotient(a: real, b: real, n: real)
    requires n > 0.0 && a * n == b * n
    ensures a == b
  {
    if a > b { MulPos(a - b, n); }
    if b > a { MulPos(b - a, n); }
  }

  /** Equal returns, however large, give the floor. */
  lemma ConstantReturnsGiveFloor(xs: seq<real>, c: real, sqrt: real -> real)
    requires sqrt(0.0) == 0.0 && forall i :: 0 <= i < |xs| ==> xs[i] == c
    ensures Estimate(xs, sqrt) == VOL_FLOOR
  {
    if |xs| >= 2 {
      NoVariance(xs, c);
      hide Variance;
    }
  }

  lemma NoVariance(xs: seq<real>, c: real)
    requires |xs| >= 2 && forall i :: 0 <= i < |xs| ==> xs[i] == c
    ensures Variance(xs) == 0.0
  {
    SumConstant(xs, c);
    QuotientIs(Sum(xs), |xs| as real, c);
    var ds := SquaredDeviations(xs, c);
    assert forall i :: 0 <= i < |ds| ==> ds[i] == 0.0;
    SumConstant(ds, 0.0);
    QuotientIs(Sum(ds), (|xs| - 1) as real, 0.0);
  }

  lemma QuotientIs(total: real, n: real, c: real)
    requires n > 0.0 && total == n * c
    ensures total / n == c
  {
    DivMul(total, n);
    SameQuotient(total / n, c, n);
  }

  /** Two returns: half their squared distance is the variance, annualised by the square root of 252 and never below
      one percent. */
  lemma TwoReturns(a: real, b: real, variance: real, sqrt: real -> real)
    requires variance == (a - b) * (a - b) / 2.0
    ensures Estimate([a, b], sqrt) == Max(sqrt(variance) * sqrt(252.0), 0.01)
  {
    hide Variance, Annualised;
    VarianceOfTwo(a, b);
    AnnualisedIs(variance, sqrt);
    assert Estimate([a, b], sqrt) == Annualised(variance, sqrt);
  }

  lemma AnnualisedIs(variance: real, sqrt: real -> real)
    ensures Annualised(variance, sqrt) == Max(sqrt(variance) * sqrt(252.0), 0.01)
  {
  }

  lemma VarianceOfTwo(a: real, b: real)
    ensures Variance([a, b]) == (a - b) * (a - b) / 2.0
  {
    var mu := (a + b) / 2.0;
    var ds := SquaredDeviations([a, b], mu);
    SumOfTwo(a, b);
    SumOfTwo(ds[0], ds[1]);
    assert ds == [ds[0], ds[1]] && ds[0] == (a - mu) * (a - mu) && ds[1] == (b - mu) * (b - mu);
    HalfSpread(a, b);
  }

  lemma SumOfTwo(a: real, b: real)
    ensures Sum([a, b]) == a + b
  {
    SumSnoc([a], b);
    SumSnoc([], a);
    assert [] + [a] == [a] && [a] + [b] == [a, b];
  }

  lemma HalfSpread(a: real, b: real)
    ensures var mu := (a + b) / 2.0; (a - mu) * (a - mu) + (b - mu) * (b - mu) == (a - b) * (a - b) / 2.0
  {
    var h := (a - b) / 2.0;
    assert a - (a + b) / 2.0 == h && b - (a + b) / 2.0 == -h;
    assert (a - b) * (a - b) == 4.0 * (h * h);
  }

  /** On positive closes, return number i is the logarithm of close i + 1 over close i. */
  lemma {:induction false} ReturnAt(closes: seq<real>, ln: real -> real, i: nat)
    requires AllPositive(closes) && i + 1 < |closes|
    ensures |LogReturns(closes, ln)| == |closes| - 1 && LogReturns(closes, ln)[i] == ln(closes[i + 1] / closes[i])
    decreases |closes|
  {
    var n := |closes| - 1;
    ReturnsCount(closes, ln);
    ReturnsCount(closes[..n], ln);
    if i + 1 < n { ReturnAt(closes[..n], ln, i); }
  }

  /** Start of the slice vol_at hands over out of a history of n closes. */
  function SliceStart(n: nat, lookback: nat): nat { if n > lookback + 1 then n - lookback - 1 else 0 }

  predicate AllPositive(closes: seq<real>) { forall i :: 0 <= i < |closes| ==> closes[i] > 0.0 }

  predicate NoPair(closes: seq<real>) {
    forall i :: 0 <= i < |closes| - 1 ==> !(closes[i] > 0.0 && closes[i + 1] > 0.0)
  }

  lemma {:induction false} ReturnsSplit(closes: seq<real>, k: nat, ln: real -> real)
    requires k < |closes|
    ensures LogReturns(closes, ln) == LogReturns(closes[..k + 1], ln) + LogReturns(closes[k..], ln)
  {
    hide PairReturn;
    var n := |closes|;
    if k + 1 == n {
      assert closes[..k + 1] == closes;
    } else {
      ReturnsSplit(closes[..n - 1], k, ln);
      assert closes[..n - 1][..k + 1] == closes[..k + 1];
      assert closes[k..][..n - k - 1] == closes[..n - 1][k..];
    }
  }

  lemma {:induction false} ReturnsCount(closes: seq<real>, ln: real -> real)
    ensures |LogReturns(closes, ln)| <= if closes == [] then 0 else |closes| - 1
    ensures |closes| >= 2 ==> (|LogReturns(closes, ln)| == |closes| - 1 <==> AllPositive(closes))
    ensures LogReturns(closes, ln) == [] <==> NoPair(closes)
  {
    if |closes| >= 2 {
      var was := closes[..|closes| - 1];
      ReturnsCount(was, ln);
      assert AllPositive(closes) <==> AllPositive(was) && closes[|closes| - 1] > 0.0;
      assert NoPair(closes) <==> NoPair(was) && !(closes[|closes| - 2] > 0.0 && closes[|closes| - 1] > 0.0);
    }
  }

  /** The sliced and the full history yield the same window of returns if and only if the slice is free of
      non-positive closes (and lookback is not 0), or nothing before the slice yields a return. */
  lemma WindowExactIff(closes: seq<real>, lookback: nat, ln: real -> real)
    requires closes != []
    ensures var k := SliceStart(|closes|, lookback);
      Window(LogReturns(closes[k..], ln), lookback) == Window(LogReturns(closes, ln), lookback) <==>
      (lookback >= 1 && AllPositive(closes[k..])) || NoPair(closes[..k + 1])
  {
    hide LogReturns, Window, NoPair, AllPositive;
    var k := SliceStart(|closes|, lookback);
    ReturnsSplit(closes, k, ln);
    ReturnsCount(closes[..k + 1], ln);
    ReturnsCount(closes[k..], ln);
    TailWindow(LogReturns(closes[..k + 1], ln), LogReturns(closes[k..], ln), lookback);
    if k == 0 { OneClose(closes[..1]); }
  }

  /** Windows may differ and the volatilities still agree: fewer than two returns always give the floor. */
  lemma ShortWindowsAgree(closes: seq<real>, more: seq<real>, lookback: nat, ln: real -> real, sqrt: real -> real)
    requires |Window(LogReturns(closes, ln), lookback)| < 2 && |Window(LogReturns(more, ln), lookback)| < 2
    ensures RealizedVol(closes, lookback, ln, sqrt) == RealizedVol(more, lookback, ln, sqrt) == VOL_FLOOR
  {
  }

  lemma OneClose(closes: seq<real>)
    requires |closes| == 1
    ensures NoPair(closes)
  {
  }

  lemma TailWindow(early: seq<real>, late: seq<real>, lookback: nat)
    requires |late| <= lookback
    ensures Window(late, lookback) == Window(early + late, lookback) <==>
      (lookback >= 1 && |late| == lookback) || early == []
  {
    if lookback >= 1 && |late| == lookback {
      assert Window(early + late, lookback) == late;
    }
    if early == [] { assert early + late == late; }
    assert |Window(early + late, lookback)| == if lookback != 0 && |early| + |late| > lookback then lookback
      else |early| + |late|;
  }

  /** On positive closes with a positive lookback the slice is enough. */
  lemma SliceRefinesHistory(closes: seq<real>, lookback: nat, ln: real -> real, sqrt: real -> real)
    requires closes != [] && AllPositive(closes) && lookback >= 1
    ensures RealizedVol(closes[SliceStart(|closes|, lookback)..], lookback, ln, sqrt)
      == RealizedVol(closes, lookback, ln, sqrt)
  {
    hide Estimate;
    var k := SliceStart(|closes|, lookback);
    assert AllPositive(closes[k..]);
    WindowExactIff(closes, lookback, ln);
  }

  /** One bad close inside the slice: with lookback 2 on 1, 2, 3, 0, 5 the slice sees no return at all, the full
      history sees two. */
  lemma BadCloseStarvesTheSlice(ln: real -> real)
    ensures var closes := [1.0, 2.0, 3.0, 0.0, 5.0];
      Window(LogReturns(closes[SliceStart(5, 2)..], ln), 2) == [] && |Window(LogReturns(closes, ln), 2)| == 2
  {
    var closes := [1.0, 2.0, 3.0, 0.0, 5.0];
    ReturnsSplit(closes, 2, ln);
    assert closes[..3] == [1.0, 2.0, 3.0] && closes[2..] == [3.0, 0.0, 5.0];
    ReturnsCount([1.0, 2.0, 3.0], ln);
    ReturnsCount([3.0, 0.0, 5.0], ln);
  }
}
