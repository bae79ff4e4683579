/** Equity-curve metrics: drawdown, daily returns and total return. */
module Metrics {
  import opened Numbers

  function Peak(equity: seq<real>, n: nat): real
    requires 0 < n <= |equity|
  {
    if n == 1 then equity[0] else Max(equity[n - 1], Peak(equity, n - 1))
  }

  function Drop(v: real, peak: real): real
    requires peak != 0.0
  {
    (v - peak) / peak
  }

  /** Worst drop from the running peak over the first n points, as the one-pass loop accumulates it. */
  function Drawdown(equity: seq<real>, n: nat): real
    requires n <= |equity|
  {
    if n == 0 then 0.0
    else
      var peak := Peak(equity, n);
      var was := Drawdown(equity, n - 1);
      if peak > 0.0 then Min(Drop(equity[n - 1], peak), was) else was
  }

  method MaxDrawdown(equity: seq<real>) returns (mdd: real)
    ensures mdd == Drawdown(equity, |equity|)
  {
    hide Drop;
    if equity == [] { return 0.0; }
    var peak := equity[0];
    mdd := 0.0;
    for i := 0 to |equity|
      invariant peak == if i == 0 then equity[0] else Peak(equity, i)
      invariant mdd == Drawdown(equity, i)
    {
      var v := equity[i];
      if v > peak { peak := v; }
      if peak > 0.0 {
        var dd := Drop(v, peak);
        if dd < mdd { mdd := dd; }
      }
    }
  }

  // ---- the pairwise meaning ----

  /** Among the first n points some pair i <= j with equity[i] positive drops by exactly m. */
  ghost predicate Attained(equity: seq<real>, n: nat, m: real)
    requires n <= |equity|
  {
    exists i, j :: 0 <= i <= j < n && equity[i] > 0.0 && Drop(equity[j], equity[i]) == m
  }

  /** m is the worst drop over all pairs; 0 when nothing ever drops. */
  ghost predicate WorstPair(equity: seq<real>, n: nat, m: real)
    requires n <= |equity|
  {
    && (forall i, j :: 0 <= i <= j < n && equity[i] > 0.0 ==> m <= Drop(equity[j], equity[i]))
    && (m == 0.0 || Attained(equity, n, m))
    && m <= 0.0
  }

  lemma {:induction false} PeakIsMax(equity: seq<real>, n: nat)
    requires 0 < n <= |equity|
    ensures forall i :: 0 <= i < n ==> equity[i] <= Peak(equity, n)
    ensures exists i :: 0 <= i < n && equity[i] == Peak(equity, n)
  {
    if n == 1 {
      assert equity[0] == Peak(equity, 1);
    } else {
      PeakIsMax(equity, n - 1);
      var i :| 0 <= i < n - 1 && equity[i] == Peak(equity, n - 1);
      assert equity[if equity[n - 1] >= equity[i] then n - 1 else i] == Peak(equity, n);
    }
  }

  /** A non-negative value drops furthest from the highest base. */
  lemma DropFromPeak(v: real, base: real, peak: real)
    requires v >= 0.0 && 0.0 < base <= peak
    ensures Drop(v, peak) <= Drop(v, base)
  {
    hide Mul;
    var x, y := v / peak, v / base;
    assert Drop(v, peak) == x - 1.0 && Drop(v, base) == y - 1.0 by {
      DropIsQuotient(v, peak);
      DropIsQuotient(v, base);
    }
    QuotientMono(v, base, peak);
  }

  lemma DropIsQuotient(v: real, peak: real)
    requires peak > 0.0
    ensures Drop(v, peak) == v / peak - 1.0
  {
    var q := v / peak;
    DivMul(v, peak);
    assert peak * (q - 1.0) == v - peak;
    QuotientIs(v - peak, peak, q - 1.0);
  }

  lemma QuotientIs(x: real, y: real, c: real)
    requires y != 0.0 && y * c == x
    ensures x / y == c
  {
  }

  lemma QuotientMono(v: real, base: real, peak: real)
    requires v >= 0.0 && 0.0 < base <= peak
    ensures v / peak <= v / base
  {
    hide Mul;
    var x, y := v / peak, v / base;
    assert Mul(x, peak) == v && Mul(y, base) == v by {
      DivMul(v, peak);
      DivMul(v, base);
      ProductIs(x, peak);
      ProductIs(y, base);
    }
    MulAdd(base, peak - base, x);
    if x > y {
      QuotientNonNegative(v, peak);
      MulSign(x, peak - base);
      MulAdd(x - y, y, base);
      MulSign(x - y, base);
    }
  }

  lemma ProductIs(a: real, b: real)
    ensures Mul(a, b) == a * b
  {
  }

  lemma QuotientNonNegative(v: real, p: real)
    requires v >= 0.0 && p > 0.0
    ensures v / p >= 0.0
  {
    hide Mul;
    var q := v / p;
    DivMul(v, p);
    ProductIs(q, p);
    if q < 0.0 {
      MulNeg(q, p);
      MulSign(-q, p);
    }
  }

  /** Point t drops from its running peak to x or further. */
  ghost predicate ReachesAt(equity: seq<real>, t: nat, x: real)
    requires t < |equity|
  {
    Peak(equity, t + 1) > 0.0 && Drop(equity[t], Peak(equity, t + 1)) <= x
  }

  ghost predicate Reaches(equity: seq<real>, n: nat, x: real)
    requires n <= |equity|
  {
    exists t :: 0 <= t < n && ReachesAt(equity, t, x)
  }

  lemma {:induction false} DrawdownReaches(equity: seq<real>, n: nat, x: real)
    requires n <= |equity|
    ensures Drawdown(equity, n) <= x <==> x >= 0.0 || Reaches(equity, n, x)
  {
    hide Drop, Peak;
    if n > 0 {
      DrawdownReaches(equity, n - 1, x);
      if ReachesAt(equity, n - 1, x) { assert Reaches(equity, n, x); }
    }
  }

  /** Whatever the signs, the one-pass result is no gain and some pair attains it. */
  lemma {:induction false} DrawdownAttained(equity: seq<real>, n: nat)
    requires n <= |equity|
    ensures var m := Drawdown(equity, n); m <= 0.0 && (m == 0.0 || Attained(equity, n, m))
  {
    hide Drop;
    if n > 0 {
      DrawdownAttained(equity, n - 1);
      PeakIsMax(equity, n);
      var top :| 0 <= top < n && equity[top] == Peak(equity, n);
      if Drawdown(equity, n) == Drawdown(equity, n - 1) {
        assert Attained(equity, n - 1, Drawdown(equity, n)) ==> Attained(equity, n, Drawdown(equity, n));
      } else {
        assert equity[top] > 0.0 && Drop(equity[n - 1], equity[top]) == Drawdown(equity, n);
      }
    }
  }

  /** A drop that ends at or above zero is never missed. */
  lemma CoversNonNegative(equity: seq<real>, n: nat, i: nat, j: nat)
    requires i <= j < n <= |equity| && equity[i] > 0.0 && equity[j] >= 0.0
    ensures Drawdown(equity, n) <= Drop(equity[j], equity[i])
  {
    hide Drop;
    PeakIsMax(equity, j + 1);
    DropFromPeak(equity[j], equity[i], Peak(equity, j + 1));
    assert ReachesAt(equity, j, Drop(equity[j], equity[i]));
    DrawdownReaches(equity, n, Drop(equity[j], equity[i]));
  }

  /** Every fall from a positive value to below zero is matched by a drop from a running peak at least as deep. */
  ghost predicate FallsMatched(equity: seq<real>, n: nat)
    requires n <= |equity|
  {
    forall i, j :: 0 <= i <= j < n && equity[i] > 0.0 && equity[j] < 0.0 ==>
      Reaches(equity, n, Drop(equity[j], equity[i]))
  }

  lemma FallIsLoss(v: real, base: real)
    requires v < 0.0 < base
    ensures Drop(v, base) < 0.0
  {
    hide Mul;
    DropIsQuotient(v, base);
    DivMul(v, base);
    var q := v / base;
    ProductIs(q, base);
    if q >= 0.0 { MulSign(q, base); }
  }

  /** One pass finds the worst drop over every ordered pair exactly when every fall below zero is matched. */
  lemma OnePassExactIff(equity: seq<real>, n: nat)
    requires n <= |equity|
    ensures WorstPair(equity, n, Drawdown(equity, n)) <==> FallsMatched(equity, n)
  {
    hide Drop, Drawdown, Reaches;
    var m := Drawdown(equity, n);
    DrawdownAttained(equity, n);
    forall i, j | 0 <= i <= j < n && equity[i] > 0.0
      ensures m <= Drop(equity[j], equity[i]) <==> equity[j] >= 0.0 || Reaches(equity, n, Drop(equity[j], equity[i]))
    {
      if equity[j] >= 0.0 {
        CoversNonNegative(equity, n, i, j);
      } else {
        FallIsLoss(equity[j], equity[i]);
        DrawdownReaches(equity, n, Drop(equity[j], equity[i]));
      }
    }
  }

  // ---- the same condition, read off the curve alone ----

  /** From a positive value at i the curve is below zero at j. */
  ghost predicate IsFall(equity: seq<real>, n: nat, i: nat, j: nat)
    requires n <= |equity|
  {
    i <= j < n && equity[i] > 0.0 && equity[j] < 0.0
  }

  /** No fall drops further than the one from b to t. */
  ghost predicate DeepestFall(equity: seq<real>, n: nat, b: nat, t: nat)
    requires n <= |equity|
  {
    && IsFall(equity, n, b, t)
    && forall i: nat, j: nat :: IsFall(equity, n, i, j) ==> Drop(equity[t], equity[b]) <= Drop(equity[j], equity[i])
  }

  /** Every positive value up to t is the value at b. */
  ghost predicate OneBase(equity: seq<real>, b: nat, t: nat) {
    b <= t < |equity| && forall i :: 0 <= i <= t && equity[i] > 0.0 ==> equity[i] == equity[b]
  }

  /** A value below zero drops strictly further from a lower base. */
  lemma DropStrict(v: real, base: real, peak: real)
    requires v < 0.0 < base < peak
    ensures Drop(v, base) < Drop(v, peak)
  {
    hide Mul;
    var x, y := v / peak, v / base;
    DropIsQuotient(v, peak);
    DropIsQuotient(v, base);
    DivMul(v, peak);
    DivMul(v, base);
    ProductIs(x, peak);
    ProductIs(y, base);
    MulAdd(base, peak - base, y);
    if y >= 0.0 { MulSign(y, base); }
    MulNeg(y, peak - base);
    MulSign(-y, peak - base);
    if y >= x {
      MulAdd(x, y - x, peak);
      MulSign(y - x, peak);
    }
  }

  /** Only a value below zero drops by more than everything. */
  lemma DropBelowOne(v: real, base: real)
    requires base > 0.0
    ensures Drop(v, base) < -1.0 <==> v < 0.0
  {
    hide Mul;
    var q := v / base;
    DropIsQuotient(v, base);
    DivMul(v, base);
    ProductIs(q, base);
    MulSign(q, base);
    MulNeg(q, base);
    MulSign(-q, base);
  }

  /** Where one base serves, the running peak is that base. */
  lemma BaseIsPeak(equity: seq<real>, b: nat, t: nat)
    requires OneBase(equity, b, t) && equity[b] > 0.0
    ensures Peak(equity, t + 1) == equity[b]
  {
    PeakIsMax(equity, t + 1);
  }

  lemma DeepestMatches(equity: seq<real>, n: nat, b: nat, t: nat)
    requires n <= |equity| && DeepestFall(equity, n, b, t) && OneBase(equity, b, t)
    ensures FallsMatched(equity, n)
  {
    hide Drop, Peak;
    BaseIsPeak(equity, b, t);
    forall i, j | 0 <= i <= j < n && equity[i] > 0.0 && equity[j] < 0.0
      ensures Reaches(equity, n, Drop(equity[j], equity[i]))
    {
      assert IsFall(equity, n, i, j);
      assert ReachesAt(equity, t, Drop(equity[j], equity[i]));
    }
  }

  /** A worst pair that falls below zero starts from the only positive value seen so far. */
  lemma WorstFall(equity: seq<real>, n: nat, i: nat, j: nat) returns (b: nat, t: nat)
    requires n <= |equity| && WorstPair(equity, n, Drawdown(equity, n)) && IsFall(equity, n, i, j)
    ensures DeepestFall(equity, n, b, t) && OneBase(equity, b, t)
  {
    hide Drop, Peak, Drawdown;
    var m := Drawdown(equity, n);
    FallIsLoss(equity[j], equity[i]);
    DrawdownReaches(equity, n, m);
    t :| 0 <= t < n && ReachesAt(equity, t, m);
    PeakIsMax(equity, t + 1);
    b :| 0 <= b < t + 1 && equity[b] == Peak(equity, t + 1);
    assert Drop(equity[t], equity[b]) == m;
    DropBelowOne(equity[j], equity[i]);
    DropBelowOne(equity[t], equity[b]);
    forall p | 0 <= p <= t && equity[p] > 0.0 ensures equity[p] == equity[b] {
      assert m <= Drop(equity[t], equity[p]);
      if equity[p] < equity[b] { DropStrict(equity[t], equity[p], equity[b]); }
    }
    assert IsFall(equity, n, b, t);
  }

  ghost predicate NoFall(equity: seq<real>, n: nat)
    requires n <= |equity|
  {
    forall i: nat, j: nat :: !IsFall(equity, n, i, j)
  }

  lemma NoFallMatches(equity: seq<real>, n: nat)
    requires n <= |equity| && NoFall(equity, n)
    ensures FallsMatched(equity, n)
  {
    hide Drop, Reaches;
    forall i, j | 0 <= i <= j < n ensures equity[i] > 0.0 ==> equity[j] >= 0.0 {
      assert !IsFall(equity, n, i, j);
    }
  }

  /** One pass finds the worst drop exactly when the curve never falls from above zero to below it, or some deepest
      such fall has a single positive value to start from. */
  lemma OnePassExactOnCurve(equity: seq<real>, n: nat)
    requires n <= |equity|
    ensures WorstPair(equity, n, Drawdown(equity, n)) <==>
      NoFall(equity, n) || exists b: nat, t: nat :: DeepestFall(equity, n, b, t) && OneBase(equity, b, t)
  {
    hide Drop, Drawdown, WorstPair, DeepestFall, OneBase, FallsMatched, IsFall;
    OnePassExactIff(equity, n);
    if NoFall(equity, n) {
      NoFallMatches(equity, n);
    } else if WorstPair(equity, n, Drawdown(equity, n)) {
      var i: nat, j: nat :| IsFall(equity, n, i, j);
      var b, t := WorstFall(equity, n, i, j);
    } else if b: nat, t: nat :| DeepestFall(equity, n, b, t) && OneBase(equity, b, t) {
      DeepestMatches(equity, n, b, t);
    }
  }

  /** In particular on every curve that never goes negative. */
  lemma OnePassIsPairwise(equity: seq<real>, n: nat)
    requires n <= |equity| && forall i :: 0 <= i < n ==> equity[i] >= 0.0
    ensures WorstPair(equity, n, Drawdown(equity, n))
  {
    hide Drop, Drawdown, WorstPair, Reaches;
    OnePassExactIff(equity, n);
  }

  /** Below zero the running peak is no longer the worst base: on 1, 2, -2 one pass reports -2, the pair (1, -2)
      drops by -3. */
  lemma NegativeEquityIsMisread()
    ensures var equity := [1.0, 2.0, -2.0];
      Drawdown(equity, 3) == -2.0 && Drop(equity[2], equity[0]) == -3.0 && !WorstPair(equity, 3, Drawdown(equity, 3))
  {
    var equity := [1.0, 2.0, -2.0];
    assert Peak(equity, 1) == 1.0 && Peak(equity, 2) == 2.0 && Peak(equity, 3) == 2.0;
    assert Drawdown(equity, 1) == 0.0 && Drawdown(equity, 2) == 0.0;
  }

  // ---- returns ----

  function DailyReturns(equity: seq<real>, n: nat): seq<real>
    requires n <= |equity|
  {
    if n < 2 then []
    else DailyReturns(equity, n - 1) + [if equity[n - 2] != 0.0 then equity[n - 1] / equity[n - 2] - 1.0 else 0.0]
  }

  method ComputeDailyReturns(equity: seq<real>) returns (out: seq<real>)
    ensures out == DailyReturns(equity, |equity|)
  {
    out := [];
    if equity == [] { return; }
    for i := 1 to |equity|
      invariant out == DailyReturns(equity, i)
    {
      out := out + [if equity[i - 1] != 0.0 then equity[i] / equity[i - 1] - 1.0 else 0.0];
    }
  }

  function TotalReturn(equity: seq<real>): real {
    if |equity| < 2 || equity[0] == 0.0 then 0.0 else equity[|equity| - 1] / equity[0] - 1.0
  }

  function Compounded(rs: seq<real>): real {
    if rs == [] then 1.0 else Mul(Compounded(rs[..|rs| - 1]), 1.0 + rs[|rs| - 1])
  }

  /** The last return multiplies what came before. */
  lemma CompoundSnoc(equity: seq<real>, n: nat)
    requires 2 <= n <= |equity| && equity[n - 2] != 0.0
    ensures Compounded(DailyReturns(equity, n))
         == Mul(Compounded(DailyReturns(equity, n - 1)), equity[n - 1] / equity[n - 2])
  {
    hide Mul;
    var was, r := DailyReturns(equity, n - 1), equity[n - 1] / equity[n - 2] - 1.0;
    assert DailyReturns(equity, n) == was + [r] && (was + [r])[..|was|] == was;
    assert 1.0 + r == equity[n - 1] / equity[n - 2];
  }

  lemma {:induction false} CompoundsToEnd(equity: seq<real>, n: nat)
    requires 0 < n <= |equity| && forall i :: 0 <= i < |equity| - 1 ==> equity[i] != 0.0
    ensures Mul(equity[0], Compounded(DailyReturns(equity, n))) == equity[n - 1]
  {
    hide Mul;
    if n == 1 {
      MulUnit(equity[0]);
    } else {
      hide Compounded, DailyReturns;
      var r := equity[n - 1] / equity[n - 2];
      CompoundsToEnd(equity, n - 1);
      CompoundSnoc(equity, n);
      MulAssoc(equity[0], Compounded(DailyReturns(equity, n - 1)), r);
      DivMul(equity[n - 1], equity[n - 2]);
      ProductIs(equity[n - 2], r);
    }
  }

  lemma MulAssoc(a: real, b: real, c: real)
    ensures Mul(a, Mul(b, c)) == Mul(Mul(a, b), c)
  {
    assert a * (b * c) == (a * b) * c;
  }

  /** Daily returns compound to the total return, on every curve whose divisors are not zero. */
  lemma ReturnsCompound(equity: seq<real>)
    requires |equity| >= 2 && forall i :: 0 <= i < |equity| - 1 ==> equity[i] != 0.0
    ensures Compounded(DailyReturns(equity, |equity|)) == 1.0 + TotalReturn(equity)
  {
    hide Mul, Compounded;
    var c, n := Compounded(DailyReturns(equity, |equity|)), |equity|;
    CompoundsToEnd(equity, n);
    ProductIs(equity[0], c);
    QuotientIs(equity[n - 1], equity[0], c);
  }

  /** After a zero the return is reported as zero, and so is the total return from a zero start or of a single point. */
  lemma ZeroBases(equity: seq<real>, n: nat)
    requires 2 <= n <= |equity| && equity[n - 2] == 0.0
    ensures DailyReturns(equity, n) == DailyReturns(equity, n - 1) + [0.0]
    ensures equity[0] == 0.0 ==> TotalReturn(equity) == 0.0
    ensures TotalReturn(equity[..1]) == 0.0 == TotalReturn([])
  {
  }
}
