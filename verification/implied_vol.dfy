/** `implied_vol`: Newton from 0.2 with a bisection fallback. Price and vega are arbitrary functions of sigma. */
module ImpliedVol {
  import opened Wrappers
  import opened Numbers

  const LO := 0.0001
  const HI := 5.0
  const MAX_ITER := 100
  const TOL := 0.000001

  function Pow2(n: nat): (p: real)
    ensures p >= 1.0
  {
    if n == 0 then 1.0 else 2.0 * Pow2(n - 1)
  }

  type Curve = real -> real

  ghost predicate Increasing(f: Curve) { forall a, b :: LO <= a < b <= HI ==> f(a) < f(b) }

  predicate SameSign(a: real, b: real) { (a > 0.0 && b > 0.0) || (a < 0.0 && b < 0.0) }

  /** How far a fallback result may be from the root: half the bracket that a hundred halvings leave. */
  function ErrorBound(): real { (HI - LO) / Pow2(MAX_ITER + 1) }

  predicate Near(r: real, x: real) { Abs(r - x) <= ErrorBound() }

  // ---- Newton ----

  function NextSigma(sigma: real, f: real, v: real): real
    requires v > 0.0
  {
    sigma - f / v
  }

  /** t is the Newton iterate after s: s missed the tolerance and its vega was large enough. */
  ghost predicate NewtonStep(diff: Curve, vega: Curve, s: real, t: real) {
    Abs(diff(s)) >= TOL && vega(s) >= 0.00000001 && t == NextSigma(s, diff(s), vega(s))
  }

  /** What the loop returns from iterate number k. */
  function Newtonian(diff: Curve, vega: Curve, sigma: real, k: nat): Option<real>
    requires k <= MAX_ITER
    decreases MAX_ITER - k
  {
    if k == MAX_ITER then None
    else if Abs(diff(sigma)) < TOL then Some(sigma)
    else if vega(sigma) < 0.00000001 then None
    else
      var nxt := NextSigma(sigma, diff(sigma), vega(sigma));
      if nxt <= LO || nxt >= HI then None else Newtonian(diff, vega, nxt, k + 1)
  }

  /** A Newton result is returned only within tolerance, and every iterate stays strictly inside the bracket.
      None hands over to bisection. */
  method Newton(diff: Curve, vega: Curve) returns (r: Option<real>, ghost iterates: seq<real>)
    ensures r == Newtonian(diff, vega, 0.2, 0)
    ensures r.Some? ==> Abs(diff(r.value)) < TOL && LO < r.value < HI
    ensures |iterates| >= 1 && iterates[0] == 0.2
    ensures forall i :: 0 <= i < |iterates| ==> LO < iterates[i] < HI
    ensures forall i :: 0 < i < |iterates| ==> NewtonStep(diff, vega, iterates[i - 1], iterates[i])
    ensures r.Some? ==> r.value == iterates[|iterates| - 1]
  {
    hide NextSigma, NewtonStep;
    var sigma := 0.2;
    iterates := [sigma];
    for k := 0 to MAX_ITER
      invariant Newtonian(diff, vega, sigma, k) == Newtonian(diff, vega, 0.2, 0)
      invariant |iterates| >= 1 && iterates[0] == 0.2 && iterates[|iterates| - 1] == sigma
      invariant forall i :: 0 <= i < |iterates| ==> LO < iterates[i] < HI
      invariant forall i :: 0 < i < |iterates| ==> NewtonStep(diff, vega, iterates[i - 1], iterates[i])
    {
      var f := diff(sigma);
      if Abs(f) < TOL { return Some(sigma), iterates; }
      var v := vega(sigma);
      if v < 0.00000001 { return None, iterates; }
      var nxt := NextSigma(sigma, f, v);
      if nxt <= LO || nxt >= HI { return None, iterates; }
      StepTaken(diff, vega, sigma);
      sigma := nxt;
      iterates := iterates + [sigma];
    }
    r := None;
  }

  /** On a straight price line with its own slope as vega, one Newton step lands on the root. */
  lemma NewtonOnALine(slope: real, root: real, s: real)
    requires slope > 0.0
    ensures NextSigma(s, Mul(slope, s - root), slope) == root
  {
    var f := Mul(slope, s - root);
    var q := f / slope;
    DivMul(f, slope);
    assert q * slope == (s - root) * slope;
    if q < s - root { MulPos(s - root - q, slope); }
    if q > s - root { MulPos(q - (s - root), slope); }
  }

  /** The error bound in numbers: the bracket from 0.0001 to 5, halved 101 times. */
  lemma BoundInNumbers()
    ensures ErrorBound() * Pow2(101) == 4.9999
  {
    hide Pow2;
    DivMul(HI - LO, Pow2(101));
  }

  /** Newton in numbers: on a curve that is zero everywhere but at 0.2, the search ends at 0.2 on a miss below a
      millionth; otherwise it takes one Newton step, given a positive slope and a landing inside the bracket. A slope
      too flat to be used at all would leave the bracket anyway. */
  lemma NewtonInNumbers(miss: real, slope: real)
    ensures var diff: Curve, vega: Curve := s => if s == 0.2 then miss else 0.0, s => slope;
      Newtonian(diff, vega, 0.2, 0)
      == if -0.000001 < miss < 0.000001 then Some(0.2)
         else if slope > 0.0 && 0.0001 < 0.2 - miss / slope < 5.0 then Some(0.2 - miss / slope)
         else None
  {
    var diff: Curve, vega: Curve := s => if s == 0.2 then miss else 0.0, s => slope;
    if Abs(miss) >= 0.000001 && slope > 0.0 {
      var q := miss / slope;
      DivMul(miss, slope);
      if slope < 0.00000001 {
        FlatSlope(q, slope, miss);
      } else if LO < 0.2 - q < HI {
        assert NextSigma(0.2, miss, slope) == 0.2 - q;
        assert q != 0.0;
      }
    }
  }

  /** A miss of a millionth over a slope below 1e-8 is a step of more than a hundred. */
  lemma FlatSlope(step: real, slope: real, miss: real)
    requires 0.0 < slope < 0.00000001 && Abs(miss) >= 0.000001 && step * slope == miss
    ensures Abs(step) > 100.0
  {
    if Abs(step) <= 100.0 { ShortStep(step, slope); }
  }

  lemma ShortStep(step: real, slope: real)
    requires slope > 0.0 && Abs(step) <= 100.0
    ensures Abs(step * slope) <= 100.0 * slope
  {
    MulSign(100.0 - step, slope);
    MulSign(100.0 + step, slope);
    MulAdd(100.0, step, slope);
    MulAdd(100.0, -step, slope);
    MulNeg(step, slope);
  }

  lemma StepTaken(diff: Curve, vega: Curve, s: real)
    requires Abs(diff(s)) >= TOL && vega(s) >= 0.00000001
    ensures NewtonStep(diff, vega, s, NextSigma(s, diff(s), vega(s)))
  {
    hide NextSigma;
  }

  // ---- bisection ----

  /** What the loop returns from bracket (lo, hi) after k halvings, flo being the value at lo. */
  function Halving(diff: Curve, lo: real, hi: real, flo: real, k: nat): real
    requires k <= MAX_ITER
    decreases MAX_ITER - k
  {
    var mid := 0.5 * (lo + hi);
    if k == MAX_ITER || Abs(diff(mid)) < TOL then mid
    else if Mul(flo, diff(mid)) < 0.0 then Halving(diff, lo, mid, flo, k + 1)
    else Halving(diff, mid, hi, diff(mid), k + 1)
  }

  function Bisected(diff: Curve): Option<real> {
    if Mul(diff(LO), diff(HI)) > 0.0 then None else Some(Halving(diff, LO, HI, diff(LO), 0))
  }

  /** The fallback's promise: within tolerance, or within the error bound of every root. */
  ghost predicate Found(diff: Curve, r: real) {
    Abs(diff(r)) < TOL || forall x :: LO <= x <= HI && diff(x) == 0.0 ==> Near(r, x)
  }

  function Middle(b: (real, real)): real { 0.5 * (b.0 + b.1) }

  /** One half of the bracket before it. */
  predicate IsHalf(was: (real, real), now: (real, real)) {
    now == (was.0, Middle(was)) || now == (Middle(was), was.1)
  }

  /** Bracket number i of a search: 2^i times narrower than the first, and on an increasing curve that starts below
      zero it holds every root. */
  ghost predicate IsBracket(diff: Curve, b: (real, real), i: nat) {
    && LO <= b.0 < b.1 <= HI && (b.1 - b.0) * Pow2(i) == HI - LO
    && (Increasing(diff) && diff(LO) < 0.0 <= diff(HI) ==>
          diff(b.0) < 0.0 <= diff(b.1) && forall x :: LO <= x <= HI && diff(x) == 0.0 ==> b.0 < x <= b.1)
  }

  /** The brackets of a search: they start at (LO, HI), and each is half the one before it. */
  ghost predicate IsSearch(diff: Curve, brackets: seq<(real, real)>) {
    && brackets != [] && brackets[0] == (LO, HI)
    && (forall i :: 0 <= i < |brackets| ==> IsBracket(diff, brackets[i], i))
    && (forall i :: 0 < i < |brackets| ==> IsHalf(brackets[i - 1], brackets[i]))
  }

  lemma FirstSearch(diff: Curve)
    ensures IsSearch(diff, [(LO, HI)])
  {
    PowZero();
  }

  lemma NextSearch(diff: Curve, brackets: seq<(real, real)>)
    requires IsSearch(diff, brackets)
    ensures var b := brackets[|brackets| - 1]; var fm := diff(Middle(b));
      && (Mul(diff(b.0), fm) < 0.0 ==> IsSearch(diff, brackets + [(b.0, Middle(b))]))
      && (Mul(diff(b.0), fm) >= 0.0 && fm != 0.0 ==> IsSearch(diff, brackets + [(Middle(b), b.1)]))
  {
    hide Mul, IsBracket;
    NextBracket(diff, brackets[|brackets| - 1], |brackets| - 1);
  }

  /** Halving towards the sign change keeps a bracket a bracket. */
  lemma NextBracket(diff: Curve, b: (real, real), i: nat)
    requires IsBracket(diff, b, i)
    ensures Mul(diff(b.0), diff(Middle(b))) < 0.0 ==> IsBracket(diff, (b.0, Middle(b)), i + 1)
    ensures Mul(diff(b.0), diff(Middle(b))) >= 0.0 && diff(Middle(b)) != 0.0 ==>
      IsBracket(diff, (Middle(b), b.1), i + 1)
  {
    hide Pow2, Mul;
    SameSigns(diff(b.0), diff(Middle(b)));
    Halve(b.1 - b.0, i);
  }

  /** None exactly when the signs at the ends agree. Each bracket is half the one before, and holds the root. On an
      increasing curve the promise is kept exactly when the
      lower end is below the root or the first midpoint is already within tolerance. */
  method Bisect(diff: Curve) returns (r: Option<real>, ghost brackets: seq<(real, real)>)
    ensures r == Bisected(diff)
    ensures r.Some? ==> IsSearch(diff, brackets) && r.value == Middle(brackets[|brackets| - 1])
    ensures r.None? <==> SameSign(diff(LO), diff(HI))
    ensures r.Some? ==> LO < r.value < HI
    ensures r.Some? && Increasing(diff) ==> (Found(diff, r.value) <==> diff(LO) < 0.0 || diff(0.5 * (LO + HI)) < TOL)
    ensures r.Some? && Increasing(diff) && diff(LO) == 0.0 ==> r.value >= (LO + HI) / 2.0 && !Near(r.value, LO)
  {
    hide Mul, Found, Near, Increasing, IsSearch, ErrorBound, Pow2;
    BisectedPromises(diff);
    var lo, hi := LO, HI;
    var flo, fhi := diff(lo), diff(hi);
    brackets := [];
    if Mul(flo, fhi) > 0.0 { return None, brackets; }
    assert Bisected(diff) == Some(Halving(diff, lo, hi, flo, 0));
    hide Bisected, SameSign, Halving, Middle;
    brackets := [(lo, hi)];
    FirstSearch(diff);
    for k := 0 to MAX_ITER
      invariant Bisected(diff) == Some(Halving(diff, lo, hi, flo, k))
      invariant flo == diff(lo) && IsSearch(diff, brackets) && |brackets| == k + 1 && brackets[k] == (lo, hi)
    {
      var mid := Middle((lo, hi));
      var fm := diff(mid);
      HalvingStep(diff, lo, hi, flo, k);
      if Abs(fm) < TOL { return Some(mid), brackets; }
      NextSearch(diff, brackets);
      if Mul(flo, fm) < 0.0 {
        hi := mid;
      } else {
        lo, flo := mid, fm;
      }
      brackets := brackets + [(lo, hi)];
    }
    HalvingEnds(diff, lo, hi, flo);
    r := Some(Middle((lo, hi)));
  }

  lemma HalvingStep(diff: Curve, lo: real, hi: real, flo: real, k: nat)
    requires k < MAX_ITER
    ensures var mid := Middle((lo, hi));
      Halving(diff, lo, hi, flo, k) ==
        if Abs(diff(mid)) < TOL then mid
        else if Mul(flo, diff(mid)) < 0.0 then Halving(diff, lo, mid, flo, k + 1)
        else Halving(diff, mid, hi, diff(mid), k + 1)
  {
    hide Mul;
  }

  lemma HalvingEnds(diff: Curve, lo: real, hi: real, flo: real)
    ensures Halving(diff, lo, hi, flo, MAX_ITER) == Middle((lo, hi))
  {
  }

  lemma {:induction false} HalvingInside(diff: Curve, lo: real, hi: real, flo: real, k: nat)
    requires lo < hi && k <= MAX_ITER
    ensures lo < Halving(diff, lo, hi, flo, k) < hi
    decreases MAX_ITER - k
  {
    hide Mul;
    var mid := 0.5 * (lo + hi);
    if k < MAX_ITER {
      HalvingInside(diff, lo, mid, flo, k + 1);
      HalvingInside(diff, mid, hi, diff(mid), k + 1);
    }
  }

  /** The bracket always holds the root and halves each step. */
  lemma {:induction false} HalvingFinds(diff: Curve, lo: real, hi: real, k: nat)
    requires Increasing(diff) && LO <= lo < hi <= HI && diff(lo) < 0.0 <= diff(hi)
    requires k <= MAX_ITER && (hi - lo) * Pow2(k) == HI - LO
    ensures Found(diff, Halving(diff, lo, hi, diff(lo), k))
    decreases MAX_ITER - k
  {
    hide Pow2, ErrorBound, Mul;
    var mid := 0.5 * (lo + hi);
    if k == MAX_ITER {
      HalfBracket(hi - lo);
      forall x | LO <= x <= HI && diff(x) == 0.0 ensures Near(mid, x) {
        assert lo < x <= hi;
      }
    } else if Abs(diff(mid)) >= TOL {
      SameSigns(diff(lo), diff(mid));
      Halve(hi - lo, k);
      if diff(mid) > 0.0 { HalvingFinds(diff, lo, mid, k + 1); } else { HalvingFinds(diff, mid, hi, k + 1); }
    }
  }

  /** Once the lower end is positive, the bracket only moves up. */
  lemma {:induction false} HalvingDrifts(diff: Curve, lo: real, k: nat)
    requires Increasing(diff) && LO <= lo < HI && diff(lo) >= TOL && k <= MAX_ITER
    ensures lo < Halving(diff, lo, HI, diff(lo), k) < HI && diff(Halving(diff, lo, HI, diff(lo), k)) >= TOL
    decreases MAX_ITER - k
  {
    hide Mul;
    var mid := 0.5 * (lo + HI);
    SameSigns(diff(lo), diff(mid));
    if k < MAX_ITER { HalvingDrifts(diff, mid, k + 1); }
  }

  lemma BisectExactIff(diff: Curve)
    requires Increasing(diff) && !SameSign(diff(LO), diff(HI))
    ensures Bisected(diff).Some?
    ensures Found(diff, Bisected(diff).value) <==> diff(LO) < 0.0 || diff(0.5 * (LO + HI)) < TOL
    ensures diff(LO) == 0.0 ==> Bisected(diff).value >= (LO + HI) / 2.0 && !Near(Bisected(diff).value, LO)
  {
    hide Pow2, ErrorBound, Mul, Halving;
    var mid := 0.5 * (LO + HI);
    SameSigns(diff(LO), diff(HI));
    assert diff(LO) <= 0.0 <= diff(HI);
    if diff(LO) < 0.0 {
      PowZero();
      HalvingFinds(diff, LO, HI, 0);
    } else {
      FirstHalving(diff);
      if diff(mid) >= TOL { HalvingDrifts(diff, mid, 1); }
      SmallBound();
      assert !Near(Bisected(diff).value, LO);
    }
  }

  lemma BisectedPromises(diff: Curve)
    ensures var r := Bisected(diff);
      && (r.None? <==> SameSign(diff(LO), diff(HI)))
      && (r.Some? ==> LO < r.value < HI)
      && (r.Some? && Increasing(diff) ==> (Found(diff, r.value) <==> diff(LO) < 0.0 || diff(0.5 * (LO + HI)) < TOL))
      && (r.Some? && Increasing(diff) && diff(LO) == 0.0 ==> r.value >= (LO + HI) / 2.0 && !Near(r.value, LO))
  {
    hide Mul, Found, Near, Increasing, Halving;
    SameSigns(diff(LO), diff(HI));
    HalvingInside(diff, LO, HI, diff(LO), 0);
    if Increasing(diff) && Bisected(diff).Some? { BisectExactIff(diff); }
  }

  lemma FirstHalving(diff: Curve)
    requires Increasing(diff) && diff(LO) == 0.0
    ensures var mid := 0.5 * (LO + HI);
      Bisected(diff) == Some(if diff(mid) < TOL then mid else Halving(diff, mid, HI, diff(mid), 1))
  {
    hide Mul;
    SameSigns(diff(LO), diff(HI));
    SameSigns(diff(LO), diff(0.5 * (LO + HI)));
  }

  lemma PowZero()
    ensures Pow2(0) == 1.0
  {
  }

  lemma SameSigns(a: real, b: real)
    ensures Mul(a, b) > 0.0 <==> (a > 0.0 && b > 0.0) || (a < 0.0 && b < 0.0)
    ensures Mul(a, b) < 0.0 <==> (a > 0.0 && b < 0.0) || (a < 0.0 && b > 0.0)
  {
    hide Mul;
    MulSign(a, b);
    MulSign(-a, b);
    MulSign(a, -b);
    MulSign(-a, -b);
    MulNeg(a, b);
    MulNeg(-a, b);
    MulUnit(a);
    MulUnit(b);
  }

  /** Each step halves the bracket. */
  lemma Halve(w: real, k: nat)
    requires w * Pow2(k) == HI - LO
    ensures (0.5 * w) * Pow2(k + 1) == HI - LO
  {
  }

  lemma HalfBracket(w: real)
    requires w * Pow2(MAX_ITER) == HI - LO
    ensures 0.5 * w == ErrorBound()
  {
    hide Mul;
    Halve(w, MAX_ITER);
    var p, h := Pow2(MAX_ITER + 1), 0.5 * w;
    assert p * h == HI - LO;
    QuotientOf(HI - LO, p, h);
  }

  lemma QuotientOf(x: real, p: real, h: real)
    requires p != 0.0 && p * h == x
    ensures x / p == h
  {
  }

  // ---- the whole routine ----

  datatype Quote = Quote(isCall: bool, spot: real, strike: real, years: real, discQ: real, discR: real)

  function LowerBound(q: Quote): real {
    if q.isCall then Max(0.0, q.spot * q.discQ - q.strike * q.discR)
    else Max(0.0, q.strike * q.discR - q.spot * q.discQ)
  }

  function UpperBound(q: Quote): real { if q.isCall then q.spot * q.discQ else q.strike * q.discR }

  predicate Priceable(q: Quote, market: real) {
    && q.years > 0.0 && market > 0.0 && q.spot > 0.0 && q.strike > 0.0
    && LowerBound(q) - TOL <= market <= UpperBound(q) + TOL
  }

  /** A call and a put of one contract whose prices satisfy put-call parity lie inside their bounds together. */
  lemma BoundsAgreeUnderParity(q: Quote, call: real, put: real)
    requires call - put == q.spot * q.discQ - q.strike * q.discR
    ensures (LowerBound(q.(isCall := true)) - TOL <= call <= UpperBound(q.(isCall := true)) + TOL)
       <==> (LowerBound(q.(isCall := false)) - TOL <= put <= UpperBound(q.(isCall := false)) + TOL)
  {
  }

  /** An in-the-money option quoted below its discounted intrinsic value, or above what it can ever pay, is refused;
      one between is searched. */
  lemma BoundsRefuse(market: real, price: Curve, vega: Curve)
    ensures var call, put := Quote(true, 110.0, 100.0, 1.0, 1.0, 0.9), Quote(false, 90.0, 100.0, 1.0, 1.0, 0.95);
      && (market == 19.0 || market == 111.0 ==> ImpliedVol(market, call, price, vega).None?)
      && (market == 4.0 || market == 96.0 ==> ImpliedVol(market, put, price, vega).None?)
      && Priceable(call, 21.0) && Priceable(put, 6.0)
  {
  }

  /** How far the model price lies above the market. */
  function Excess(price: Curve, market: real): Curve { s => price(s) - market }

  function ImpliedVol(market: real, q: Quote, price: Curve, vega: Curve): Option<real> {
    if !Priceable(q, market) then None
    else
      var found := Newtonian(Excess(price, market), vega, 0.2, 0);
      if found.Some? then found else Bisected(Excess(price, market))
  }

  /** Without time to expiry, or at a price, spot or strike that is not positive, nothing is reported, whatever the
      model price says. */
  lemma NothingToSolve(market: real, q: Quote, price: Curve, vega: Curve)
    requires q.years <= 0.0 || market <= 0.0 || q.spot <= 0.0 || q.strike <= 0.0
    ensures ImpliedVol(market, q, price, vega).None?
  {
  }

  /** A reported volatility lies strictly between LO and HI. Where the price increases with volatility and starts
      below the market, or is within tolerance by the first midpoint, it is within price tolerance or within the
      error bound of the root. Nothing is reported without a sign change unless Newton hit the tolerance. */
  method ImpliedVolatility(market: real, q: Quote, price: Curve, vega: Curve) returns (r: Option<real>)
    ensures r == ImpliedVol(market, q, price, vega)
    ensures !Priceable(q, market) ==> r.None?
    ensures r.Some? ==> LO < r.value < HI
    ensures r.Some? && Increasing(price) && (price(LO) < market || price(0.5 * (LO + HI)) - market < TOL) ==>
      Abs(price(r.value) - market) < TOL || forall x :: LO <= x <= HI && price(x) == market ==> Near(r.value, x)
    ensures Priceable(q, market) && !SameSign(price(LO) - market, price(HI) - market) ==> r.Some?
    ensures r.Some? && SameSign(price(LO) - market, price(HI) - market) ==> Abs(price(r.value) - market) < TOL
  {
    hide Newtonian, Bisected;
    if !Priceable(q, market) { return None; }
    var diff := Excess(price, market);
    ghost var iterates, brackets;
    r, iterates := Newton(diff, vega);
    if r.None? {
      r, brackets := Bisect(diff);
      if r.Some? && Increasing(price) && (price(LO) < market || diff(0.5 * (LO + HI)) < TOL)
        && !(Abs(diff(r.value)) < TOL) {
        assert Increasing(diff);
        forall x | LO <= x <= HI && price(x) == market ensures Near(r.value, x) {
          assert diff(x) == 0.0;
        }
      }
    }
  }

  /** Where the price increases with volatility, the whole routine keeps the promise exactly when Newton succeeds,
      the price starts below the market, or it is within tolerance by the first midpoint. */
  lemma ImpliedVolExactIff(market: real, q: Quote, price: Curve, vega: Curve)
    requires Increasing(price) && ImpliedVol(market, q, price, vega).Some?
    ensures Found(Excess(price, market), ImpliedVol(market, q, price, vega).value) <==>
      || Newtonian(Excess(price, market), vega, 0.2, 0).Some?
      || price(LO) < market || price(0.5 * (LO + HI)) - market < TOL
  {
    hide Newtonian, Halving, Near, Mul;
    var diff := Excess(price, market);
    NewtonTolerance(diff, vega, 0.2, 0);
    if Newtonian(diff, vega, 0.2, 0).None? {
      SameSigns(diff(LO), diff(HI));
      assert Increasing(diff);
      BisectExactIff(diff);
    }
  }

  lemma {:induction false} NewtonTolerance(diff: Curve, vega: Curve, sigma: real, k: nat)
    requires k <= MAX_ITER
    ensures var r := Newtonian(diff, vega, sigma, k); r.Some? ==> Abs(diff(r.value)) < TOL
    decreases MAX_ITER - k
  {
    if k < MAX_ITER && vega(sigma) >= 0.00000001 {
      NewtonTolerance(diff, vega, NextSigma(sigma, diff(sigma), vega(sigma)), k + 1);
    }
  }

  /** A root at the very lower end is lost: with a price line that meets the market at LO and unit vega, Newton steps
      onto LO and hands over, and the reported volatility misses the tolerance in the upper half of the bracket. */
  lemma RootAtLowerEndIsLost()
    ensures var price: Curve, vega: Curve := s => s - LO + 10.0, s => 1.0;
      var r := ImpliedVol(10.0, Quote(true, 100.0, 100.0, 1.0, 1.0, 1.0), price, vega);
      && price(LO) == 10.0 && r.Some? && r.value > (LO + HI) / 2.0 && price(r.value) - 10.0 >= TOL
      && !Found(Excess(price, 10.0), r.value)
  {
    var price: Curve, vega: Curve := s => s - LO + 10.0, s => 1.0;
    var q, diff := Quote(true, 100.0, 100.0, 1.0, 1.0, 1.0), Excess(price, 10.0);
    assert Priceable(q, 10.0);
    assert NextSigma(0.2, diff(0.2), vega(0.2)) == LO;
    assert Newtonian(diff, vega, 0.2, 0).None?;
    hide Newtonian, Halving, Found, Mul, Priceable;
    SameSigns(diff(LO), diff(HI));
    BisectExactIff(diff);
    FirstHalving(diff);
    HalvingDrifts(diff, 0.5 * (LO + HI), 1);
  }

  lemma SmallBound()
    ensures ErrorBound() <= (HI - LO) / 4.0
  {
    hide Pow2;
    PowStep(MAX_ITER);
    PowStep(MAX_ITER - 1);
    DivBounds(HI - LO, Pow2(MAX_ITER + 1), 0.0, (HI - LO) / 4.0);
  }

  lemma PowStep(n: nat)
    ensures Pow2(n + 1) == 2.0 * Pow2(n)
  {
  }
}
