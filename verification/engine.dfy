/** `run_backtest_engine`: a rolling simulation that opens, marks, settles and reopens a strategy. The option
    pricer, the logarithm and the square root are arbitrary functions. Dates are day numbers. */
module Engine {
  import opened Wrappers
  import opened Numbers
  import opened Strategy
  import opened Template
  import opened Vol

  datatype Params = Params(
    start: int, end: int, initialCapital: real, rate: real, volLookback: nat, includeCosts: bool,
    commission: real, slippage: real, strikeIncrement: real)

  /** bsm(kind, spot, strike, years, rate, sigma). */
  datatype Maths = Maths(bsm: (OptionType, real, real, real, real, real) -> real, ln: real -> real, sqrt: real -> real)

  /** The bars: closes by date, and the dates in order. */
  datatype Tape = Tape(closes: map<int, real>, dates: seq<int>)

  ghost predicate Ascending(xs: seq<int>) { forall i, j :: 0 <= i < j < |xs| ==> xs[i] < xs[j] }

  ghost predicate IsTape(tape: Tape) {
    Ascending(tape.dates) && forall d :: d in tape.dates <==> d in tape.closes
  }

  /** Every date has a close. */
  predicate Covered(tape: Tape) { forall d :: d in tape.dates ==> d in tape.closes }

  /** Closes of the first n dates. */
  function PricesUpTo(tape: Tape, n: nat): (ps: seq<real>)
    requires Covered(tape) && n <= |tape.dates|
    ensures |ps| == n && forall i :: 0 <= i < n ==> tape.dates[i] in tape.closes && ps[i] == tape.closes[tape.dates[i]]
  {
    if n == 0 then []
    else
      var d := tape.dates[n - 1];
      assert d in tape.dates;
      PricesUpTo(tape, n - 1) + [tape.closes[d]]
  }

  function Prices(tape: Tape): seq<real>
    requires Covered(tape)
  {
    PricesUpTo(tape, |tape.dates|)
  }

  /** `bisect_right`: how many leading dates are at or before d. */
  function BisectRight(dates: seq<int>, d: int, n: nat): (hi: nat)
    requires n <= |dates|
    ensures hi <= n
  {
    if n == 0 then 0 else if dates[n - 1] <= d then n else BisectRight(dates, d, n - 1)
  }

  function VolAt(tape: Tape, d: int, lookback: nat, m: Maths): real
    requires Covered(tape)
  {
    var hi := BisectRight(tape.dates, d, |tape.dates|);
    RealizedVol(Prices(tape)[SliceStart(hi, lookback)..hi], lookback, m.ln, m.sqrt)
  }

  function Intrinsic(kind: OptionType, spot: real, strike: real): real {
    if kind.Call? then Max(0.0, spot - strike) else Max(0.0, strike - spot)
  }

  function UnitValue(m: Maths, kind: OptionType, strike: real, spot: real, sigma: real, years: real, rate: real): real {
    if years <= 0.0 then Intrinsic(kind, spot, strike) else m.bsm(kind, spot, strike, years, rate, sigma)
  }

  function Years(days: int): real { (if days > 0 then days else 0) as real / 365.0 }

  function LegValue(m: Maths, leg: Leg, spot: real, sigma: real, d: int, rate: real): real {
    match leg
    case OptionLeg(kind, side, strike, expiry, qty, _) =>
      Times(side.Sign() * qty * OPTION_MULTIPLIER, UnitValue(m, kind, strike, spot, sigma, Years(expiry - d), rate))
    case EquityLeg(side, qty, _) => Times(side.Sign() * qty, spot)
    case CashLeg(_) => 0.0
  }

  /** Value of the first n legs. */
  function PositionValue(m: Maths, legs: seq<Leg>, spot: real, sigma: real, d: int, rate: real, n: nat): real
    requires n <= |legs|
  {
    if n == 0 then 0.0
    else PositionValue(m, legs, spot, sigma, d, rate, n - 1) + LegValue(m, legs[n - 1], spot, sigma, d, rate)
  }

  method ComputePositionValue(m: Maths, legs: seq<Leg>, spot: real, sigma: real, d: int, rate: real)
        returns (total: real)
    ensures total == PositionValue(m, legs, spot, sigma, d, rate, |legs|)
  {
    hide LegValue;
    total := 0.0;
    for i := 0 to |legs|
      invariant total == PositionValue(m, legs, spot, sigma, d, rate, i)
    {
      total := total + LegValue(m, legs[i], spot, sigma, d, rate);
    }
  }

  function Contracts(legs: seq<Leg>): int {
    if legs == [] then 0
    else Contracts(legs[..|legs| - 1]) + (if legs[|legs| - 1].OptionLeg? then legs[|legs| - 1].qty else 0)
  }

  function CycleCost(legs: seq<Leg>, p: Params): real {
    if !p.includeCosts then 0.0 else Times(Contracts(legs), p.commission + p.slippage)
  }

  datatype Cycle = Cycle(legs: seq<Leg>, entryValue: real, openCost: real, frontExpiry: int)

  datatype State = State(cycle: Cycle, realized: real, series: seq<(int, real)>, pnls: seq<real>)

  /** What every step of one run shares. */
  datatype Setup = Setup(tape: Tape, template: RelativeTemplate, p: Params, m: Maths)

  ghost predicate Usable(s: Setup) { IsTape(s.tape) && s.p.strikeIncrement != 0.0 }

  function Mark(s: Setup, legs: seq<Leg>, d: int): real
    requires d in s.tape.closes && Covered(s.tape)
  {
    PositionValue(s.m, legs, s.tape.closes[d], VolAt(s.tape, d, s.p.volLookback, s.m), d, s.p.rate, |legs|)
  }

  function OpenCycle(s: Setup, d: int): Cycle
    requires d in s.tape.closes && s.p.strikeIncrement != 0.0 && Covered(s.tape)
  {
    var legs := Instantiate(s.template, d, s.tape.closes[d], s.p.strikeIncrement);
    Cycle(legs, Mark(s, legs, d), CycleCost(legs, s.p), d + s.template.cycleDte)
  }

  function CyclePnl(s: Setup, c: Cycle, d: int): real
    requires d in s.tape.closes && Covered(s.tape)
  {
    (Mark(s, c.legs, d) - c.entryValue) - (c.openCost + CycleCost(c.legs, s.p))
  }

  function Step(s: Setup, st: State, d: int): State
    requires d in s.tape.closes && s.p.strikeIncrement != 0.0 && Covered(s.tape)
  {
    var now := if d >= st.cycle.frontExpiry then
        var pnl := CyclePnl(s, st.cycle, d);
        State(OpenCycle(s, d), st.realized + pnl, st.series, st.pnls + [pnl])
      else st;
    var equity := s.p.initialCapital + now.realized
      + (Mark(s, now.cycle.legs, d) - now.cycle.entryValue - now.cycle.openCost);
    now.(series := now.series + [(d, equity)])
  }

  function SimDays(dates: seq<int>, start: int, end: int): seq<int> {
    if dates == [] then []
    else
      SimDays(dates[..|dates| - 1], start, end)
      + (if start <= dates[|dates| - 1] <= end then [dates[|dates| - 1]] else [])
  }

  predicate AllHaveCloses(days: seq<int>, tape: Tape) {
    forall d :: d in days ==> d in tape.closes
  }

  /** The state after the first n simulated days. */
  function RunDays(s: Setup, days: seq<int>, n: nat): State
    requires n <= |days| && days != [] && AllHaveCloses(days, s.tape)
    requires s.p.strikeIncrement != 0.0 && Covered(s.tape)
  {
    if n == 0 then
      assert days[0] in days;
      State(OpenCycle(s, days[0]), 0.0, [], [])
    else
      assert days[n - 1] in days;
      Step(s, RunDays(s, days, n - 1), days[n - 1])
  }

  datatype EngineError = NoBars | TooFewDays

  datatype Report = Report(series: seq<(int, real)>, tradePnls: seq<real>, finalEquity: real)

  /** The whole run: the final, still open cycle is realised for the trade list only. */
  function Simulate(s: Setup): Result<Report, EngineError>
    requires s.p.strikeIncrement != 0.0 && Covered(s.tape)
  {
    SimDaysSubset(s.tape.dates, s.p.start, s.p.end);
    var days := SimDays(s.tape.dates, s.p.start, s.p.end);
    if s.tape.dates == [] then Err(NoBars)
    else if |days| < 2 then Err(TooFewDays)
    else
      var st, last := RunDays(s, days, |days|), days[|days| - 1];
      assert last in days;
      SeriesLength(s, days, |days|);
      var pnls := if last < st.cycle.frontExpiry then st.pnls + [CyclePnl(s, st.cycle, last)] else st.pnls;
      Ok(Report(st.series, pnls, st.series[|st.series| - 1].1))
  }

  lemma {:induction false} SimDaysSubset(dates: seq<int>, start: int, end: int)
    ensures forall d :: d in SimDays(dates, start, end) <==> d in dates && start <= d <= end
  {
    if dates != [] {
      SimDaysSubset(dates[..|dates| - 1], start, end);
      assert dates == dates[..|dates| - 1] + [dates[|dates| - 1]];
    }
  }

  lemma {:induction false} SeriesLength(s: Setup, days: seq<int>, n: nat)
    requires n <= |days| && days != [] && AllHaveCloses(days, s.tape)
    requires s.p.strikeIncrement != 0.0 && Covered(s.tape)
    ensures |RunDays(s, days, n).series| == n && forall i :: 0 <= i < n ==> RunDays(s, days, n).series[i].0 == days[i]
  {
    hide Mark, OpenCycle, CyclePnl;
    if n > 0 {
      assert days[n - 1] in days;
      SeriesLength(s, days, n - 1);
    }
  }

  // ---- the loop itself ----

  lemma SomeDate(dates: set<int>)
    requires dates != {}
    ensures exists d :: d in dates
  {
    var none: set<int> := {};
    assert (forall d :: d in dates <==> d in none) ==> dates == none;
  }

  lemma LastIsLatest(a: seq<int>)
    requires Ascending(a) && a != []
    ensures var n := |a| - 1;
      && a[n] in a && (forall x :: x in a ==> x <= a[n])
      && Ascending(a[..n]) && (forall x :: x in a[..n] <==> x in a && x != a[n])
  {
    var n := |a| - 1;
    assert a == a[..n] + [a[n]];
  }

  lemma {:induction false} AscendingUnique(a: seq<int>, b: seq<int>)
    requires Ascending(a) && Ascending(b) && forall x :: x in a <==> x in b
    ensures a == b
    decreases |a|
  {
    hide Ascending;
    var x, y := if a != [] then a[0] else 0, if b != [] then b[0] else 0;
    assert (a != [] ==> x in a) && (b != [] ==> y in b);
    assert (a != [] ==> x in b) && (b != [] ==> y in a);
    if a != [] {
      var n, k := |a| - 1, |b| - 1;
      LastIsLatest(a);
      LastIsLatest(b);
      assert a[n] == b[k];
      assert a == a[..n] + [a[n]] && b == b[..k] + [a[n]];
      AscendingUnique(a[..n], b[..k]);
    }
  }

  predicate IsLatest(dates: set<int>, d: int) { d in dates && forall x :: x in dates ==> x <= d }

  lemma LatestExists(dates: set<int>)
    requires dates != {}
    ensures exists d :: IsLatest(dates, d)
  {
    SomeDate(dates);
    var d :| d in dates;
    var earlier := dates - {d};
    if earlier == {} {
      assert forall x :: x in dates && x != d ==> x in earlier;
      assert IsLatest(dates, d);
    } else {
      LatestExists(earlier);
      var m :| IsLatest(earlier, m);
      assert forall x :: x in dates && x != d ==> x in earlier;
      assert IsLatest(dates, if m < d then d else m);
    }
  }

  /** The dates in order. */
  ghost function Calendar(keys: set<int>): (dates: seq<int>)
    ensures Ascending(dates) && forall d :: d in dates <==> d in keys
    decreases keys
  {
    if keys == {} then []
    else
      LatestExists(keys);
      var d :| IsLatest(keys, d);
      Calendar(keys - {d}) + [d]
  }

  lemma InsertKeeps(dates: seq<int>, k: nat, x: int)
    requires Ascending(dates) && k <= |dates| && x !in dates
    requires (forall j :: 0 <= j < k ==> dates[j] < x) && (k < |dates| ==> x <= dates[k])
    ensures var now := dates[..k] + [x] + dates[k..];
      Ascending(now) && forall d :: d in now <==> d in dates || d == x
  {
    var now := dates[..k] + [x] + dates[k..];
    forall i, j | 0 <= i < j < |now| ensures now[i] < now[j] {
      assert now[i] == if i < k then dates[i] else if i == k then x else dates[i - 1];
      assert now[j] == if j < k then dates[j] else if j == k then x else dates[j - 1];
      if k < |dates| { assert dates[k] in dates; }
    }
    assert dates == dates[..k] + dates[k..];
  }

  method SortDates(keys: set<int>) returns (dates: seq<int>)
    ensures dates == Calendar(keys)
  {
    dates := [];
    assert Ascending(dates);
    hide Ascending, Calendar;
    var rest := keys;
    while rest != {}
      invariant rest <= keys && Ascending(dates)
      invariant forall d :: d in dates <==> d in keys - rest
      decreases rest
    {
      SomeDate(rest);
      var x :| x in rest;
      var k := 0;
      while k < |dates| && dates[k] < x
        invariant 0 <= k <= |dates| && forall j :: 0 <= j < k ==> dates[j] < x
      {
        k := k + 1;
      }
      InsertKeeps(dates, k, x);
      dates := dates[..k] + [x] + dates[k..];
      rest := rest - {x};
    }
    AscendingUnique(dates, Calendar(keys));
  }

  ghost function TapeOf(closes: map<int, real>): (tape: Tape)
    ensures IsTape(tape) && Covered(tape)
  {
    Tape(closes, Calendar(closes.Keys))
  }

  method RunLoop(s: Setup) returns (r: Result<Report, EngineError>)
    requires s.p.strikeIncrement != 0.0 && Covered(s.tape)
    ensures r == Simulate(s)
  {
    hide Mark, CyclePnl, OpenCycle;
    if s.tape.dates == [] { return Err(NoBars); }
    var days := SimDays(s.tape.dates, s.p.start, s.p.end);
    SimDaysSubset(s.tape.dates, s.p.start, s.p.end);
    if |days| < 2 { return Err(TooFewDays); }

    var series: seq<(int, real)> := [];
    var pnls: seq<real> := [];
    var realized := 0.0;
    assert days[0] in days;
    var cycle := Open(s, days[0]);
    for i := 0 to |days|
      invariant State(cycle, realized, series, pnls) == RunDays(s, days, i)
    {
      var d := days[i];
      assert d in days;
      if d >= cycle.frontExpiry {
        var pnl := Settle(s, cycle, d);
        realized := realized + pnl;
        pnls := pnls + [pnl];
        cycle := Open(s, d);
      }
      var curValue := Value(s, cycle.legs, d);
      var equity := s.p.initialCapital + realized + (curValue - cycle.entryValue - cycle.openCost);
      series := series + [(d, equity)];
    }
    var last := days[|days| - 1];
    assert last in days;
    if last < cycle.frontExpiry {
      var pnl := Settle(s, cycle, last);
      pnls := pnls + [pnl];
    }
    SeriesLength(s, days, |days|);
    r := Ok(Report(series, pnls, series[|series| - 1].1));
  }

  method RunBacktest(closes: map<int, real>, template: RelativeTemplate, p: Params, m: Maths)
      returns (r: Result<Report, EngineError>)
    requires p.strikeIncrement != 0.0
    ensures r == Simulate(Setup(TapeOf(closes), template, p, m))
  {
    hide Simulate;
    var dates := SortDates(closes.Keys);
    r := RunLoop(Setup(Tape(closes, dates), template, p, m));
  }

  method Value(s: Setup, legs: seq<Leg>, d: int) returns (value: real)
    requires d in s.tape.closes && Covered(s.tape)
    ensures value == Mark(s, legs, d)
  {
    hide PositionValue, VolAt;
    var sigma := VolAt(s.tape, d, s.p.volLookback, s.m);
    value := ComputePositionValue(s.m, legs, s.tape.closes[d], sigma, d, s.p.rate);
  }

  method Settle(s: Setup, cycle: Cycle, d: int) returns (pnl: real)
    requires d in s.tape.closes && Covered(s.tape)
    ensures pnl == CyclePnl(s, cycle, d)
  {
    hide Mark, CycleCost;
    var settleValue := Value(s, cycle.legs, d);
    var totalCost := cycle.openCost + CycleCost(cycle.legs, s.p);
    pnl := (settleValue - cycle.entryValue) - totalCost;
  }

  method Open(s: Setup, d: int) returns (c: Cycle)
    requires d in s.tape.closes && s.p.strikeIncrement != 0.0 && Covered(s.tape)
    ensures c == OpenCycle(s, d)
  {
    hide Mark, CycleCost;
    var legs := ComputeInstantiate(s.template, d, s.tape.closes[d], s.p.strikeIncrement);
    var entryValue := Value(s, legs, d);
    c := Cycle(legs, entryValue, CycleCost(legs, s.p), d + s.template.cycleDte);
  }
}
