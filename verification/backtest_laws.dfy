/** What every backtest run satisfies: its accounting, its settlement schedule, and that it never looks ahead. */
module BacktestLaws {
  import opened Numbers
  import opened Strategy
  import opened Template
  import opened Vol
  import opened Engine

  // ---- accounting ----

  /** The run so far adds up: cycles open at most a cycle ago, and settlements at least a cycle apart. */
  ghost predicate Booked(s: Setup, days: seq<int>, n: nat, st: State)
    requires days != [] && n <= |days|
  {
    var day := days[if n == 0 then 0 else n - 1];
    && st.realized == Sum(st.pnls)
    && day < st.cycle.frontExpiry
    && days[0] + |st.pnls| * s.template.cycleDte <= st.cycle.frontExpiry - s.template.cycleDte <= day
    && st.cycle.openCost == CycleCost(st.cycle.legs, s.p) == TemplateCost(s)
  }

  /** Opening or closing any cycle costs the same: the contract count is the template's. */
  function TemplateCost(s: Setup): real {
    if !s.p.includeCosts then 0.0 else Times(TemplateContracts(s.template.legs), s.p.commission + s.p.slippage)
  }

  function TemplateContracts(legs: seq<RelativeLeg>): int {
    if legs == [] then 0
    else TemplateContracts(legs[..|legs| - 1]) + (if legs[|legs| - 1].RelOption? then legs[|legs| - 1].qty else 0)
  }

  lemma {:induction false} ContractsOf(t: RelativeTemplate, d: int, spot: real, increment: real)
    requires increment != 0.0
    ensures Contracts(Instantiate(t, d, spot, increment)) == TemplateContracts(t.legs)
    decreases |t.legs|
  {
    hide NearestStrike;
    if t.legs != [] {
      var n, short := |t.legs| - 1, t.(legs := t.legs[..|t.legs| - 1]);
      ContractsOf(short, d, spot, increment);
      assert Instantiate(t, d, spot, increment)[..n] == Instantiate(short, d, spot, increment);
    }
  }

  lemma CycleCostIs(s: Setup, d: int)
    requires d in s.tape.closes && s.p.strikeIncrement != 0.0 && Covered(s.tape)
    ensures OpenCycle(s, d).openCost == CycleCost(OpenCycle(s, d).legs, s.p) == TemplateCost(s)
  {
    hide Mark, Instantiate;
    ContractsOf(s.template, d, s.tape.closes[d], s.p.strikeIncrement);
  }

  lemma DateAt(days: seq<int>, tape: Tape, i: nat)
    requires AllHaveCloses(days, tape) && i < |days|
    ensures days[i] in tape.closes
  {
    var d := days[i];
    assert d in days;
  }

  lemma {:induction false} RunBooked(s: Setup, days: seq<int>, n: nat)
    requires n <= |days| && days != [] && AllHaveCloses(days, s.tape) && Ascending(days)
    requires s.p.strikeIncrement != 0.0 && Covered(s.tape) && s.template.cycleDte >= 1
    ensures Booked(s, days, n, RunDays(s, days, n))
  {
    hide Mark, OpenCycle, CyclePnl, CycleCost, TemplateCost;
    if n == 0 {
      DateAt(days, s.tape, 0);
      CycleCostIs(s, days[0]);
      OpenFront(s, days[0]);
    } else {
      var was, d := RunDays(s, days, n - 1), days[n - 1];
      RunBooked(s, days, n - 1);
      DateAt(days, s.tape, n - 1);
      CycleCostIs(s, d);
      OpenFront(s, d);
      SumSnoc(was.pnls, CyclePnl(s, was.cycle, d));
      assert (|was.pnls| + 1) * s.template.cycleDte == |was.pnls| * s.template.cycleDte + s.template.cycleDte;
    }
  }

  lemma OpenFront(s: Setup, d: int)
    requires d in s.tape.closes && s.p.strikeIncrement != 0.0 && Covered(s.tape)
    ensures OpenCycle(s, d).frontExpiry == d + s.template.cycleDte
  {
    hide Mark, CycleCost, Instantiate;
  }

  /** Every equity point: initial capital, plus everything settled up to and including that day, plus the open
      cycle marked to market less what it cost to open. */
  lemma EquityPoint(s: Setup, days: seq<int>, n: nat)
    requires 0 < n <= |days| && AllHaveCloses(days, s.tape) && Ascending(days)
    requires s.p.strikeIncrement != 0.0 && Covered(s.tape) && s.template.cycleDte >= 1
    ensures var st, d := RunDays(s, days, n), days[n - 1];
      && d in s.tape.closes && |st.series| == n
      && st.series[n - 1] ==
           (d, s.p.initialCapital + Sum(st.pnls) + (Mark(s, st.cycle.legs, d) - st.cycle.entryValue - TemplateCost(s)))
  {
    hide Mark, OpenCycle, CyclePnl, CycleCost, TemplateCost;
    RunBooked(s, days, n);
    DateAt(days, s.tape, n - 1);
    SeriesLength(s, days, n);
    SeriesLength(s, days, n - 1);
  }

  /** A point once written is never rewritten. */
  lemma {:induction false} SeriesPrefix(s: Setup, days: seq<int>, i: nat, n: nat)
    requires i <= n <= |days| && days != [] && AllHaveCloses(days, s.tape)
    requires s.p.strikeIncrement != 0.0 && Covered(s.tape)
    ensures RunDays(s, days, i).series <= RunDays(s, days, n).series
    decreases n
  {
    hide Mark, OpenCycle, CyclePnl;
    if i < n {
      SeriesPrefix(s, days, i, n - 1);
      DateAt(days, s.tape, n - 1);
    }
  }

  lemma {:induction false} SimDaysAscending(dates: seq<int>, start: int, end: int)
    requires Ascending(dates)
    ensures Ascending(SimDays(dates, start, end))
    ensures forall d :: d in SimDays(dates, start, end) ==> d in dates
  {
    if dates != [] {
      var n := |dates| - 1;
      SimDaysAscending(dates[..n], start, end);
      var was := SimDays(dates[..n], start, end);
      forall i | 0 <= i < |was| ensures was[i] < dates[n] {
        var d := was[i];
        assert d in was;
        assert d in dates[..n];
      }
    }
  }

  lemma DaysOf(s: Setup)
    requires IsTape(s.tape)
    ensures var days := SimDays(s.tape.dates, s.p.start, s.p.end);
      Ascending(days) && AllHaveCloses(days, s.tape) && Covered(s.tape)
  {
    SimDaysAscending(s.tape.dates, s.p.start, s.p.end);
  }

  /** The books close: final equity is the initial capital, plus the P&L of every trade, plus one cycle's cost, which
      only the final cycle's closing would pay. Trades are settlements and the final cycle; settlements are at least
      a cycle apart, so they fit into the span. */
  lemma BacktestAccounts(s: Setup)
    requires IsTape(s.tape) && s.p.strikeIncrement != 0.0 && s.template.cycleDte >= 1
    ensures Covered(s.tape)
    ensures Simulate(s).Ok? ==>
      var r, days := Simulate(s).value, SimDays(s.tape.dates, s.p.start, s.p.end);
      && r.finalEquity == s.p.initialCapital + Sum(r.tradePnls) + TemplateCost(s)
      && |r.tradePnls| >= 1 && |days| >= 2
      && (|r.tradePnls| - 1) * s.template.cycleDte <= days[|days| - 1] - days[0]
  {
    hide Mark, CycleCost, TemplateCost, OpenCycle, RunDays;
    DaysOf(s);
    var days := SimDays(s.tape.dates, s.p.start, s.p.end);
    if Simulate(s).Ok? {
      var n := |days|;
      var st := RunDays(s, days, n);
      RunBooked(s, days, n);
      EquityPoint(s, days, n);
      SumSnoc(st.pnls, CyclePnl(s, st.cycle, days[n - 1]));
    }
  }

  // ---- no look-ahead ----

  /** Two tapes that tell the same story up to and including day d. */
  ghost predicate AgreeUpTo(a: map<int, real>, b: map<int, real>, d: int) {
    forall x :: x <= d ==> (x in a <==> x in b) && (x in a ==> a[x] == b[x])
  }

  /** Leading dates at or before d. */
  lemma {:induction false} BisectSplits(dates: seq<int>, d: int, n: nat)
    requires Ascending(dates) && n <= |dates|
    ensures var hi := BisectRight(dates, d, n);
      (forall i :: 0 <= i < hi ==> dates[i] <= d) && (forall i :: hi <= i < n ==> dates[i] > d)
  {
    if n > 0 && dates[n - 1] > d { BisectSplits(dates, d, n - 1); }
  }

  /** The dates both tapes have seen by day d are the same. */
  lemma SamePast(a: Tape, b: Tape, d: int)
    requires IsTape(a) && IsTape(b) && AgreeUpTo(a.closes, b.closes, d)
    ensures var i, j := BisectRight(a.dates, d, |a.dates|), BisectRight(b.dates, d, |b.dates|);
      i == j && a.dates[..i] == b.dates[..j]
  {
    var i, j := BisectRight(a.dates, d, |a.dates|), BisectRight(b.dates, d, |b.dates|);
    BisectSplits(a.dates, d, |a.dates|);
    BisectSplits(b.dates, d, |b.dates|);
    forall x ensures x in a.dates[..i] <==> x in b.dates[..j] {
      PastMember(a, d, x);
      PastMember(b, d, x);
    }
    AscendingUnique(a.dates[..i], b.dates[..j]);
  }

  lemma PastMember(a: Tape, d: int, x: int)
    requires IsTape(a)
    ensures x in a.dates[..BisectRight(a.dates, d, |a.dates|)] <==> x in a.closes && x <= d
  {
    var i := BisectRight(a.dates, d, |a.dates|);
    BisectSplits(a.dates, d, |a.dates|);
    if x in a.closes {
      assert x in a.dates;
    }
    if x in a.dates[..i] { assert x in a.dates; }
  }

  /** Volatility at a past day depends on the past alone. */
  lemma SameVol(a: Tape, b: Tape, d: int, lookback: nat, m: Maths)
    requires IsTape(a) && IsTape(b) && AgreeUpTo(a.closes, b.closes, d)
    ensures Covered(a) && Covered(b) && VolAt(a, d, lookback, m) == VolAt(b, d, lookback, m)
  {
    hide RealizedVol, BisectRight, PricesUpTo;
    SamePast(a, b, d);
    var hi := BisectRight(a.dates, d, |a.dates|);
    SamePrices(a, b, d, hi);
    var k := SliceStart(hi, lookback);
    assert Prices(a)[k..hi] == Prices(a)[..hi][k..] && Prices(b)[k..hi] == Prices(b)[..hi][k..];
  }

  lemma SamePrices(a: Tape, b: Tape, d: int, hi: nat)
    requires IsTape(a) && IsTape(b) && AgreeUpTo(a.closes, b.closes, d)
    requires hi == BisectRight(a.dates, d, |a.dates|) && hi <= |b.dates| && a.dates[..hi] == b.dates[..hi]
    ensures Covered(a) && Covered(b) && Prices(a)[..hi] == Prices(b)[..hi]
  {
    hide PricesUpTo;
    BisectSplits(a.dates, d, |a.dates|);
    assert forall i :: 0 <= i < hi ==> a.dates[i] == a.dates[..hi][i] == b.dates[..hi][i] == b.dates[i];
  }

  lemma {:induction false} SimDaysAppend(xs: seq<int>, ys: seq<int>, start: int, end: int)
    ensures SimDays(xs + ys, start, end) == SimDays(xs, start, end) + SimDays(ys, start, end)
  {
    if ys == [] {
      assert xs + ys == xs;
    } else {
      var n := |ys| - 1;
      assert (xs + ys)[..|xs| + n] == xs + ys[..n];
      SimDaysAppend(xs, ys[..n], start, end);
    }
  }

  /** The simulated days begin with those of the past; the others come after d. */
  lemma PastDays(a: Tape, d: int, start: int, end: int)
    requires IsTape(a)
    ensures var past := SimDays(a.dates[..BisectRight(a.dates, d, |a.dates|)], start, end);
      && past <= SimDays(a.dates, start, end)
      && forall k :: |past| <= k < |SimDays(a.dates, start, end)| ==> SimDays(a.dates, start, end)[k] > d
  {
    var hi := BisectRight(a.dates, d, |a.dates|);
    BisectSplits(a.dates, d, |a.dates|);
    assert a.dates == a.dates[..hi] + a.dates[hi..];
    SimDaysAppend(a.dates[..hi], a.dates[hi..], start, end);
    var future := SimDays(a.dates[hi..], start, end);
    SimDaysAscending(a.dates[hi..], start, end);
    forall i | 0 <= i < |future| ensures future[i] > d {
      var x := future[i];
      assert x in future;
      assert x in a.dates[hi..];
    }
  }

  /** A simulated day at or before d has the same index in both runs. */
  lemma SameDays(a: Tape, b: Tape, d: int, start: int, end: int, k: nat)
    requires IsTape(a) && IsTape(b) && AgreeUpTo(a.closes, b.closes, d)
    requires k < |SimDays(a.dates, start, end)| && SimDays(a.dates, start, end)[k] <= d
    ensures k < |SimDays(b.dates, start, end)|
      && SimDays(a.dates, start, end)[..k + 1] == SimDays(b.dates, start, end)[..k + 1]
  {
    hide SimDays, IsTape, AgreeUpTo;
    SamePast(a, b, d);
    PastDays(a, d, start, end);
    PastDays(b, d, start, end);
  }

  /** Two runs of one template under one set of parameters. */
  ghost predicate Twins(a: Setup, b: Setup, d: int) {
    && Usable(a) && Usable(b)
    && b.template == a.template && b.p == a.p && b.m == a.m
    && AgreeUpTo(a.tape.closes, b.tape.closes, d)
  }

  lemma SameMark(a: Setup, b: Setup, d: int, legs: seq<Leg>, x: int)
    requires Twins(a, b, d) && x <= d && x in a.tape.closes
    ensures Covered(a.tape) && Covered(b.tape) && x in b.tape.closes && Mark(a, legs, x) == Mark(b, legs, x)
  {
    hide PositionValue, VolAt;
    assert AgreeUpTo(a.tape.closes, b.tape.closes, x);
    SameVol(a.tape, b.tape, x, a.p.volLookback, a.m);
  }

  lemma SameOpen(a: Setup, b: Setup, d: int, x: int)
    requires Twins(a, b, d) && x <= d && x in a.tape.closes
    ensures Covered(a.tape) && Covered(b.tape) && x in b.tape.closes && OpenCycle(a, x) == OpenCycle(b, x)
  {
    hide Mark, Instantiate, CycleCost;
    SameMark(a, b, d, Instantiate(a.template, x, a.tape.closes[x], a.p.strikeIncrement), x);
  }

  /** Day by day, the two runs are in the same state: positions, strikes, costs, settled and marked P&L. */
  lemma {:induction false} SameState(a: Setup, b: Setup, d: int, days: seq<int>, days': seq<int>, n: nat)
    requires Twins(a, b, d) && days != [] && days' != [] && n <= |days| && n <= |days'|
    requires Covered(a.tape) && Covered(b.tape) && AllHaveCloses(days, a.tape) && AllHaveCloses(days', b.tape)
    requires days[0] == days'[0] && days[0] <= d
    requires forall i :: 0 <= i < n ==> days[i] == days'[i] && days[i] <= d
    ensures RunDays(a, days, n) == RunDays(b, days', n)
  {
    hide Mark, OpenCycle, CycleCost, AgreeUpTo;
    if n == 0 {
      DateAt(days, a.tape, 0);
      SameOpen(a, b, d, days[0]);
    } else {
      var was, x := RunDays(a, days, n - 1), days[n - 1];
      SameState(a, b, d, days, days', n - 1);
      DateAt(days, a.tape, n - 1);
      SameOpen(a, b, d, x);
      SameMark(a, b, d, was.cycle.legs, x);
      SameMark(a, b, d, OpenCycle(a, x).legs, x);
    }
  }

  lemma SamePoint(a: Setup, b: Setup, d: int, k: nat)
    requires Twins(a, b, d) && Covered(a.tape) && Covered(b.tape)
    requires Simulate(a).Ok? && Simulate(b).Ok?
    requires k < |Simulate(a).value.series| && Simulate(a).value.series[k].0 <= d
    ensures k < |Simulate(b).value.series| && Simulate(b).value.series[k] == Simulate(a).value.series[k]
  {
    hide Mark, OpenCycle, CyclePnl, AgreeUpTo, RunDays;
    var days, days' := SimDays(a.tape.dates, a.p.start, a.p.end), SimDays(b.tape.dates, b.p.start, b.p.end);
    DaysOf(a);
    DaysOf(b);
    SeriesLength(a, days, |days|);
    SeriesLength(b, days', |days'|);
    SameDays(a.tape, b.tape, d, a.p.start, a.p.end, k);
    forall i | 0 <= i <= k ensures days[i] == days'[i] && days[i] <= d {
      assert days[..k + 1][i] == days'[..k + 1][i];
    }
    SameState(a, b, d, days, days', k + 1);
    SeriesPrefix(a, days, k + 1, |days|);
    SeriesPrefix(b, days', k + 1, |days'|);
    SeriesLength(a, days, k + 1);
    SeriesLength(b, days', k + 1);
  }

  /** No look-ahead: when two close histories agree on every date up to d, the two equity series agree on every
      simulated day up to d, through rolls, strike selection and volatility. */
  lemma NoLookAhead(a: Setup, b: Setup, d: int, k: nat)
    requires Twins(a, b, d)
    ensures Covered(a.tape) && Covered(b.tape)
    ensures var x, y := Simulate(a), Simulate(b);
      x.Ok? && y.Ok? && k < |x.value.series| && x.value.series[k].0 <= d ==>
        k < |y.value.series| && y.value.series[k] == x.value.series[k]
  {
    hide Mark, OpenCycle, CyclePnl, AgreeUpTo, RunDays;
    if Simulate(a).Ok? && Simulate(b).Ok? && k < |Simulate(a).value.series| && Simulate(a).value.series[k].0 <= d {
      SamePoint(a, b, d, k);
    }
  }

  /** The engine's sliced volatility is the volatility of the whole history up to the day. */
  lemma VolAtRefines(tape: Tape, d: int, lookback: nat, m: Maths)
    requires IsTape(tape) && lookback >= 1
    requires forall x :: x in tape.closes ==> tape.closes[x] > 0.0
    requires exists x :: x in tape.closes && x <= d
    ensures Covered(tape)
    ensures VolAt(tape, d, lookback, m) ==
            RealizedVol(Prices(tape)[..BisectRight(tape.dates, d, |tape.dates|)], lookback, m.ln, m.sqrt)
  {
    hide RealizedVol;
    var hi := BisectRight(tape.dates, d, |tape.dates|);
    BisectSplits(tape.dates, d, |tape.dates|);
    var x :| x in tape.closes && x <= d;
    assert x in tape.dates;
    var past := Prices(tape)[..hi];
    SliceRefinesHistory(past, lookback, m.ln, m.sqrt);
    var k := SliceStart(hi, lookback);
    assert past[k..] == Prices(tape)[k..hi];
  }

  /** With hi dates at or before the day, its volatility is read off the last lookback + 1 closes of those, or all of
      them if they are fewer, good or bad; older and later closes do not matter. */
  lemma VolAtReads(tape: Tape, d: int, lookback: nat, m: Maths, hi: nat, recent: seq<real>)
    requires IsTape(tape) && hi <= |tape.dates|
    requires forall i :: 0 <= i < |tape.dates| ==> (tape.dates[i] <= d <==> i < hi)
    requires |recent| == if hi <= lookback + 1 then hi else lookback + 1
    requires forall j :: 0 <= j < |recent| ==>
      tape.dates[hi - |recent| + j] in tape.closes && recent[j] == tape.closes[tape.dates[hi - |recent| + j]]
    ensures Covered(tape) && VolAt(tape, d, lookback, m) == RealizedVol(recent, lookback, m.ln, m.sqrt)
  {
    hide RealizedVol;
    var k := BisectRight(tape.dates, d, |tape.dates|);
    BisectSplits(tape.dates, d, |tape.dates|);
    assert k < |tape.dates| ==> tape.dates[k] > d;
    assert hi < |tape.dates| ==> tape.dates[hi] > d;
    assert k == hi;
    var lo := SliceStart(hi, lookback);
    assert hi - |recent| == lo;
    forall j | 0 <= j < |recent| ensures recent[j] == Prices(tape)[lo + j] { }
    assert recent == Prices(tape)[lo..hi];
  }
}
