/** The backtest told in days and marks: when each cycle opens and closes, and what it earns. */
module BacktestTrades {
  import opened Wrappers
  import opened Numbers
  import opened Strategy
  import opened Template
  import opened Engine
  import opened BacktestLaws

  /** The days on which the first n simulated days open a cycle: the first day, and every day at least a cycle after
      the latest opening. */
  function Openings(days: seq<int>, dte: int, n: nat): (starts: seq<int>)
    requires n <= |days| && days != []
    ensures starts != []
  {
    if n == 0 then [days[0]]
    else
      var before := Openings(days, dte, n - 1);
      if days[n - 1] >= before[|before| - 1] + dte then before + [days[n - 1]] else before
  }

  /** Opening number k is the first simulated day at least a cycle after the opening before it. */
  ghost predicate OpensNext(days: seq<int>, dte: int, starts: seq<int>, k: nat)
    requires 0 < k < |starts|
  {
    starts[k - 1] + dte <= starts[k] && forall x :: x in days && x < starts[k] ==> x < starts[k - 1] + dte
  }

  /** The openings by day number n of a run: simulated days, the first of them the first day, each next one as soon as
      a cycle has passed, and none due since the latest. */
  ghost predicate IsSchedule(days: seq<int>, dte: int, n: nat, starts: seq<int>)
    requires n <= |days|
  {
    && starts != [] && days != [] && starts[0] == days[0]
    && (forall k :: 0 <= k < |starts| ==> starts[k] in days && starts[k] <= days[if n == 0 then 0 else n - 1])
    && (forall k :: 0 < k < |starts| ==> OpensNext(days, dte, starts, k))
    && (forall i :: 0 <= i < n ==> days[i] < starts[|starts| - 1] + dte)
  }

  lemma {:induction false} OpeningsAreSchedule(days: seq<int>, dte: int, n: nat)
    requires n <= |days| && days != [] && Ascending(days) && dte >= 1
    ensures IsSchedule(days, dte, n, Openings(days, dte, n))
  {
    hide IsSchedule;
    if n == 0 {
      FirstOpening(days, dte);
    } else {
      OpeningsAreSchedule(days, dte, n - 1);
      NextOpening(days, dte, n, Openings(days, dte, n - 1));
    }
  }

  lemma FirstOpening(days: seq<int>, dte: int)
    requires days != []
    ensures IsSchedule(days, dte, 0, [days[0]])
  {
    assert days[0] in days;
  }

  lemma NextOpening(days: seq<int>, dte: int, n: nat, starts: seq<int>)
    requires 0 < n <= |days| && Ascending(days) && dte >= 1 && IsSchedule(days, dte, n - 1, starts)
    ensures IsSchedule(days, dte, n,
              if days[n - 1] >= starts[|starts| - 1] + dte then starts + [days[n - 1]] else starts)
  {
    var d, m := days[n - 1], |starts|;
    assert d in days && days[if n == 1 then 0 else n - 2] <= d;
    if d >= starts[m - 1] + dte {
      var after := starts + [d];
      forall x | x in days && x < d ensures x < starts[m - 1] + dte {
        var i :| 0 <= i < |days| && days[i] == x;
        assert i < n - 1;
      }
      forall k | 0 < k < |after| ensures OpensNext(days, dte, after, k) {
        if k < m { assert OpensNext(days, dte, starts, k); }
      }
    }
  }

  /** The position a cycle opened on day d holds: the template at that day's close. */
  function LegsOpened(s: Setup, d: int): seq<Leg>
    requires d in s.tape.closes && s.p.strikeIncrement != 0.0
  {
    Instantiate(s.template, d, s.tape.closes[d], s.p.strikeIncrement)
  }

  /** What the position opened on day o gained by day d, before costs: the difference of its two marks. */
  function MarkGain(s: Setup, o: int, d: int): real
    requires o in s.tape.closes && d in s.tape.closes && s.p.strikeIncrement != 0.0 && Covered(s.tape)
  {
    Mark(s, LegsOpened(s, o), d) - Mark(s, LegsOpened(s, o), o)
  }

  /** Opening and closing both cost. */
  function TradePnl(s: Setup, o: int, d: int): real
    requires o in s.tape.closes && d in s.tape.closes && s.p.strikeIncrement != 0.0 && Covered(s.tape)
  {
    MarkGain(s, o, d) - 2.0 * TemplateCost(s)
  }

  /** The run's preconditions, by name. */
  ghost predicate Runnable(s: Setup, days: seq<int>) {
    && days != [] && AllHaveCloses(days, s.tape) && Ascending(days)
    && s.p.strikeIncrement != 0.0 && Covered(s.tape) && s.template.cycleDte >= 1
  }

  /** Each of these days has a close. */
  predicate Marked(starts: seq<int>, tape: Tape) { forall k :: 0 <= k < |starts| ==> starts[k] in tape.closes }

  /** The open cycle is the one of the latest opening, and every settled trade is told by its two days. */
  ghost predicate Told(s: Setup, st: State, starts: seq<int>)
    requires s.p.strikeIncrement != 0.0 && Covered(s.tape)
  {
    starts != [] && Marked(starts, s.tape) &&
    var o := starts[|starts| - 1];
    && st.cycle == Cycle(LegsOpened(s, o), Mark(s, LegsOpened(s, o), o), TemplateCost(s), o + s.template.cycleDte)
    && |st.pnls| == |starts| - 1
    && (forall k :: 0 <= k < |st.pnls| ==> st.pnls[k] == TradePnl(s, starts[k], starts[k + 1]))
  }

  lemma OpenTold(s: Setup, d: int)
    requires d in s.tape.closes && s.p.strikeIncrement != 0.0 && Covered(s.tape)
    ensures OpenCycle(s, d)
      == Cycle(LegsOpened(s, d), Mark(s, LegsOpened(s, d), d), TemplateCost(s), d + s.template.cycleDte)
  {
    hide Mark;
    CycleCostIs(s, d);
  }

  lemma {:induction false} RunTold(s: Setup, days: seq<int>, n: nat)
    requires Runnable(s, days) && n <= |days|
    ensures Told(s, RunDays(s, days, n), Openings(days, s.template.cycleDte, n))
  {
    hide Mark, OpenCycle, CycleCost, TemplateCost, LegsOpened, Told, Step;
    if n == 0 {
      DateAt(days, s.tape, 0);
      StartTold(s, days[0]);
    } else {
      RunTold(s, days, n - 1);
      DateAt(days, s.tape, n - 1);
      StepTold(s, RunDays(s, days, n - 1), Openings(days, s.template.cycleDte, n - 1), days[n - 1]);
    }
  }

  lemma StartTold(s: Setup, d: int)
    requires d in s.tape.closes && s.p.strikeIncrement != 0.0 && Covered(s.tape)
    ensures Told(s, State(OpenCycle(s, d), 0.0, [], []), [d])
  {
    hide Mark, OpenCycle, TemplateCost, LegsOpened;
    OpenTold(s, d);
  }

  lemma StepTold(s: Setup, st: State, starts: seq<int>, d: int)
    requires d in s.tape.closes && s.p.strikeIncrement != 0.0 && Covered(s.tape)
    requires Told(s, st, starts)
    ensures var after := if d >= starts[|starts| - 1] + s.template.cycleDte then starts + [d] else starts;
      Told(s, Step(s, st, d), after)
  {
    hide Mark, OpenCycle, TemplateCost, LegsOpened, CyclePnl;
    OpenTold(s, d);
    ClosingPnl(s, st, starts, d);
  }

  /** Closing the open cycle earns the trade of its two days. */
  lemma ClosingPnl(s: Setup, st: State, starts: seq<int>, d: int)
    requires d in s.tape.closes && s.p.strikeIncrement != 0.0 && Covered(s.tape)
    requires Told(s, st, starts)
    ensures CyclePnl(s, st.cycle, d) == TradePnl(s, starts[|starts| - 1], d)
  {
    hide Mark, OpenCycle, TemplateCost, LegsOpened;
    var o := starts[|starts| - 1];
    CycleCostIs(s, o);
    OpenTold(s, o);
    assert CycleCost(st.cycle.legs, s.p) == TemplateCost(s);
  }

  /** Every equity point in days and marks: initial capital, plus what each closed cycle earned between its opening and
      its closing day, plus what the open one has gained since it starts, less its opening cost. */
  lemma EquityInMarks(s: Setup, days: seq<int>, n: nat) returns (starts: seq<int>, closed: seq<real>)
    requires Runnable(s, days) && 0 < n <= |days|
    ensures IsSchedule(days, s.template.cycleDte, n, starts) && |closed| == |starts| - 1
    ensures days[n - 1] in s.tape.closes && Marked(starts, s.tape)
    ensures forall k :: 0 <= k < |closed| ==> closed[k] == TradePnl(s, starts[k], starts[k + 1])
    ensures RunDays(s, days, n).pnls == closed && |RunDays(s, days, n).series| == n
    ensures RunDays(s, days, n).series[n - 1] ==
            (days[n - 1],
             s.p.initialCapital + Sum(closed) + MarkGain(s, starts[|starts| - 1], days[n - 1]) - TemplateCost(s))
  {
    hide Mark, OpenCycle, TemplateCost, LegsOpened, CycleCost, CyclePnl;
    starts := Openings(days, s.template.cycleDte, n);
    OpeningsAreSchedule(days, s.template.cycleDte, n);
    RunTold(s, days, n);
    EquityPoint(s, days, n);
    closed := RunDays(s, days, n).pnls;
  }

  /** On the first day nothing has been gained: capital less the cost of opening. */
  lemma FirstPoint(s: Setup, days: seq<int>)
    requires Runnable(s, days)
    ensures |RunDays(s, days, |days|).series| == |days|
    ensures RunDays(s, days, |days|).series[0] == (days[0], s.p.initialCapital - TemplateCost(s))
  {
    hide Mark, OpenCycle, TemplateCost, LegsOpened, CycleCost, CyclePnl, RunDays;
    var starts, closed := EquityInMarks(s, days, 1);
    SeriesLength(s, days, |days|);
    SeriesPrefix(s, days, 1, |days|);
    assert |starts| > 1 ==> OpensNext(days, s.template.cycleDte, starts, 1);
  }

  /** The whole report in days and marks: every trade is the mark of the position on the day it closes less its mark
      on the day it starts less two cycle costs, the last one closing on the last day; and each equity point stands
      on the trades closed by then. */
  lemma ReportInMarks(s: Setup) returns (days: seq<int>, starts: seq<int>)
    requires IsTape(s.tape) && s.p.strikeIncrement != 0.0 && s.template.cycleDte >= 1
    requires Covered(s.tape) && Simulate(s).Ok?
    ensures Ascending(days) && |days| >= 2
    ensures forall d :: d in days <==> d in s.tape.closes && s.p.start <= d <= s.p.end
    ensures IsSchedule(days, s.template.cycleDte, |days|, starts)
    ensures Marked(starts, s.tape)
    ensures days[|days| - 1] in s.tape.closes
    ensures var pnls := Simulate(s).value.tradePnls;
      && |pnls| == |starts|
      && (forall k :: 0 <= k < |pnls| - 1 ==> pnls[k] == TradePnl(s, starts[k], starts[k + 1]))
      && pnls[|pnls| - 1] == TradePnl(s, starts[|starts| - 1], days[|days| - 1])
    ensures |Simulate(s).value.series| == |days|
    ensures Simulate(s).value.series[0] == (days[0], s.p.initialCapital - TemplateCost(s))
  {
    DaysOf(s);
    days := SimDays(s.tape.dates, s.p.start, s.p.end);
    SimDaysSubset(s.tape.dates, s.p.start, s.p.end);
    starts := Openings(days, s.template.cycleDte, |days|);
    OpeningsAreSchedule(days, s.template.cycleDte, |days|);
    RunTold(s, days, |days|);
    FirstPoint(s, days);
    DateAt(days, s.tape, |days| - 1);
    LastTrade(s, days, starts);
  }

  lemma LastTrade(s: Setup, days: seq<int>, starts: seq<int>)
    requires Runnable(s, days) && starts == Openings(days, s.template.cycleDte, |days|)
    requires days == SimDays(s.tape.dates, s.p.start, s.p.end) && Simulate(s).Ok?
    requires Marked(starts, s.tape)
    requires Told(s, RunDays(s, days, |days|), starts) && days[|days| - 1] in s.tape.closes
    ensures var pnls := Simulate(s).value.tradePnls;
      && |pnls| == |starts|
      && (forall k :: 0 <= k < |pnls| - 1 ==> pnls[k] == TradePnl(s, starts[k], starts[k + 1]))
      && pnls[|pnls| - 1] == TradePnl(s, starts[|starts| - 1], days[|days| - 1])
    ensures Simulate(s).value.series == RunDays(s, days, |days|).series
  {
    OpeningsAreSchedule(days, s.template.cycleDte, |days|);
    ClosingPnl(s, RunDays(s, days, |days|), starts, days[|days| - 1]);
    hide Mark, OpenCycle, TemplateCost, LegsOpened, CycleCost, RunDays, Openings, CyclePnl, TradePnl;
  }

  /** The two refusals: no bars at all, or fewer than two days with bars in the range. */
  lemma Refusals(s: Setup) returns (days: seq<int>)
    requires IsTape(s.tape) && s.p.strikeIncrement != 0.0 && Covered(s.tape)
    ensures Ascending(days) && forall d :: d in days <==> d in s.tape.closes && s.p.start <= d <= s.p.end
    ensures Simulate(s) == Err(NoBars) <==> s.tape.closes == map[]
    ensures Simulate(s) == Err(TooFewDays) <==> s.tape.closes != map[] && |days| < 2
  {
    hide RunDays, CyclePnl, Mark;
    days := SimDays(s.tape.dates, s.p.start, s.p.end);
    DaysOf(s);
    SimDaysSubset(s.tape.dates, s.p.start, s.p.end);
    assert s.tape.dates != [] ==> s.tape.dates[0] in s.tape.dates;
    assert s.tape.closes == map[] <==> s.tape.dates == [] by {
      if s.tape.closes != map[] { SomeDate(s.tape.closes.Keys); }
    }
  }

  // ---- what a mark is ----

  /** An option that has not expired is marked at 100 times its signed quantity times the pricer's value: at the day's
      close, with its days to expiry as a fraction of 365, the run's rate and the volatility known that day. */
  lemma OptionMark(s: Setup, kind: OptionType, side: Side, strike: real, expiry: int, qty: int, entry: Option<real>,
        d: int)
    requires d in s.tape.closes && Covered(s.tape) && d < expiry
    ensures var unit := s.m.bsm(kind, s.tape.closes[d], strike, (expiry - d) as real / 365.0, s.p.rate,
                                VolAt(s.tape, d, s.p.volLookback, s.m));
      Mark(s, [OptionLeg(kind, side, strike, expiry, qty, entry)], d) ==
        if side.Buy? then (100 * qty) as real * unit else -((100 * qty) as real * unit)
  {
    hide VolAt;
    var leg := OptionLeg(kind, side, strike, expiry, qty, entry);
    var spot, sigma := s.tape.closes[d], VolAt(s.tape, d, s.p.volLookback, s.m);
    OneLegValue(s.m, leg, spot, sigma, d, s.p.rate);
    OptionValue(s.m, leg, spot, sigma, d, s.p.rate);
  }

  lemma OneLegValue(m: Maths, leg: Leg, spot: real, sigma: real, d: int, rate: real)
    ensures PositionValue(m, [leg], spot, sigma, d, rate, 1) == LegValue(m, leg, spot, sigma, d, rate)
  {
    hide LegValue;
    assert PositionValue(m, [leg], spot, sigma, d, rate, 0) == 0.0;
  }

  lemma OptionValue(m: Maths, leg: Leg, spot: real, sigma: real, d: int, rate: real)
    requires leg.OptionLeg? && d < leg.expiry
    ensures var unit := m.bsm(leg.optionType, spot, leg.strike, (leg.expiry - d) as real / 365.0, rate, sigma);
      LegValue(m, leg, spot, sigma, d, rate) ==
        if leg.side.Buy? then (100 * leg.qty) as real * unit else -((100 * leg.qty) as real * unit)
  {
    var unit := m.bsm(leg.optionType, spot, leg.strike, (leg.expiry - d) as real / 365.0, rate, sigma);
    assert (leg.expiry - d) as real / 365.0 > 0.0;
    assert UnitValue(m, leg.optionType, leg.strike, spot, sigma, Years(leg.expiry - d), rate) == unit;
    SoldSign(leg.qty, unit);
    assert 1 * leg.qty * OPTION_MULTIPLIER == 100 * leg.qty && -1 * leg.qty * OPTION_MULTIPLIER == -1 * leg.qty * 100;
  }

  lemma SoldSign(qty: int, unit: real)
    ensures Times(-1 * qty * 100, unit) == -((100 * qty) as real * unit)
  {
    assert (-1 * qty * 100) as real == -((100 * qty) as real);
  }

  /** Shares are marked at the close; cash collateral not at all. */
  lemma ShareMark(s: Setup, side: Side, qty: int, entry: Option<real>, amount: real, d: int)
    requires d in s.tape.closes && Covered(s.tape)
    ensures Mark(s, [EquityLeg(side, qty, entry)], d) ==
              (if side.Buy? then qty as real * s.tape.closes[d] else -(qty as real * s.tape.closes[d]))
    ensures Mark(s, [CashLeg(amount)], d) == 0.0
  {
    hide VolAt;
    var spot, sigma := s.tape.closes[d], VolAt(s.tape, d, s.p.volLookback, s.m);
    OneLegValue(s.m, EquityLeg(side, qty, entry), spot, sigma, d, s.p.rate);
    OneLegValue(s.m, CashLeg(amount), spot, sigma, d, s.p.rate);
    assert (-1 * qty) as real == -(qty as real);
  }

  /** Marks add up over the legs of a position. */
  lemma MarkAdds(s: Setup, legs: seq<Leg>, more: seq<Leg>, d: int)
    requires d in s.tape.closes && Covered(s.tape)
    ensures Mark(s, legs + more, d) == Mark(s, legs, d) + Mark(s, more, d)
  {
    hide VolAt;
    ValueAdds(s.m, legs, more, s.tape.closes[d], VolAt(s.tape, d, s.p.volLookback, s.m), d, s.p.rate, |more|);
  }

  lemma {:induction false} ValueOfPrefix(m: Maths, legs: seq<Leg>, more: seq<Leg>, spot: real, sigma: real, d: int,
        rate: real, n: nat)
    requires n <= |legs|
    ensures PositionValue(m, legs + more, spot, sigma, d, rate, n) == PositionValue(m, legs, spot, sigma, d, rate, n)
  {
    hide LegValue;
    if n > 0 { ValueOfPrefix(m, legs, more, spot, sigma, d, rate, n - 1); }
  }

  lemma {:induction false} ValueAdds(m: Maths, legs: seq<Leg>, more: seq<Leg>, spot: real, sigma: real, d: int,
        rate: real, n: nat)
    requires n <= |more|
    ensures PositionValue(m, legs + more, spot, sigma, d, rate, |legs| + n)
         == PositionValue(m, legs, spot, sigma, d, rate, |legs|) + PositionValue(m, more, spot, sigma, d, rate, n)
  {
    hide LegValue;
    if n == 0 {
      ValueOfPrefix(m, legs, more, spot, sigma, d, rate, |legs|);
    } else {
      ValueAdds(m, legs, more, spot, sigma, d, rate, n - 1);
    }
  }

  /** A cycle's cost: every option contract pays commission and slippage, shares and cash nothing. */
  lemma CostOfOneLeg(s: Setup, leg: RelativeLeg)
    requires s.template.legs == [leg]
    ensures TemplateCost(s) ==
      if s.p.includeCosts && leg.RelOption? then leg.qty as real * (s.p.commission + s.p.slippage) else 0.0
  {
    assert [leg][..0] == [] && TemplateContracts([]) == 0;
    assert TemplateContracts([leg]) == if leg.RelOption? then leg.qty else 0;
  }
}
