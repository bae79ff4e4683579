/** One payoff, three readers: the net premium, the vectorised Monte Carlo mirror, and the backtest's settlement. */
module Valuation {
  import opened Wrappers
  import opened Numbers
  import opened Strategy
  import opened Payoff
  import Engine

  /** The same position, as if it had been entered for nothing. */
  function Stripped(leg: Leg): Leg {
    match leg
    case OptionLeg(kind, side, strike, expiry, qty, _) => OptionLeg(kind, side, strike, expiry, qty, None)
    case EquityLeg(side, qty, _) => EquityLeg(side, qty, None)
    case CashLeg(amount) => leg
  }

  function StripAll(legs: seq<Leg>): seq<Leg> {
    seq(|legs|, i requires 0 <= i < |legs| => Stripped(legs[i]))
  }

  function LegPremium(leg: Leg): real {
    match leg
    case OptionLeg(_, side, _, _, qty, entryPrice) =>
      side.Sign() as real * entryPrice.GetOr(0.0) * OPTION_MULTIPLIER as real * qty as real
    case EquityLeg(side, qty, entryPrice) => side.Sign() as real * entryPrice.GetOr(0.0) * qty as real
    case CashLeg(_) => 0.0
  }

  function Premium(legs: seq<Leg>): real {
    if legs == [] then 0.0 else Premium(legs[..|legs| - 1]) + LegPremium(legs[|legs| - 1])
  }

  method NetPremium(legs: seq<Leg>) returns (total: real)
    ensures total == Premium(legs)
    ensures forall s :: PnlAt(legs, s) == PnlAt(StripAll(legs), s) - total
  {
    hide LegPremium, PnlAt;
    total := 0.0;
    for i := 0 to |legs|
      invariant total == Premium(legs[..i])
    {
      assert legs[..i + 1][..i] == legs[..i];
      total := total + LegPremium(legs[i]);
    }
    assert legs[..|legs|] == legs;
    forall s ensures PnlAt(legs, s) == PnlAt(StripAll(legs), s) - total { PremiumSplit(legs, s); }
  }

  lemma LegPremiumSplit(leg: Leg, s: real)
    ensures LegPnl(leg, s) == LegPnl(Stripped(leg), s) - LegPremium(leg)
  {
    match leg
    case OptionLeg(kind, side, strike, _, qty, entryPrice) =>
      var intrinsic := if kind.Call? then Max(s - strike, 0.0) else Max(strike - s, 0.0);
      Scaled(side.Sign() as real, intrinsic, entryPrice.GetOr(0.0), OPTION_MULTIPLIER as real, qty as real);
    case EquityLeg(side, qty, entryPrice) =>
      Scaled(side.Sign() as real, s, entryPrice.GetOr(0.0), 1.0, qty as real);
    case CashLeg(_) =>
  }

  lemma Scaled(sign: real, value: real, entry: real, mult: real, qty: real)
    ensures sign * (value - entry) * mult * qty == sign * (value - 0.0) * mult * qty - sign * entry * mult * qty
  {
  }

  lemma {:induction false} PnlSnoc(legs: seq<Leg>, leg: Leg, s: real)
    ensures PnlAt(legs + [leg], s) == PnlAt(legs, s) + LegPnl(leg, s)
  {
    hide LegPnl;
    if legs != [] {
      assert (legs + [leg])[1..] == legs[1..] + [leg];
      PnlSnoc(legs[1..], leg, s);
    } else {
      assert [leg][1..] == [] && legs + [leg] == [leg];
      assert PnlAt([leg], s) == LegPnl(leg, s) + PnlAt([], s);
    }
  }

  /** The expiry P&L is the expiry value of the position less its net premium: debits cost, credits pay. */
  lemma {:induction false} PremiumSplit(legs: seq<Leg>, s: real)
    ensures PnlAt(legs, s) == PnlAt(StripAll(legs), s) - Premium(legs)
  {
    hide LegPnl, LegPremium, Stripped, PnlAt;
    if legs == [] {
      NoLegs(s);
    } else {
      var n := |legs| - 1;
      assert legs == legs[..n] + [legs[n]] && StripAll(legs) == StripAll(legs[..n]) + [Stripped(legs[n])];
      PremiumSplit(legs[..n], s);
      PnlSnoc(legs[..n], legs[n], s);
      PnlSnoc(StripAll(legs[..n]), Stripped(legs[n]), s);
      LegPremiumSplit(legs[n], s);
    }
  }

  lemma NoLegs(s: real)
    ensures PnlAt([], s) == 0.0
  {
  }

  /** `strategy_pnl`: leg by leg over a whole array of terminal prices, and at each of them the curve's own payoff. */
  method StrategyPnl(legs: seq<Leg>, terminal: seq<real>) returns (total: seq<real>)
    ensures |total| == |terminal| && forall i :: 0 <= i < |terminal| ==> total[i] == PnlAt(legs, terminal[i])
  {
    hide LegPnl, PnlAt;
    total := seq(|terminal|, _ => 0.0);
    forall i | 0 <= i < |terminal| ensures PnlAt([], terminal[i]) == 0.0 { NoLegs(terminal[i]); }
    for k := 0 to |legs|
      invariant |total| == |terminal|
      invariant forall i :: 0 <= i < |terminal| ==> total[i] == PnlAt(legs[..k], terminal[i])
    {
      var leg := legs[k];
      var was := total;
      total := seq(|terminal|,
        i requires 0 <= i < |terminal| && |was| == |terminal| => was[i] + LegPnl(leg, terminal[i]));
      forall i | 0 <= i < |terminal| ensures total[i] == PnlAt(legs[..k + 1], terminal[i]) {
        assert legs[..k + 1] == legs[..k] + [leg];
        PnlSnoc(legs[..k], leg, terminal[i]);
      }
    }
    assert legs[..|legs|] == legs;
  }

  // ---- what an option contract is worth in shares ----

  /** Put-call parity: at every spot, a bought call and a sold put of one strike pay what 100 shares pay that were
      bought at the strike plus the call premium less the put premium. */
  lemma PutCallParity(strike: real, expiry: int, call: real, put: real, s: real)
    ensures PnlAt([OptionLeg(Call, Buy, strike, expiry, 1, Some(call)),
                   OptionLeg(Put, Sell, strike, expiry, 1, Some(put))], s)
         == PnlAt([EquityLeg(Buy, 100, Some(strike + call - put))], s)
  {
    var c, p := OptionLeg(Call, Buy, strike, expiry, 1, Some(call)), OptionLeg(Put, Sell, strike, expiry, 1, Some(put));
    TwoLegs(c, p, s);
    OneLeg(EquityLeg(Buy, 100, Some(strike + call - put)), s);
  }

  /** A covered call: 100 shares and one sold call pay the same at every spot above the strike. */
  lemma CoveredCall(strike: real, expiry: int, paid: real, premium: real, s: real)
    ensures PnlAt([EquityLeg(Buy, 100, Some(paid)), OptionLeg(Call, Sell, strike, expiry, 1, Some(premium))], s)
         == 100.0 * ((if s <= strike then s else strike) - paid + premium)
  {
    TwoLegs(EquityLeg(Buy, 100, Some(paid)), OptionLeg(Call, Sell, strike, expiry, 1, Some(premium)), s);
  }

  /** Selling what one bought at the same price pays nothing, at any spot. */
  lemma SoldIsOpposite(leg: Leg, s: real)
    requires !leg.CashLeg?
    ensures PnlAt([leg.(side := Buy), leg.(side := Sell)], s) == 0.0
  {
    TwoLegs(leg.(side := Buy), leg.(side := Sell), s);
    match leg
    case OptionLeg(kind, _, strike, _, qty, entryPrice) =>
      var x := (if kind.Call? then Max(s - strike, 0.0) else Max(strike - s, 0.0)) - entryPrice.GetOr(0.0);
      OppositeSigns(x, OPTION_MULTIPLIER as real, qty as real);
    case EquityLeg(_, qty, entryPrice) => OppositeSigns(s - entryPrice.GetOr(0.0), 1.0, qty as real);
  }

  lemma OppositeSigns(x: real, mult: real, qty: real)
    ensures 1.0 * x * mult * qty + -1.0 * x * mult * qty == 0.0
  {
    assert -1.0 * x == -x;
    assert (-x) * mult == -(x * mult);
    assert (-(x * mult)) * qty == -(x * mult * qty);
  }

  lemma OneLeg(leg: Leg, s: real)
    ensures PnlAt([leg], s) == LegPnl(leg, s)
  {
    hide LegPnl;
    NoLegs(s);
    assert [leg][1..] == [];
  }

  lemma TwoLegs(a: Leg, b: Leg, s: real)
    ensures PnlAt([a, b], s) == LegPnl(a, s) + LegPnl(b, s)
  {
    hide LegPnl;
    OneLeg(b, s);
    assert [a, b][1..] == [b];
  }

  // ---- settlement ----

  lemma LegSettles(m: Engine.Maths, leg: Leg, spot: real, sigma: real, d: int, rate: real)
    requires leg.OptionLeg? ==> leg.expiry <= d
    ensures Engine.LegValue(m, leg, spot, sigma, d, rate) == LegPnl(Stripped(leg), spot)
  {
    match leg
    case OptionLeg(kind, side, strike, expiry, qty, _) =>
      var v := if kind.Call? then Max(spot - strike, 0.0) else Max(strike - spot, 0.0);
      assert Engine.UnitValue(m, kind, strike, spot, sigma, Engine.Years(expiry - d), rate) == v;
      Regroup(side, qty, v);
    case EquityLeg(side, qty, _) => Regroup(side, qty, spot);
    case CashLeg(_) =>
  }

  lemma Regroup(side: Side, qty: int, v: real)
    ensures Times(side.Sign() * qty * OPTION_MULTIPLIER, v)
      == side.Sign() as real * (v - 0.0) * OPTION_MULTIPLIER as real * qty as real
    ensures Times(side.Sign() * qty, v) == side.Sign() as real * (v - 0.0) * qty as real
  {
    if side.Buy? {
      assert (1 * qty * 100) as real == 100.0 * qty as real;
    } else {
      assert (-1 * qty * 100) as real == -100.0 * qty as real;
    }
  }

  /** Once every option has expired, the backtest's mark is the expiry payoff, whatever the pricer and the
      volatility. */
  lemma {:induction false} SettlementIsPayoff(m: Engine.Maths, legs: seq<Leg>, spot: real, sigma: real, d: int,
        rate: real, n: nat)
    requires n <= |legs| && forall i :: 0 <= i < |legs| && legs[i].OptionLeg? ==> legs[i].expiry <= d
    ensures Engine.PositionValue(m, legs, spot, sigma, d, rate, n) == PnlAt(StripAll(legs[..n]), spot)
  {
    hide Engine.LegValue, LegPnl, Stripped, PnlAt;
    if n == 0 {
      NoLegs(spot);
    } else {
      SettlementIsPayoff(m, legs, spot, sigma, d, rate, n - 1);
      assert StripAll(legs[..n]) == StripAll(legs[..n - 1]) + [Stripped(legs[n - 1])];
      PnlSnoc(StripAll(legs[..n - 1]), Stripped(legs[n - 1]), spot);
      LegSettles(m, legs[n - 1], spot, sigma, d, rate);
    }
  }
}
