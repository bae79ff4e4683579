/** Strategy legs, as a caller describes them. */
module Strategy {
  import opened Wrappers

  datatype OptionType = Call | Put

  datatype Side = Buy | Sell {
    function Sign(): int { if Buy? then 1 else -1 }
  }

  /** Dates are day numbers. */
  datatype Leg =
    | OptionLeg(optionType: OptionType, side: Side, strike: real, expiry: int, qty: int, entryPrice: Option<real>)
    | EquityLeg(side: Side, qty: int, entryPrice: Option<real>)
    | CashLeg(amount: real)

  const OPTION_MULTIPLIER := 100
}
