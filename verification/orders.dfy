/** Order tickets, the status machine and the pre-trade gates. */
module Orders {
  import opened Wrappers
  import opened Numbers

  /** optionType is the wire string: absent for shares. The empty string is a value of its own, because the
      adapter tests truthiness where the SQL tests for NULL. Strikes are numbers, so normalised. */
  datatype Instrument = Instrument(symbol: string, optionType: Option<string>, strike: Option<real>,
        expiry: Option<int>)

  datatype Side = Buy | Sell | OtherSide
  datatype OrderType = Market | Limit | Stop | StopLimit | OtherType
  datatype TimeInForce = Day | Gtc | Ioc | Fok | OtherTif

  datatype Ticket = Ticket(
    instr: Instrument, side: Side, qty: int, orderType: OrderType,
    limitPrice: Option<real>, stopPrice: Option<real>, tif: TimeInForce)

  /** `_mult` of the adapter and of `estimate_cost`: truthiness of the option type. */
  function Multiplier(i: Instrument): int {
    if i.optionType.Some? && i.optionType.value != "" then 100 else 1
  }

  /** A filled quantity with the sign of the order's side. */
  function SignedFill(t: Ticket, qty: int): int { if t.side.Buy? then qty else -qty }

  function SignedQty(t: Ticket): int { SignedFill(t, t.qty) }

  // ---- status machine ----

  datatype Status = Pending | Submitted | Partial | Filled | Cancelled | Rejected

  function ValidTransitions(s: Status): set<Status> {
    match s
    case Pending => {Submitted, Rejected, Cancelled}
    case Submitted => {Partial, Filled, Cancelled, Rejected}
    case Partial => {Filled, Cancelled}
    case Filled => {}
    case Cancelled => {}
    case Rejected => {}
  }

  /** `transition`: the target, or the illegal-transition error. */
  function Transition(current: Status, target: Status): Result<Status, ()> {
    if target in ValidTransitions(current) then Ok(target) else Err(())
  }

  /** The whole table: an order may be submitted, or end rejected or cancelled, from pending; it may fill or be
      cancelled from submitted and from partial; only a submitted one fills in part or is rejected; nothing leaves
      filled, cancelled or rejected, and nothing returns to pending or submitted. */
  lemma TransitionTable(s: Status, t: Status)
    ensures Transition(s, t).Ok? <==>
      || (t == Submitted && s == Pending)
      || (t == Partial && s == Submitted)
      || (t == Filled && (s == Submitted || s == Partial))
      || (t == Cancelled && (s == Pending || s == Submitted || s == Partial))
      || (t == Rejected && (s == Pending || s == Submitted))
    ensures Transition(s, t).Ok? ==> Transition(s, t).value == t
  {
  }

  predicate Terminal(s: Status) { ValidTransitions(s) == {} }

  /** Every step of the history is a legal transition. */
  ghost predicate IsPath(history: seq<Status>) {
    forall i :: 0 <= i < |history| - 1 ==> history[i + 1] in ValidTransitions(history[i])
  }

  // ---- gates ----

  datatype Code =
    | InvalidQuantity | InvalidSide | InvalidOrderType | InvalidTif | MissingLimitPrice | MissingStopPrice
    | AccountInactive | StrategyNotExecutable | InsufficientBuyingPower | RateLimitExceeded
    | AccountNotFound | AccountNotActive | BrokerNotSupported | CredentialsUnavailable | BrokerUnavailable
    | NoMarketData | BrokerRejected | DuplicateInFlight | OrderNotFound | OrderNotCancellable

  datatype StrategyState = Draft | Backtested | Paper | Live | Paused | Archived

  datatype RiskContext = RiskContext(
    accountActive: bool, strategyState: Option<StrategyState>, availableBalance: real, estimatedCost: real,
    recentOrderCount: int, rateLimit: Option<int>)

  function StructuralGate(t: Ticket): Option<Code> {
    if t.qty <= 0 then Some(InvalidQuantity)
    else if t.side.OtherSide? then Some(InvalidSide)
    else if t.orderType.OtherType? then Some(InvalidOrderType)
    else if t.tif.OtherTif? then Some(InvalidTif)
    else if (t.orderType.Limit? || t.orderType.StopLimit?) && t.limitPrice.GetOr(0.0) <= 0.0
      then Some(MissingLimitPrice)
    else if (t.orderType.Stop? || t.orderType.StopLimit?) && t.stopPrice.GetOr(0.0) <= 0.0 then Some(MissingStopPrice)
    else None
  }

  function ExecutableGate(ctx: RiskContext): Option<Code> {
    if !ctx.accountActive then Some(AccountInactive)
    else if ctx.strategyState.Some? && ctx.strategyState.value !in {Paper, Live} then Some(StrategyNotExecutable)
    else None
  }

  function BuyingPowerGate(t: Ticket, ctx: RiskContext): Option<Code> {
    if t.side.Buy? && ctx.estimatedCost > ctx.availableBalance then Some(InsufficientBuyingPower) else None
  }

  function RateGate(ctx: RiskContext): Option<Code> {
    if ctx.rateLimit.Some? && ctx.recentOrderCount >= ctx.rateLimit.value then Some(RateLimitExceeded) else None
  }

  /** The first failing gate, in the source's order. */
  function RunGates(t: Ticket, ctx: RiskContext): Option<Code> {
    if StructuralGate(t).Some? then StructuralGate(t)
    else if ExecutableGate(ctx).Some? then ExecutableGate(ctx)
    else if BuyingPowerGate(t, ctx).Some? then BuyingPowerGate(t, ctx)
    else RateGate(ctx)
  }

  function EstimateCost(t: Ticket, mark: real): real { Times(t.qty * Multiplier(t.instr), mark) }

  /** The prices an order type needs are there; the structural gate guarantees it. */
  predicate Priced(t: Ticket) {
    && (t.orderType.Limit? || t.orderType.StopLimit? ==> t.limitPrice.Some?)
    && (t.orderType.Stop? || t.orderType.StopLimit? ==> t.stopPrice.Some?)
  }

  /** `_marketable`: the fill price, if the order trades against this mark now. */
  function Marketable(t: Ticket, mark: real): Option<real>
    requires Priced(t)
  {
    match t.orderType
    case Market => Some(mark)
    case Limit => LimitFill(t, mark)
    case Stop => if Triggered(t, mark) then Some(mark) else None
    case StopLimit => if Triggered(t, mark) then LimitFill(t, mark) else None
    case OtherType => None
  }

  function LimitFill(t: Ticket, mark: real): Option<real>
    requires t.limitPrice.Some?
  {
    var limit := t.limitPrice.value;
    if (t.side.Buy? && mark <= limit) || (t.side.Sell? && mark >= limit) then Some(limit) else None
  }

  predicate Triggered(t: Ticket, mark: real)
    requires t.stopPrice.Some?
  {
    (t.side.Buy? && mark >= t.stopPrice.value) || (t.side.Sell? && mark <= t.stopPrice.value)
  }

  /** A gated order fills at a non-negative price; a buy never below the mark; a market or stop order at it. */
  lemma FillPriceBounds(t: Ticket, mark: real)
    requires StructuralGate(t).None? && mark >= 0.0
    ensures Priced(t)
    ensures Marketable(t, mark).Some? ==>
      var fill := Marketable(t, mark).value;
      fill >= 0.0 && (t.side.Buy? ==> fill >= mark) && (t.orderType.Market? || t.orderType.Stop? ==> fill == mark)
  {
  }
}

/** Sums over the values of a finite map, independent of any order. */
module MapSums {
  ghost function Total<K(!new)>(m: map<K, real>): real {
    if m.Keys == {} then 0.0
    else
      var k :| k in m.Keys;
      m[k] + Total(m - {k})
  }

  lemma {:induction false} TotalRemove<K(!new)>(m: map<K, real>, k: K)
    requires k in m
    ensures Total(m) == m[k] + Total(m - {k})
    decreases |m|
  {
    var j :| j in m.Keys && Total(m) == m[j] + Total(m - {j});
    if j != k {
      TotalRemove(m - {j}, k);
      TotalRemove(m - {k}, j);
      assert m - {j} - {k} == m - {k} - {j};
    }
  }

  lemma TotalUpdate<K(!new)>(m: map<K, real>, k: K, v: real)
    ensures Total(m[k := v]) == Total(m - {k}) + v
  {
    TotalRemove(m[k := v], k);
    assert m[k := v] - {k} == m - {k};
  }

  lemma TotalEmpty<K(!new)>()
    ensures Total<K>(map[]) == 0.0
  {
  }

  /** Totals add up when the entries do. */
  lemma {:induction false} TotalAdd<K(!new)>(a: map<K, real>, b: map<K, real>, c: map<K, real>)
    requires a.Keys == b.Keys == c.Keys
    requires forall k :: k in c ==> c[k] == a[k] + b[k]
    ensures Total(c) == Total(a) + Total(b)
    decreases |c|
  {
    if c.Keys != {} {
      var k :| k in c;
      TotalRemove(a, k);
      TotalRemove(b, k);
      TotalRemove(c, k);
      TotalAdd(a - {k}, b - {k}, c - {k});
    }
  }
}
