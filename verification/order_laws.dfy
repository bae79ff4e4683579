/** What becomes of an order, told in prices, balances and states alone: when it trades, when it is accepted, and why
    it is turned away. */
module OrderLaws {
  import opened Wrappers
  import opened Numbers
  import opened Positions
  import opened Orders
  import opened Ledger
  import opened Service

  // ---- when an order trades ----

  /** A limit order trades at its limit or better: a buy at or below it, a sale at or above it. */
  predicate WithinLimit(t: Ticket, mark: real)
    requires t.limitPrice.Some?
  {
    match t.side
    case Buy => mark <= t.limitPrice.value
    case Sell => mark >= t.limitPrice.value
    case OtherSide => false
  }

  /** A stop order wakes when the market moves against the position it protects or into the move it chases: a buy at or
      above its stop, a sale at or below it. */
  predicate StopReached(t: Ticket, mark: real)
    requires t.stopPrice.Some?
  {
    match t.side
    case Buy => mark >= t.stopPrice.value
    case Sell => mark <= t.stopPrice.value
    case OtherSide => false
  }

  /** The status a fresh submission of t ends in at this mark. */
  ghost predicate RightVerdict(t: Ticket, mark: real, status: P.BookStatus)
    requires Priced(t)
  {
    && (match t.orderType
        case Market => status == P.FilledAt(mark)
        case Limit => status.FilledAt? <==> WithinLimit(t, mark)
        case Stop => status.FilledAt? <==> StopReached(t, mark)
        case StopLimit => status.FilledAt? <==> StopReached(t, mark) && WithinLimit(t, mark)
        case OtherType => !status.FilledAt?)
    && (status.FilledAt? ==>
          status.price == if t.orderType.Limit? || t.orderType.StopLimit? then t.limitPrice.value else mark)
    && (!status.FilledAt? ==> status == if t.tif.Ioc? || t.tif.Fok? then P.CancelledOrder else P.Open)
  }

  /** What one contract or share is worth per unit of price. */
  function UnitsPerLot(i: Instrument): real {
    match i.optionType
    case None => 1.0
    case Some(text) => if text == "" then 1.0 else 100.0
  }

  lemma VerdictIs(t: Ticket, mark: real)
    requires Priced(t)
    ensures RightVerdict(t, mark, match Marketable(t, mark)
                                  case Some(price) => P.FilledAt(price)
                                  case None => if t.tif.Ioc? || t.tif.Fok? then P.CancelledOrder else P.Open)
  {
  }

  /** A new submission gets the right verdict. A fill takes quantity times price out of the cash on a buy, brings it in
      on a sale, and moves the instrument's position by the signed quantity at the fill price; anything else moves
      nothing. A known key changes nothing at all. */
  lemma SubmitTrades(b: P.Book, t: Ticket, key: P.SubmitKey, mark: real)
    requires Priced(t)
    ensures var after := P.Submit(b, t, key, mark);
      && (key in b.idem ==> after == b)
      && (key !in b.idem ==>
            && key in after.idem && after.idem[key] == b.seqNo + 1 && after.idem[key] in after.orders
            && var order := after.orders[after.idem[key]];
            && order.ticket == t && RightVerdict(t, mark, order.status)
            && (order.status.FilledAt? ==>
                  && after.cash == b.cash
                     + Times(if t.side.Buy? then -t.qty else t.qty, UnitsPerLot(t.instr) * order.status.price)
                  && PositionAt(after.positions, t.instr)
                     == NetPosition(PositionAt(b.positions, t.instr),
                                    if t.side.Buy? then t.qty else -t.qty, order.status.price)
                  && |after.fills| == |b.fills| + 1 && after.fills[|b.fills|].qty == t.qty
                  && after.fills[|b.fills|].price == order.status.price)
            && (!order.status.FilledAt? ==>
                  after.cash == b.cash && after.positions == b.positions && after.fills == b.fills))
  {
    if key !in b.idem {
      VerdictIs(t, mark);
      hide Times, NetPosition;
      if Marketable(t, mark).Some? {
        var price := Marketable(t, mark).value;
        LotValue(t, price);
        StoredFlat(b, t, price);
      }
      hide Marketable, RightVerdict, P.Money, UnitsPerLot;
    }
  }

  lemma LotValue(t: Ticket, price: real)
    ensures P.Money(t.instr, SignedQty(t), price)
      == -Times(if t.side.Buy? then -t.qty else t.qty, UnitsPerLot(t.instr) * price)
  {
    var n := if t.side.Buy? then -t.qty else t.qty;
    var m := Multiplier(t.instr);
    assert SignedQty(t) == -n && UnitsPerLot(t.instr) == m as real;
    assert (m * -n) as real == -(m as real * n as real);
    assert (m as real * n as real) * price == n as real * (m as real * price);
  }

  lemma StoredFlat(b: P.Book, t: Ticket, price: real)
    ensures var p := NetPosition(PositionAt(b.positions, t.instr), SignedQty(t), price);
      PositionAt(Upsert(b.positions, t.instr, p), t.instr) == p
  {
    NetFlat(PositionAt(b.positions, t.instr), SignedQty(t), price);
    hide NetPosition;
  }

  // ---- when an order is accepted ----

  predicate WellFormed(t: Ticket) {
    && t.qty > 0 && t.side in {Buy, Sell} && t.orderType in {Market, Limit, Stop, StopLimit}
    && t.tif in {Day, Gtc, Ioc, Fok}
    && (t.orderType in {Limit, StopLimit} ==> t.limitPrice.Some? && t.limitPrice.value > 0.0)
    && (t.orderType in {Stop, StopLimit} ==> t.stopPrice.Some? && t.stopPrice.value > 0.0)
  }

  /** An order may name no strategy, or one that is trading on paper or live. */
  predicate MayTrade(strategy: Option<StrategyState>) {
    strategy.Some? ==> strategy.value == Paper || strategy.value == Live
  }

  predicate Affordable(t: Ticket, cost: real, balance: real) { t.side == Buy ==> cost <= balance }

  /** The gates let an order through exactly when it is well-formed, its strategy may trade, a buy is covered, and
      the rate is within its limit; and the code says which of these failed first. */
  lemma GatesMean(t: Ticket, ctx: RiskContext)
    ensures var code := RunGates(t, ctx);
      && (code.None? <==>
            && WellFormed(t) && ctx.accountActive && MayTrade(ctx.strategyState)
            && Affordable(t, ctx.estimatedCost, ctx.availableBalance)
            && (ctx.rateLimit.Some? ==> ctx.recentOrderCount < ctx.rateLimit.value))
      && (code == Some(InvalidQuantity) <==> t.qty <= 0)
      && (code == Some(InvalidSide) <==> t.qty > 0 && t.side == OtherSide)
      && (code == Some(InvalidOrderType) <==> t.qty > 0 && t.side != OtherSide && t.orderType == OtherType)
      && (code == Some(InvalidTif) <==>
         t.qty > 0 && t.side != OtherSide && t.orderType != OtherType && t.tif == OtherTif)
      && (code == Some(MissingLimitPrice) ==>
         t.orderType in {Limit, StopLimit} && !(t.limitPrice.Some? && t.limitPrice.value > 0.0))
      && (code == Some(MissingStopPrice) ==>
         t.orderType in {Stop, StopLimit} && !(t.stopPrice.Some? && t.stopPrice.value > 0.0))
      && (code == Some(AccountInactive) <==> WellFormed(t) && !ctx.accountActive)
      && (code == Some(StrategyNotExecutable) <==> WellFormed(t) && ctx.accountActive && !MayTrade(ctx.strategyState))
      && (code == Some(InsufficientBuyingPower) <==>
            WellFormed(t) && ctx.accountActive && MayTrade(ctx.strategyState)
            && !Affordable(t, ctx.estimatedCost, ctx.availableBalance))
      && (code == Some(RateLimitExceeded) ==>
            WellFormed(t) && MayTrade(ctx.strategyState) && Affordable(t, ctx.estimatedCost, ctx.availableBalance))
  {
  }

  lemma CostIs(t: Ticket, mark: real)
    ensures EstimateCost(t, mark) == Times(t.qty, UnitsPerLot(t.instr) * mark)
  {
    var m := Multiplier(t.instr);
    assert UnitsPerLot(t.instr) == m as real;
    assert (t.qty * m) as real == t.qty as real * m as real;
    assert (t.qty as real * m as real) * mark == t.qty as real * (m as real * mark);
  }

  /** No row has this key. */
  ghost predicate FreshKey(db: Db, key: Option<string>) {
    key.Some? ==> forall r :: r in db.orders ==> r.idemKey != key
  }

  lemma FreshIsNew(db: Db, key: Option<string>)
    requires FreshKey(db, key)
    ensures FindByKey(db.orders, key).None? && !KeyTaken(db.orders, key)
  {
    FindIndex(db.orders, key, 0);
  }

  /** What placing an order under a fresh key costs at this mark. */
  function CostAt(t: Ticket, mark: real): real { Times(t.qty, UnitsPerLot(t.instr) * mark) }

  /** A new order on an active paper account with a mark: accepted exactly when it is well-formed, its strategy may
      trade and a buy is covered by the recomputed balance. */
  lemma PaperAccepts(w: World, db: Db, env: Env, q: Request)
    requires Joined(db.orders, db.execs) && FreshKey(db, q.key) && env.mark.Some?
    requires q.account in w.accounts && w.accounts[q.account] == Account("paper", true)
    ensures var (now, reply) := PlaceOrder(db, w.accounts, env, w.startingCash, q); var n := |db.orders|;
      && (reply.Placed? <==>
            WellFormed(q.ticket) && MayTrade(env.strategy)
            && Affordable(q.ticket, CostAt(q.ticket, env.mark.value), AccountBalance(db, q.account, w.startingCash)))
      && (reply.Placed? ==>
            && reply.orderId == n && |now.orders| == n + 1
            && now.orders[n].ticket == q.ticket && now.orders[n].account == q.account && now.orders[n].idemKey == q.key
            && now.orders[n].rejectCode.None? && reply.status == now.orders[n].status
            && Priced(q.ticket)
            && FilledAsRight(db, now, q, env.mark.value))
      && (reply.Failed? ==>
            && |now.orders| == n + 1 && now.execs == db.execs && now.positions == db.positions
            && now.orders[n].status == Rejected && now.orders[n].rejectCode == Some(reply.code))
  {
    FreshIsNew(db, q.key);
    CostIs(q.ticket, env.mark.value);
    var balance := AccountBalance(db, q.account, w.startingCash);
    GatesMean(q.ticket, RiskContext(true, env.strategy, balance, EstimateCost(q.ticket, env.mark.value), 0, None));
    hide AccountBalance, EstimateCost, RunGates, Times, SubmitPaper, KeyTaken, FindByKey, FilledAsRight, CostAt;
    assert CostAt(q.ticket, env.mark.value) == EstimateCost(q.ticket, env.mark.value) by {
      CostAtIs(q.ticket, env.mark.value);
    }
    if WellFormed(q.ticket) {
      SubmitPaperRow(db, q, env.mark.value, balance);
      PaperRow(db, q, env.mark.value, balance);
    }
  }

  lemma CostAtIs(t: Ticket, mark: real)
    ensures CostAt(t, mark) == EstimateCost(t, mark)
  {
    CostIs(t, mark);
  }

  /** The accepted row's status, its execution and its position are those of the right verdict at the mark. */
  ghost predicate FilledAsRight(db: Db, now: Db, q: Request, mark: real)
    requires Priced(q.ticket) && |now.orders| == |db.orders| + 1
  {
    var n, t := |db.orders|, q.ticket;
    exists verdict ::
      && RightVerdict(t, mark, verdict)
      && now.orders[n].status
         == (if verdict.FilledAt? then Filled else if verdict == P.Open then Submitted else Cancelled)
      && now.execs == db.execs
         + (if verdict.FilledAt? then [Execution(n, q.account, t.qty, verdict.price, 0.0, PaperExec(n))] else [])
      && (!verdict.FilledAt? ==> now.positions == db.positions)
  }

  lemma PaperRow(db: Db, q: Request, mark: real, balance: real)
    requires Priced(q.ticket)
    ensures var now := SubmitPaper(db, q, mark, balance).0;
      && |now.orders| == |db.orders| + 1 && now.orders[|db.orders|].rejectCode.None?
      && FilledAsRight(db, now, q, mark)
  {
    FreshVerdict(q.ticket, SubmitKeyFor(q, |db.orders|), mark, balance);
    VerdictIs(q.ticket, mark);
    hide Marketable, RightVerdict, NetPosition, P.Submit;
    var verdict := match Marketable(q.ticket, mark)
                   case Some(price) => P.FilledAt(price)
                   case None => if q.ticket.tif.Ioc? || q.ticket.tif.Fok? then P.CancelledOrder else P.Open;
    assert RightVerdict(q.ticket, mark, verdict);
  }

  /** The codes that say the account or its broker cannot be used. */
  predicate AboutAccount(code: Code) {
    code in {AccountNotFound, AccountNotActive, BrokerNotSupported, CredentialsUnavailable}
  }

  /** Why a request is turned away before any gate, and that it then leaves no row. */
  lemma TurnedAwayBecause(w: World, db: Db, env: Env, q: Request)
    requires Joined(db.orders, db.execs) && FreshKey(db, q.key)
    ensures var (now, reply) := PlaceOrder(db, w.accounts, env, w.startingCash, q);
      var known := q.account in w.accounts;
      && (reply == Failed(AccountNotFound) <==> !known)
      && (reply == Failed(AccountNotActive) <==> known && !w.accounts[q.account].active)
      && (known && w.accounts[q.account].active ==>
            var account := w.accounts[q.account];
            && (account.broker != "paper" && account.broker !in env.factories ==> reply == Failed(BrokerNotSupported))
            && (account.broker != "paper" && account.broker in env.factories ==>
                  && (env.live.NoCredentials? ==> reply == Failed(CredentialsUnavailable))
                  && (env.live.Adapter? && env.live.balance.None? ==> reply == Failed(BrokerUnavailable)))
            && (account.broker == "paper" && env.mark.None? && ChecksHold(q.ticket) ==> reply == Failed(NoMarketData)))
      && (reply.Failed? && AboutAccount(reply.code) ==> now == db)
  {
    FreshIsNew(db, q.key);
    hide AccountBalance, EstimateCost, SubmitPaper, FindByKey, KeyTaken;
    if env.mark.Some? {
      GatesMean(q.ticket, RiskContext(true, env.strategy, AccountBalance(db, q.account, w.startingCash),
                                      EstimateCost(q.ticket, env.mark.value), 0, None));
      if WellFormed(q.ticket) {
        SubmitPaperRow(db, q, env.mark.value, AccountBalance(db, q.account, w.startingCash));
      }
    }
  }

  /** A live order with a working adapter: accepted by the gates at the broker's balance, it takes the broker's answer;
      without bars a buy costs nothing to the gate. */
  lemma LiveAccepts(w: World, db: Db, env: Env, q: Request)
    requires Joined(db.orders, db.execs) && FreshKey(db, q.key)
    requires q.account in w.accounts && w.accounts[q.account].active && w.accounts[q.account].broker != "paper"
    requires w.accounts[q.account].broker in env.factories && env.live.Adapter? && env.live.balance.Some?
    ensures var (now, reply) := PlaceOrder(db, w.accounts, env, w.startingCash, q); var n := |db.orders|;
      var cost := if env.mark.Some? then CostAt(q.ticket, env.mark.value) else 0.0;
      if WellFormed(q.ticket) && MayTrade(env.strategy) && Affordable(q.ticket, cost, env.live.balance.value) then
        && |now.orders| == n + 1 && now.execs == db.execs && now.positions == db.positions
        && now.orders[n].ticket == q.ticket && now.orders[n].account == q.account && now.orders[n].idemKey == q.key
        && (match env.live.submit
            case Ack(id) =>
              reply == Placed(n, Submitted) && now.orders[n].status == Submitted
                  && now.orders[n].brokerOrderId == Some(LiveId(id))
            case Declined =>
              reply == Failed(BrokerRejected) && now.orders[n].status == Rejected
                  && now.orders[n].rejectCode == Some(BrokerRejected)
            case Down => reply == Failed(BrokerUnavailable) && now.orders[n].status == Pending)
      else
        !reply.Placed? && now.execs == db.execs && now.positions == db.positions
  {
    FreshIsNew(db, q.key);
    var cost := if env.mark.Some? then EstimateCost(q.ticket, env.mark.value) else 0.0;
    if env.mark.Some? { CostAtIs(q.ticket, env.mark.value); }
    GatesMean(q.ticket, RiskContext(true, env.strategy, env.live.balance.value, cost, 0, None));
    hide EstimateCost, RunGates, CostAt, FindByKey, KeyTaken, WellFormed, SubmitPaper;
  }

  /** A strategy that is neither on paper nor live trades nothing: any row a placement naming it adds is rejected. */
  lemma OnlyTradingStrategiesTrade(w: World, db: Db, env: Env, q: Request)
    requires Joined(db.orders, db.execs) && env.strategy.Some? && env.strategy.value !in {StrategyState.Paper, Live}
    ensures var (now, reply) := PlaceOrder(db, w.accounts, env, w.startingCash, q);
      && |db.orders| <= |now.orders| && now.execs == db.execs && now.positions == db.positions
      && forall i :: |db.orders| <= i < |now.orders| ==> now.orders[i].status == Rejected
  {
    hide AccountBalance, EstimateCost, SubmitPaper, FindByKey, KeyTaken;
    var cost := if env.mark.Some? then EstimateCost(q.ticket, env.mark.value) else 0.0;
    forall balance ensures RunGates(q.ticket, RiskContext(true, env.strategy, balance, cost, 0, None)).Some? {
      GatesMean(q.ticket, RiskContext(true, env.strategy, balance, cost, 0, None));
    }
  }

  /** A used key is answered from its row, and nothing changes. */
  lemma UsedKeyIsReplayed(w: World, db: Db, env: Env, q: Request, i: nat)
    requires Joined(db.orders, db.execs) && i < |db.orders| && q.key.Some? && q.key.value != ""
    requires db.orders[i].idemKey == q.key && forall j :: 0 <= j < i ==> db.orders[j].idemKey != q.key
    ensures PlaceOrder(db, w.accounts, env, w.startingCash, q) == (db, Placed(i, db.orders[i].status))
  {
    hide AccountBalance, EstimateCost, SubmitPaper, RunGates, FindFrom;
    FindIndex(db.orders, q.key, 0);
    FirstFound(db.orders, q.key, 0, i);
  }

  lemma {:induction false} FirstFound(orders: seq<Order>, key: Option<string>, from: nat, i: nat)
    requires from <= i < |orders| && orders[i].idemKey == key
    requires forall j :: 0 <= j < i ==> orders[j].idemKey != key
    ensures FindFrom(orders, key, from) == Some(i)
    decreases i - from
  {
    if from < i { FirstFound(orders, key, from + 1, i); }
  }

  /** An empty or absent key is never answered from an older row. */
  lemma EmptyKeyIsNeverReplayed(w: World, db: Db, env: Env, q: Request)
    requires Joined(db.orders, db.execs) && (q.key.None? || q.key.value == "")
    ensures var reply := PlaceOrder(db, w.accounts, env, w.startingCash, q).1;
      reply.Placed? ==> reply.orderId == |db.orders|
  {
    hide AccountBalance, EstimateCost, SubmitPaper, FindFrom;
    if env.mark.Some? {
      GatesMean(q.ticket, RiskContext(true, env.strategy, AccountBalance(db, q.account, w.startingCash),
                                      EstimateCost(q.ticket, env.mark.value), 0, None));
      if WellFormed(q.ticket) {
        SubmitPaperRow(db, q, env.mark.value, AccountBalance(db, q.account, w.startingCash));
      }
    }
  }

  // ---- cancelling ----

  /** A cancellation succeeds exactly on a pending or submitted order; it changes that order's status alone, and a
      refusal says why and changes nothing. */
  lemma CancelMeans(db: Db, o: nat)
    ensures var (now, error) := CancelOrder(db, o);
      && (error.None? <==> o < |db.orders| && (db.orders[o].status == Pending || db.orders[o].status == Submitted))
      && (error == Some(OrderNotFound) <==> o >= |db.orders|)
      && (error.Some? && o < |db.orders| ==> error == Some(OrderNotCancellable))
      && (error.Some? ==> now == db)
      && (error.None? ==>
            && now.execs == db.execs && now.positions == db.positions && |now.orders| == |db.orders|
            && forall i :: 0 <= i < |db.orders| ==>
                 now.orders[i] == if i == o then db.orders[i].(status := Cancelled) else db.orders[i])
  {
  }

  /** The adapter cancels exactly an open order, and touches nothing else. */
  lemma AdapterCancels(b: P.Book, boid: nat)
    ensures var after := P.Cancel(b, boid);
      && after.cash == b.cash && after.positions == b.positions && after.fills == b.fills && after.idem == b.idem
      && after.orders.Keys == b.orders.Keys
      && forall k :: k in b.orders ==>
           after.orders[k] == if k == boid && b.orders[k].status == P.Open then b.orders[k].(status := P.CancelledOrder)
                              else b.orders[k]
  {
  }
}
