/** Placing and cancelling orders. The functions give the effect on the tables; a request that ends in an
    HTTP error rolls its transaction back, except inside a strategy, whose legs catch it. */
module Service {
  import opened Wrappers
  import opened Positions
  import opened Orders
  import opened Ledger
  import P = Paper

  datatype Account = Account(broker: string, active: bool)
  type Accounts = map<nat, Account>

  /** What every request of a run meets: the configured accounts and the starting cash of a paper one. */
  datatype World = World(accounts: Accounts, startingCash: real)

  /** A single active paper account that starts with the given cash. */
  function OneAccount(cash: real): World { World(map[0 := Account("paper", true)], cash) }

  datatype SubmitReply = Down | Declined | Ack(id: string)

  /** A live broker's adapter: unavailable credentials, or the balance and submission replies it will give. */
  datatype LiveAdapter = NoCredentials | Adapter(balance: Option<real>, submit: SubmitReply)

  /** What a request meets outside the tables: the model mark (absent when there are no bars), the state of the
      strategy it names, the configured brokers and the live adapter. */
  datatype Env = Env(mark: Option<real>, strategy: Option<StrategyState>, factories: set<string>, live: LiveAdapter)

  datatype Request = Request(account: nat, ticket: Ticket, key: Option<string>)

  /** Failed is an HTTP error; Crashed is a database constraint violation nothing catches. */
  datatype Reply = Placed(orderId: nat, status: Status) | Failed(code: Code) | Crashed

  function FindFrom(orders: seq<Order>, key: Option<string>, i: nat): Option<nat>
    requires i <= |orders|
    decreases |orders| - i
  {
    if i == |orders| then None
    else if orders[i].idemKey == key then Some(i)
    else FindFrom(orders, key, i + 1)
  }

  /** `find_order_by_idempotency`: an absent or empty key finds nothing. */
  function FindByKey(orders: seq<Order>, key: Option<string>): Option<nat> {
    if key.GetOr("") == "" then None else FindFrom(orders, key, 0)
  }

  predicate KeyTaken(orders: seq<Order>, key: Option<string>) {
    key.Some? && FindFrom(orders, key, 0).Some?
  }

  function NewRow(q: Request, status: Status, code: Option<Code>): Order {
    Order(q.account, q.ticket, status, None, q.key, code)
  }

  function SubmitKeyFor(q: Request, o: nat): P.SubmitKey {
    if q.key.GetOr("") != "" then P.ClientKey(q.key.value) else P.OrderKey(o)
  }

  function RejectOrder(db: Db, q: Request, code: Code): (Db, Reply) {
    if !ChecksHold(q.ticket) || KeyTaken(db.orders, q.key) then (db, Crashed)
    else (AddRejected(db, NewRow(q, Rejected, Some(code))), Failed(code))
  }

  /** The paper path: a fresh adapter holding the recomputed balance decides, and its verdict is written back. */
  function SubmitPaper(db: Db, q: Request, mark: real, balance: real): (Db, Reply)
    requires Priced(q.ticket)
  {
    var o := |db.orders|;
    var pending := NewRow(q, Pending, None);
    var book := P.Submit(P.NewBook(balance), q.ticket, SubmitKeyFor(q, o), mark);
    var submitted := pending.(status := Submitted, brokerOrderId := Some(PaperId(1)));
    var db2 := SetStatus(AddOrder(db, pending), o, submitted, None);
    match (if 1 in book.orders then book.orders[1].status else P.Open)
    case FilledAt(price) =>
      (SetStatus(RecordFill(db2, o, q.ticket.qty, price, PaperExec(o)), o, submitted.(status := Filled),
          Some(Submitted)),
       Placed(o, Filled))
    case CancelledOrder => (SetStatus(db2, o, submitted.(status := Cancelled), Some(Submitted)), Placed(o, Cancelled))
    case Open => (db2, Placed(o, Submitted))
  }

  function SubmitLive(db: Db, q: Request, reply: SubmitReply): (Db, Reply) {
    var o := |db.orders|;
    var pending := NewRow(q, Pending, None);
    var db1 := AddOrder(db, pending);
    match reply
    case Down => (db1, Failed(BrokerUnavailable))
    case Declined =>
      (SetStatus(db1, o, pending.(status := Rejected, rejectCode := Some(BrokerRejected)), Some(Pending)),
          Failed(BrokerRejected))
    case Ack(id) =>
      (SetStatus(db1, o, pending.(status := Submitted, brokerOrderId := Some(LiveId(id))), Some(Pending)),
          Placed(o, Submitted))
  }

  function Gate(env: Env, q: Request, balance: real): Option<Code> {
    var cost := if env.mark.Some? then EstimateCost(q.ticket, env.mark.value) else 0.0;
    RunGates(q.ticket, RiskContext(true, env.strategy, balance, cost, 0, None))
  }

  /** `place_order`, up to the response: the tables as this session leaves them, and the reply. */
  function PlaceOrder(db: Db, accounts: Accounts, env: Env, startingCash: real, q: Request): (Db, Reply)
    requires Joined(db.orders, db.execs)
  {
    var found := FindByKey(db.orders, q.key);
    if found.Some? then
      FindIndex(db.orders, q.key, 0);
      (db, Placed(found.value, db.orders[found.value].status))
    else if q.account !in accounts then (db, Failed(AccountNotFound))
    else if !accounts[q.account].active then (db, Failed(AccountNotActive))
    else
      var isLive := accounts[q.account].broker != "paper";
      if isLive && accounts[q.account].broker !in env.factories then (db, Failed(BrokerNotSupported))
      else if isLive && env.live.NoCredentials? then (db, Failed(CredentialsUnavailable))
      else if env.mark.None? && !isLive then RejectOrder(db, q, NoMarketData)
      else if isLive && env.live.balance.None? then (db, Failed(BrokerUnavailable))
      else
        var balance := if isLive then env.live.balance.value else AccountBalance(db, q.account, startingCash);
        var code := Gate(env, q, balance);
        if code.Some? then RejectOrder(db, q, code.value)
        else if KeyTaken(db.orders, q.key) then (db, Failed(DuplicateInFlight))
        else if isLive then SubmitLive(db, q, env.live.submit)
        else SubmitPaper(db, q, env.mark.value, balance)
  }

  /** The request around it: an error response rolls back. */
  function HandlePlace(db: Db, accounts: Accounts, env: Env, startingCash: real, q: Request): (Db, Reply)
    requires Joined(db.orders, db.execs)
  {
    var (now, reply) := PlaceOrder(db, accounts, env, startingCash, q);
    if reply.Placed? then (now, reply) else (db, reply)
  }

  /** `cancel_order`. The audit row's before-state is read after the update, so it records the new status. */
  function CancelOrder(db: Db, o: nat): (Db, Option<Code>) {
    if o >= |db.orders| then (db, Some(OrderNotFound))
    else if db.orders[o].status !in {Pending, Submitted} then (db, Some(OrderNotCancellable))
    else (SetStatus(db, o, db.orders[o].(status := Cancelled), Some(Cancelled)), None)
  }

  // ---- strategies ----

  datatype Leg = CashLeg | OrderLeg(isOption: bool, side: Option<Side>, qty: Option<int>, instr: Instrument)

  datatype StrategyRequest = StrategyRequest(account: nat, underlying: string, legs: seq<Leg>, key: string)

  datatype LegResult = Skipped | Done(orderId: nat, status: Status) | Refused(code: Code)

  datatype StrategyReply = Results(results: seq<LegResult>) | StrategyCrashed

  function Digits(n: nat): string {
    if n < 10 then ["0123456789"[n]] else Digits(n / 10) + ["0123456789"[n % 10]]
  }

  /** Each leg becomes a market day order of its own, keyed `{key}:{index}`. Only option legs carry contract terms. */
  function LegRequest(s: StrategyRequest, i: nat): Request
    requires i < |s.legs| && s.legs[i].OrderLeg?
  {
    var leg := s.legs[i];
    var instr := if leg.isOption then leg.instr.(symbol := s.underlying)
      else Instrument(s.underlying, None, None, None);
    Request(s.account, Ticket(instr, leg.side.GetOr(Buy), leg.qty.GetOr(0), Market, None, None, Day),
        Some(s.key + ":" + Digits(i)))
  }

  /** The first n legs: tables and results so far. Environments may differ from leg to leg. */
  function PlaceLegs(db: Db, accounts: Accounts, envs: nat -> Env, startingCash: real, s: StrategyRequest, n: nat)
      : (Db, StrategyReply)
    requires Joined(db.orders, db.execs) && n <= |s.legs|
    ensures var (now, reply) := PlaceLegs(db, accounts, envs, startingCash, s, n);
      Joined(now.orders, now.execs) && (reply.Results? ==> |reply.results| == n)
  {
    if n == 0 then (db, Results([]))
    else
      var (was, before) := PlaceLegs(db, accounts, envs, startingCash, s, n - 1);
      if before.StrategyCrashed? then (was, before)
      else if s.legs[n - 1].CashLeg? then (was, Results(before.results + [Skipped]))
      else
        PlaceOrderJoined(was, accounts, envs(n - 1), startingCash, LegRequest(s, n - 1));
        var (now, reply) := PlaceOrder(was, accounts, envs(n - 1), startingCash, LegRequest(s, n - 1));
        match reply
        case Placed(o, status) => (now, Results(before.results + [Done(o, status)]))
        case Failed(code) => (now, Results(before.results + [Refused(code)]))
        case Crashed => (now, StrategyCrashed)
  }

  /** The strategy request: rejected legs are kept, a crash rolls everything back. */
  function HandleStrategy(db: Db, accounts: Accounts, envs: nat -> Env, startingCash: real, s: StrategyRequest)
      : (Db, StrategyReply)
    requires Joined(db.orders, db.execs)
  {
    var (now, reply) := PlaceLegs(db, accounts, envs, startingCash, s, |s.legs|);
    if reply.StrategyCrashed? then (db, reply) else (now, reply)
  }

  predicate CountsPlaced(r: LegResult) { r.Done? && r.status != Rejected }

  predicate CountsRejected(r: LegResult) { r.Refused? || (r.Done? && r.status == Rejected) }

  // ---- lookups ----

  lemma {:induction false} FindIndex(orders: seq<Order>, key: Option<string>, i: nat)
    requires i <= |orders|
    ensures var f := FindFrom(orders, key, i);
      && (f.Some? ==> i <= f.value < |orders| && orders[f.value].idemKey == key)
      && (f.None? ==> forall j :: i <= j < |orders| ==> orders[j].idemKey != key)
    decreases |orders| - i
  {
    if i < |orders| && orders[i].idemKey != key { FindIndex(orders, key, i + 1); }
  }

  /** Rows are only ever appended, so the first match stays the first match. */
  lemma {:induction false} FindStable(orders: seq<Order>, more: seq<Order>, key: Option<string>, i: nat)
    requires i <= |orders| && |orders| <= |more|
    requires forall j :: 0 <= j < |orders| ==> more[j].idemKey == orders[j].idemKey
    ensures FindFrom(orders, key, i).Some? ==> FindFrom(more, key, i) == FindFrom(orders, key, i)
    ensures FindFrom(orders, key, i).None? && |orders| < |more| && more[|orders|].idemKey == key ==>
            FindFrom(more, key, i) == Some(|orders|)
    decreases |orders| - i
  {
    if i < |orders| && orders[i].idemKey != key { FindStable(orders, more, key, i + 1); }
  }

  lemma FreeKey(orders: seq<Order>, key: Option<string>)
    ensures !KeyTaken(orders, key) ==> KeyFree(orders, key)
  {
    FindIndex(orders, key, 0);
  }

  // ---- the adapter's verdict on a fresh book ----

  lemma FreshVerdict(t: Ticket, key: P.SubmitKey, mark: real, balance: real)
    requires Priced(t)
    ensures var book := P.Submit(P.NewBook(balance), t, key, mark);
      && 1 in book.orders && book.idem[key] == 1
      && book.orders[1].status ==
           match Marketable(t, mark)
           case Some(price) => P.FilledAt(price)
           case None => if t.tif.Ioc? || t.tif.Fok? then P.CancelledOrder else P.Open
  {
  }

  lemma GatesPass(t: Ticket, ctx: RiskContext)
    requires RunGates(t, ctx).None?
    ensures ChecksHold(t) && Priced(t)
  {
  }

  // ---- shape of what a placement changes ----

  /** A placement adds at most one order and at most one execution of it, and touches no older row. */
  ghost predicate Appends(db: Db, now: Db) {
    && |db.orders| <= |now.orders| <= |db.orders| + 1 && now.orders[..|db.orders|] == db.orders
    && |db.execs| <= |now.execs| <= |db.execs| + 1 && now.execs[..|db.execs|] == db.execs
    && |db.audit| <= |now.audit| && now.audit[..|db.audit|] == db.audit
    && (|now.execs| > |db.execs| ==> |now.orders| > |db.orders| && now.execs[|db.execs|].orderId == |db.orders|)
    && now.reconciledAt == db.reconciledAt
  }

  lemma SubmitPaperAppends(db: Db, q: Request, mark: real, balance: real)
    requires Priced(q.ticket)
    ensures var (now, reply) := SubmitPaper(db, q, mark, balance); Appends(db, now) && reply.Placed?
  {
    hide NetPosition, P.Submit;
  }

  /** The paper path adds one row, under the request's key, and replies with that row's status. */
  lemma SubmitPaperRow(db: Db, q: Request, mark: real, balance: real)
    requires Priced(q.ticket)
    ensures var (now, reply) := SubmitPaper(db, q, mark, balance); var n := |db.orders|;
      && |now.orders| == n + 1 && SameIdentity(NewRow(q, Pending, None), now.orders[n])
      && reply == Placed(n, now.orders[n].status)
  {
    hide NetPosition, P.Submit;
  }

  lemma PlaceOrderAppends(db: Db, accounts: Accounts, env: Env, startingCash: real, q: Request)
    requires Joined(db.orders, db.execs)
    ensures Appends(db, PlaceOrder(db, accounts, env, startingCash, q).0)
  {
    hide SubmitPaper, AccountBalance, RunGates, EstimateCost, FindFrom;
    var (now, reply) := PlaceOrder(db, accounts, env, startingCash, q);
    if q.account in accounts && env.mark.Some? {
      var balance := AccountBalance(db, q.account, startingCash);
      var code := Gate(env, q, balance);
      if code.None? {
        GatesPass(q.ticket, RiskContext(true, env.strategy, balance, EstimateCost(q.ticket, env.mark.value), 0, None));
        SubmitPaperAppends(db, q, env.mark.value, balance);
      }
    }
  }

  lemma PlaceOrderJoined(db: Db, accounts: Accounts, env: Env, startingCash: real, q: Request)
    requires Joined(db.orders, db.execs)
    ensures var now := PlaceOrder(db, accounts, env, startingCash, q).0; Joined(now.orders, now.execs)
  {
    hide PlaceOrder;
    PlaceOrderAppends(db, accounts, env, startingCash, q);
    var now := PlaceOrder(db, accounts, env, startingCash, q).0;
    forall e | e in now.execs ensures e.orderId < |now.orders| {
      var i :| 0 <= i < |now.execs| && now.execs[i] == e;
      if i < |db.execs| { assert e == now.execs[..|db.execs|][i] == db.execs[i]; }
    }
  }
}
