/** The tables as mutable state, and the repository and service routines that update them row by row. Each
    routine is proved to have the effect its function in Service or Reconcile gives it. */
module Oms {
  import opened Wrappers
  import opened Positions
  import opened Orders
  import opened Ledger
  import opened Service
  import opened Reconcile

  class OmsTables {
    var orders: seq<Order>
    var execs: seq<Execution>
    var positions: map<PosKey, Pos>
    var audit: seq<AuditRow>
    var reconciledAt: map<nat, int>

    ghost function View(): Db
      reads this
    {
      Db(orders, execs, positions, audit, reconciledAt)
    }

    constructor ()
      ensures View() == EMPTY
    {
      orders, execs, positions, audit, reconciledAt := [], [], map[], [], map[];
    }

    // ---- repository: queries ----

    method SumExecutedQty(o: nat) returns (total: int)
      ensures total == SumExecuted(execs, o)
    {
      total := 0;
      for i := 0 to |execs|
        invariant total == SumExecuted(execs[..i], o)
      {
        assert execs[..i + 1][..i] == execs[..i];
        if execs[i].orderId == o { total := total + execs[i].qty; }
      }
      assert execs[..|execs|] == execs;
    }

    method Balance(account: nat, startingCash: real) returns (balance: real)
      requires Joined(orders, execs)
      ensures balance == AccountBalance(View(), account, startingCash)
    {
      hide ExecutionCash;
      balance := startingCash;
      for i := 0 to |execs|
        invariant balance == startingCash + CashFlow(orders, execs[..i], account)
      {
        assert execs[..i + 1][..i] == execs[..i];
        assert execs[i] in execs;
        if execs[i].account == account {
          balance := balance + ExecutionCash(execs[i], orders[execs[i].orderId].ticket);
        }
      }
      assert execs[..|execs|] == execs;
    }

    method FindOrderByIdempotency(key: Option<string>) returns (found: Option<nat>)
      ensures found == FindByKey(orders, key)
    {
      if key.GetOr("") == "" { return None; }
      var i := 0;
      while i < |orders| && orders[i].idemKey != key
        invariant i <= |orders| && FindFrom(orders, key, 0) == FindFrom(orders, key, i)
      {
        i := i + 1;
      }
      found := if i < |orders| then Some(i) else None;
    }

    method ListOpenOrders(account: nat) returns (ids: seq<nat>)
      ensures ids == OpenOrders(orders, account, |orders|)
    {
      ids := [];
      for i := 0 to |orders|
        invariant ids == OpenOrders(orders, account, i)
      {
        if IsOpen(orders[i], account) { ids := ids + [i]; }
      }
    }

    // ---- repository: updates ----

    method InsertOrder(row: Order) returns (o: nat)
      modifies this`orders
      ensures o == |old(orders)| && View() == AddOrder(old(View()), row)
    {
      o := |orders|;
      orders := orders + [row];
    }

    method UpdateOrder(o: nat, row: Order)
      requires o < |orders|
      modifies this`orders
      ensures orders == old(orders)[o := row]
    {
      orders := orders[o := row];
    }

    method WriteAudit(row: AuditRow)
      modifies this`audit
      ensures audit == old(audit) + [row]
    {
      audit := audit + [row];
    }

    method UpsertPosition(k: PosKey, p: Pos)
      modifies this`positions
      ensures positions == Upsert(old(positions), k, p)
    {
      if p.qty == 0 {
        if k in positions { positions := positions - {k}; }
      } else {
        positions := positions[k := p];
      }
    }

    /** insert_execution, get_position, net_position, upsert_position. */
    method InsertFill(o: nat, qty: int, price: real, key: ExecKey)
      requires o < |orders|
      modifies this`execs, this`positions
      ensures View() == RecordFill(old(View()), o, qty, price, key)
    {
      var row := orders[o];
      execs := execs + [Execution(o, row.account, qty, price, 0.0, key)];
      var signed := if row.ticket.side.Buy? then qty else -qty;
      var k := PosKey(row.account, row.ticket.instr);
      var current := if k in positions then Some(positions[k]) else None;
      UpsertPosition(k, NetPosition(current.GetOr(FLAT), signed, price));
    }

    method ChangeStatus(o: nat, row: Order, before: Option<Status>)
      requires o < |orders|
      modifies this`orders, this`audit
      ensures View() == SetStatus(old(View()), o, row, before)
    {
      UpdateOrder(o, row);
      WriteAudit(AuditRow(o, before, row.status));
    }

    // ---- service ----

    method Reject(q: Request, code: Code) returns (reply: Reply)
      modifies this`orders, this`audit
      ensures (View(), reply) == RejectOrder(old(View()), q, code)
    {
      if !ChecksHold(q.ticket) || KeyTaken(orders, q.key) { return Crashed; }
      var o := InsertOrder(NewRow(q, Rejected, Some(code)));
      WriteAudit(AuditRow(o, None, Rejected));
      reply := Failed(code);
    }

    method SubmitToPaper(q: Request, mark: real, balance: real) returns (reply: Reply)
      requires Priced(q.ticket)
      modifies this
      ensures (View(), reply) == SubmitPaper(old(View()), q, mark, balance)
    {
      hide NetPosition, P.Submit;
      var pending := NewRow(q, Pending, None);
      var o := InsertOrder(pending);
      var adapter := new P.PaperBroker(balance);
      var boid := adapter.SubmitOrder(q.ticket, SubmitKeyFor(q, o), mark);
      FreshVerdict(q.ticket, SubmitKeyFor(q, o), mark, balance);
      assert adapter.View() == P.Submit(P.NewBook(balance), q.ticket, SubmitKeyFor(q, o), mark);
      var verdict := adapter.orders[1].status;
      var submitted := pending.(status := Submitted, brokerOrderId := Some(PaperId(boid)));
      ChangeStatus(o, submitted, None);
      match verdict
      case FilledAt(price) =>
        InsertFill(o, q.ticket.qty, price, PaperExec(o));
        ChangeStatus(o, submitted.(status := Filled), Some(Submitted));
        reply := Placed(o, Filled);
      case CancelledOrder =>
        ChangeStatus(o, submitted.(status := Cancelled), Some(Submitted));
        reply := Placed(o, Cancelled);
      case Open =>
        reply := Placed(o, Submitted);
    }

    method SubmitToLive(q: Request, verdict: SubmitReply) returns (reply: Reply)
      modifies this`orders, this`audit
      ensures (View(), reply) == SubmitLive(old(View()), q, verdict)
    {
      var pending := NewRow(q, Pending, None);
      var o := InsertOrder(pending);
      match verdict
      case Down =>
        reply := Failed(BrokerUnavailable);
      case Declined =>
        ChangeStatus(o, pending.(status := Rejected, rejectCode := Some(BrokerRejected)), Some(Pending));
        reply := Failed(BrokerRejected);
      case Ack(id) =>
        ChangeStatus(o, pending.(status := Submitted, brokerOrderId := Some(LiveId(id))), Some(Pending));
        reply := Placed(o, Submitted);
    }

    method Place(accounts: Accounts, env: Env, startingCash: real, q: Request) returns (reply: Reply)
      requires Joined(orders, execs)
      modifies this
      ensures (View(), reply) == PlaceOrder(old(View()), accounts, env, startingCash, q)
    {
      hide SubmitPaper, SubmitLive, CashFlow, RejectOrder, EstimateCost, FindFrom;
      var existing := FindOrderByIdempotency(q.key);
      if existing.Some? {
        FindIndex(orders, q.key, 0);
        return Placed(existing.value, orders[existing.value].status);
      }
      if q.account !in accounts { return Failed(AccountNotFound); }
      if !accounts[q.account].active { return Failed(AccountNotActive); }
      var isLive := accounts[q.account].broker != "paper";
      if isLive && accounts[q.account].broker !in env.factories { return Failed(BrokerNotSupported); }
      if isLive && env.live.NoCredentials? { return Failed(CredentialsUnavailable); }
      if env.mark.None? && !isLive {
        reply := Reject(q, NoMarketData);
        return;
      }
      var cost := if env.mark.Some? then EstimateCost(q.ticket, env.mark.value) else 0.0;
      var balance;
      if isLive {
        if env.live.balance.None? { return Failed(BrokerUnavailable); }
        balance := env.live.balance.value;
      } else {
        balance := Balance(q.account, startingCash);
      }
      var ctx := RiskContext(true, env.strategy, balance, cost, 0, None);
      var code := RunGates(q.ticket, ctx);
      if code.Some? {
        reply := Reject(q, code.value);
        return;
      }
      if KeyTaken(orders, q.key) { return Failed(DuplicateInFlight); }
      GatesPass(q.ticket, ctx);
      if isLive {
        reply := SubmitToLive(q, env.live.submit);
      } else {
        reply := SubmitToPaper(q, env.mark.value, balance);
      }
    }

    /** The request around place_order: an error response restores the tables the transaction started from. */
    method PlaceRequest(accounts: Accounts, env: Env, startingCash: real, q: Request) returns (reply: Reply)
      requires Joined(orders, execs)
      modifies this
      ensures (View(), reply) == HandlePlace(old(View()), accounts, env, startingCash, q)
    {
      hide PlaceOrder;
      var was := (orders, execs, positions, audit, reconciledAt);
      reply := Place(accounts, env, startingCash, q);
      if !reply.Placed? {
        orders, execs, positions, audit, reconciledAt := was.0, was.1, was.2, was.3, was.4;
      }
    }

    method PlaceStrategyRequest(accounts: Accounts, envs: nat -> Env, startingCash: real, s: StrategyRequest)
          returns (reply: StrategyReply)
      requires Joined(orders, execs)
      modifies this
      ensures (View(), reply) == HandleStrategy(old(View()), accounts, envs, startingCash, s)
    {
      hide PlaceOrder, LegRequest;
      var was := (orders, execs, positions, audit, reconciledAt);
      ghost var start := View();
      var results: seq<LegResult> := [];
      for i := 0 to |s.legs|
        invariant (View(), Results(results)) == PlaceLegs(start, accounts, envs, startingCash, s, i)
      {
        if s.legs[i].CashLeg? {
          results := results + [Skipped];
        } else {
          var leg := Place(accounts, envs(i), startingCash, LegRequest(s, i));
          match leg
          case Placed(o, status) => results := results + [Done(o, status)];
          case Failed(code) => results := results + [Refused(code)];
          case Crashed =>
            CrashPersists(start, accounts, envs, startingCash, s, i + 1, |s.legs|);
            orders, execs, positions, audit, reconciledAt := was.0, was.1, was.2, was.3, was.4;
            return StrategyCrashed;
        }
      }
      reply := Results(results);
    }

    method CancelRequest(o: nat) returns (error: Option<Code>)
      modifies this`orders, this`audit
      ensures (View(), error) == CancelOrder(old(View()), o)
    {
      if o >= |orders| { return Some(OrderNotFound); }
      if orders[o].status !in {Pending, Submitted} { return Some(OrderNotCancellable); }
      UpdateOrder(o, orders[o].(status := Cancelled));
      WriteAudit(AuditRow(o, Some(orders[o].status), Cancelled));
      error := None;
    }

    // ---- reconciliation ----

    method ReconcileAccount(account: nat, rows: seq<BrokerRow>, now: int)
      modifies this
      ensures View() == Pass(old(View()), account, rows, now)
    {
      hide NetPosition, SumExecuted, ValidTransitions;
      ghost var start := View();
      var ids := ListOpenOrders(account);
      for i := 0 to |ids|
        invariant |orders| == |start.orders|
        invariant forall o :: o in ids ==> o < |orders|
        invariant View() == ReconcileAll(start, ids, rows, i)
      {
        var o := ids[i];
        assert o in ids;
        var row := FindRow(rows, orders[o].brokerOrderId);
        if row.Some? {
          ReconcileOne(o, row.value);
        }
      }
      reconciledAt := reconciledAt[account := now];
    }

    method ReconcileOne(o: nat, row: BrokerRow)
      requires o < |orders|
      modifies this`orders, this`execs, this`positions, this`audit
      ensures View() == AdvanceStatus(FillDelta(old(View()), o, row), o, row)
    {
      hide NetPosition;
      var recorded := SumExecutedQty(o);
      var delta := row.filledQty - recorded;
      if delta > 0 && row.avgPrice.Some? {
        InsertFill(o, delta, row.avgPrice.value, Recon(o, row.filledQty));
      }
      if row.status != orders[o].status {
        var next := Transition(orders[o].status, row.status);
        if next.Ok? {
          var before := orders[o].status;
          ChangeStatus(o, orders[o].(status := row.status), Some(before));
        }
      }
    }
  }

  lemma {:induction false} CrashPersists(db: Db, accounts: Accounts, envs: nat -> Env, startingCash: real,
        s: StrategyRequest, i: nat, n: nat)
    requires Joined(db.orders, db.execs) && i <= n <= |s.legs|
    requires PlaceLegs(db, accounts, envs, startingCash, s, i).1.StrategyCrashed?
    ensures PlaceLegs(db, accounts, envs, startingCash, s, n).1.StrategyCrashed?
    decreases n
  {
    hide PlaceOrder, LegRequest;
    if i < n { CrashPersists(db, accounts, envs, startingCash, s, i, n - 1); }
  }
}
