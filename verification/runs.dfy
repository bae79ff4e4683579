/** Every interleaving of placements, strategies, cancellations and reconciliation passes, and what all of
    them keep. */
module Runs {
  import opened Wrappers
  import opened Positions
  import opened Orders
  import opened Ledger
  import opened Service
  import opened Reconcile

  datatype Event =
    | Place(env: Env, request: Request)
    | PlaceStrategy(envs: nat -> Env, strategy: StrategyRequest)
    | Cancel(orderId: nat)
    | Poll(account: nat, rows: seq<BrokerRow>, now: int)

  function Step(w: World, db: Db, e: Event): Db
    requires Joined(db.orders, db.execs)
  {
    match e
    case Place(env, q) => HandlePlace(db, w.accounts, env, w.startingCash, q).0
    case PlaceStrategy(envs, s) => HandleStrategy(db, w.accounts, envs, w.startingCash, s).0
    case Cancel(o) => CancelOrder(db, o).0
    case Poll(account, rows, now) => Pass(db, account, rows, now)
  }

  ghost function Run(w: World, db: Db, es: seq<Event>): (now: Db)
    requires Inv(db)
    ensures Inv(now)
  {
    if es == [] then db
    else
      var was := Run(w, db, es[..|es| - 1]);
      StepKeeps(w, was, es[|es| - 1]);
      Step(w, was, es[|es| - 1])
  }

  // ---- the invariant ----

  lemma SubmitPaperKeeps(db: Db, q: Request, mark: real, balance: real)
    requires Inv(db) && ChecksHold(q.ticket) && Priced(q.ticket) && KeyFree(db.orders, q.key)
    ensures Inv(SubmitPaper(db, q, mark, balance).0)
  {
    hide Inv, NetPosition, Marketable, ChecksHold, KeyFree, P.Submit, Trail, SumExecuted;
    var o, pending := |db.orders|, NewRow(q, Pending, None);
    var submitted := pending.(status := Submitted, brokerOrderId := Some(PaperId(1)));
    var db1 := AddOrder(db, pending);
    AddOrderKeeps(db, pending);
    SetStatusKeeps(db1, o, submitted, None);
    var db2 := SetStatus(db1, o, submitted, None);
    FreshVerdict(q.ticket, SubmitKeyFor(q, o), mark, balance);
    match P.Submit(P.NewBook(balance), q.ticket, SubmitKeyFor(q, o), mark).orders[1].status
    case FilledAt(price) =>
      NoExecutions(db, o);
      assert q.ticket.qty > 0 by { QtyPositive(q.ticket); }
      RecordFillKeeps(db2, o, q.ticket.qty, price, PaperExec(o));
      SetStatusKeeps(RecordFill(db2, o, q.ticket.qty, price, PaperExec(o)), o, submitted.(status := Filled),
          Some(Submitted));
    case CancelledOrder =>
      SetStatusKeeps(db2, o, submitted.(status := Cancelled), Some(Submitted));
    case Open =>
  }

  lemma QtyPositive(t: Ticket)
    requires ChecksHold(t)
    ensures t.qty > 0
  {
  }

  lemma {:induction false} NoneExecuted(execs: seq<Execution>, o: nat)
    requires forall e :: e in execs ==> e.orderId < o
    ensures SumExecuted(execs, o) == 0
  {
    if execs != [] {
      assert execs[|execs| - 1] in execs;
      NoneExecuted(execs[..|execs| - 1], o);
    }
  }

  lemma NoExecutions(db: Db, o: nat)
    requires Inv(db) && o >= |db.orders|
    ensures SumExecuted(db.execs, o) == 0
  {
    NoneExecuted(db.execs, o);
  }

  lemma SubmitLiveKeeps(db: Db, q: Request, reply: SubmitReply)
    requires Inv(db) && ChecksHold(q.ticket) && KeyFree(db.orders, q.key)
    ensures Inv(SubmitLive(db, q, reply).0)
  {
    hide Inv, ChecksHold, KeyFree, Trail;
    var o, pending := |db.orders|, NewRow(q, Pending, None);
    AddOrderKeeps(db, pending);
    var db1 := AddOrder(db, pending);
    match reply
    case Down =>
    case Declined =>
      SetStatusKeeps(db1, o, pending.(status := Rejected, rejectCode := Some(BrokerRejected)), Some(Pending));
    case Ack(id) =>
      SetStatusKeeps(db1, o, pending.(status := Submitted, brokerOrderId := Some(LiveId(id))), Some(Pending));
  }

  lemma RejectOrderKeeps(db: Db, q: Request, code: Code)
    requires Inv(db)
    ensures Inv(RejectOrder(db, q, code).0)
  {
    hide Inv, ChecksHold;
    FreeKey(db.orders, q.key);
    if ChecksHold(q.ticket) && !KeyTaken(db.orders, q.key) {
      AddRejectedKeeps(db, NewRow(q, Rejected, Some(code)));
    }
  }

  lemma PlaceOrderKeeps(db: Db, accounts: Accounts, env: Env, startingCash: real, q: Request)
    requires Inv(db)
    ensures Inv(PlaceOrder(db, accounts, env, startingCash, q).0)
  {
    hide SubmitPaper, SubmitLive, RejectOrder, RunGates, EstimateCost, FindFrom, CashFlow, ExecutionsOk, PositionsOk,
        TrailOk, RowsOk;
    assert Joined(db.orders, db.execs) by { JoinedOf(db); }
    forall code { RejectOrderKeeps(db, q, code); }
    if FindByKey(db.orders, q.key).None? && q.account in accounts {
      var isLive := accounts[q.account].broker != "paper";
      var balance := if isLive && env.live.Adapter? && env.live.balance.Some? then env.live.balance.value
                     else AccountBalance(db, q.account, startingCash);
      if Gate(env, q, balance).None? && !KeyTaken(db.orders, q.key) {
        var cost := if env.mark.Some? then EstimateCost(q.ticket, env.mark.value) else 0.0;
        GatesPass(q.ticket, RiskContext(true, env.strategy, balance, cost, 0, None));
        FreeKey(db.orders, q.key);
        if env.live.Adapter? { SubmitLiveKeeps(db, q, env.live.submit); }
        if env.mark.Some? { SubmitPaperKeeps(db, q, env.mark.value, balance); }
      }
    }
  }

  lemma JoinedOf(db: Db)
    requires Inv(db)
    ensures Joined(db.orders, db.execs)
  {
  }

  lemma {:induction false} PlaceLegsKeeps(db: Db, accounts: Accounts, envs: nat -> Env, startingCash: real,
        s: StrategyRequest, n: nat)
    requires Inv(db) && n <= |s.legs|
    ensures Inv(PlaceLegs(db, accounts, envs, startingCash, s, n).0)
  {
    hide Inv, PlaceOrder, Digits;
    JoinedOf(db);
    if n > 0 {
      PlaceLegsKeeps(db, accounts, envs, startingCash, s, n - 1);
      var was := PlaceLegs(db, accounts, envs, startingCash, s, n - 1).0;
      if s.legs[n - 1].OrderLeg? {
        PlaceOrderKeeps(was, accounts, envs(n - 1), startingCash, LegRequest(s, n - 1));
      }
    }
  }

  lemma StepKeeps(w: World, db: Db, e: Event)
    requires Inv(db)
    ensures Joined(db.orders, db.execs) && Inv(Step(w, db, e))
  {
    hide Inv, PlaceOrder, PlaceLegs, Pass;
    JoinedOf(db);
    match e
    case Place(env, q) => PlaceOrderKeeps(db, w.accounts, env, w.startingCash, q);
    case PlaceStrategy(envs, s) => PlaceLegsKeeps(db, w.accounts, envs, w.startingCash, s, |s.legs|);
    case Cancel(o) =>
      if o < |db.orders| && db.orders[o].status in {Pending, Submitted} {
        SetStatusKeeps(db, o, db.orders[o].(status := Cancelled), Some(Cancelled));
      }
    case Poll(account, rows, now) => PassKeeps(db, account, rows, now);
  }

  lemma {:induction false} FirstOfTrail(audit: seq<AuditRow>, o: nat)
    ensures match FirstAudit(audit, o)
            case Some(row) => Trail(audit, o) != [] && Trail(audit, o)[0] == row.after
            case None => Trail(audit, o) == []
  {
    if audit != [] { FirstOfTrail(audit[..|audit| - 1], o); }
  }

  /** A status history runs legally from pending or rejected to the order's present status. */
  ghost predicate LegalLife(db: Db, o: nat)
    requires o < |db.orders|
  {
    var h := StatusHistory(db.audit, o);
    h != [] && h[0] in {Pending, Rejected} && IsPath(h) && h[|h| - 1] == db.orders[o].status
  }

  lemma LifeOf(db: Db, o: nat)
    requires o < |db.orders| && OrderTrailOk(db, o)
    ensures LegalLife(db, o)
  {
    hide ValidTransitions;
    FirstOfTrail(db.audit, o);
    var h, t := History(db.audit, o), Trail(db.audit, o);
    assert forall i :: 0 <= i < |t| ==> t[i] == h[i + 1];
  }

  /** Every reachable table state: each order's life is a legal path to its status, every position is the fold of
      its executions, and neither execution keys nor idempotency keys repeat. */
  lemma ReachableInv(w: World, es: seq<Event>)
    ensures Inv(EMPTY)
    ensures var db := Run(w, EMPTY, es);
      && Joined(db.orders, db.execs)
      && (forall o :: 0 <= o < |db.orders| ==> LegalLife(db, o))
      && (forall k :: PositionAt(db.positions, k) == FoldAt(db.orders, db.execs, k))
      && (forall i, j :: 0 <= i < j < |db.execs| ==> db.execs[i].key != db.execs[j].key)
      && (forall i, j :: 0 <= i < j < |db.orders| && db.orders[i].idemKey.Some? ==>
         db.orders[i].idemKey != db.orders[j].idemKey)
  {
    hide Run, NetPosition, IsPath, LegalLife, FoldAt;
    EmptyInv();
    var db := Run(w, EMPTY, es);
    forall o | 0 <= o < |db.orders| ensures LegalLife(db, o) {
      assert OrderTrailOk(db, o);
      LifeOf(db, o);
    }
    forall i, j | 0 <= i < j < |db.execs| ensures db.execs[i].key != db.execs[j].key {
      ExecutionKeysDistinct(db, i, j);
    }
  }

  // ---- what one step leaves alone ----

  /** Older rows keep their identity, logs only grow, and executions of older orders come from polls alone. */
  ghost predicate Extends(db: Db, now: Db) {
    && |db.orders| <= |now.orders|
    && (forall o :: 0 <= o < |db.orders| ==> SameIdentity(db.orders[o], now.orders[o]))
    && db.execs <= now.execs && db.audit <= now.audit
  }

  /** Nothing about order o changes. */
  ghost predicate Untouched(db: Db, now: Db, o: nat)
    requires o < |db.orders|
  {
    o < |now.orders| && now.orders[o] == db.orders[o] && SumExecuted(now.execs, o) == SumExecuted(db.execs, o)
  }

  lemma AppendsUntouched(db: Db, now: Db, o: nat)
    requires Appends(db, now) && o < |db.orders|
    ensures Untouched(db, now, o)
  {
    assert now.orders[o] == now.orders[..|db.orders|][o];
    if |now.execs| > |db.execs| { assert now.execs == db.execs + [now.execs[|db.execs|]]; }
    else { assert now.execs == db.execs; }
  }

  lemma AppendsExtends(db: Db, now: Db)
    requires Appends(db, now)
    ensures Extends(db, now)
  {
    hide SumExecuted;
    forall o | 0 <= o < |db.orders| ensures SameIdentity(db.orders[o], now.orders[o]) { AppendsUntouched(db, now, o); }
  }

  lemma {:induction false} PlaceLegsUntouched(db: Db, accounts: Accounts, envs: nat -> Env, startingCash: real,
        s: StrategyRequest, n: nat, o: nat)
    requires Joined(db.orders, db.execs) && n <= |s.legs| && o < |db.orders|
    ensures var now := PlaceLegs(db, accounts, envs, startingCash, s, n).0; Untouched(db, now, o)
  {
    hide PlaceOrder, SumExecuted, Digits;
    if n > 0 {
      PlaceLegsUntouched(db, accounts, envs, startingCash, s, n - 1, o);
      var was := PlaceLegs(db, accounts, envs, startingCash, s, n - 1).0;
      if s.legs[n - 1].OrderLeg? {
        PlaceOrderAppends(was, accounts, envs(n - 1), startingCash, LegRequest(s, n - 1));
        var now := PlaceOrder(was, accounts, envs(n - 1), startingCash, LegRequest(s, n - 1)).0;
        AppendsUntouched(was, now, o);
      }
    }
  }

  /** Placements never touch an existing order. */
  lemma PlacementUntouched(w: World, db: Db, e: Event, o: nat)
    requires Joined(db.orders, db.execs) && o < |db.orders| && (e.Place? || e.PlaceStrategy?)
    ensures Untouched(db, Step(w, db, e), o)
  {
    hide PlaceOrder, PlaceLegs, SumExecuted;
    match e
    case Place(env, q) =>
      PlaceOrderAppends(db, w.accounts, env, w.startingCash, q);
      AppendsUntouched(db, PlaceOrder(db, w.accounts, env, w.startingCash, q).0, o);
    case PlaceStrategy(envs, s) => PlaceLegsUntouched(db, w.accounts, envs, w.startingCash, s, |s.legs|, o);
  }

  lemma TerminalStep(w: World, db: Db, e: Event, o: nat)
    requires Joined(db.orders, db.execs) && o < |db.orders| && Terminal(db.orders[o].status)
    ensures Untouched(db, Step(w, db, e), o)
  {
    hide HandlePlace, HandleStrategy, Pass, SumExecuted;
    match e
    case Place(_, _) => PlacementUntouched(w, db, e, o);
    case PlaceStrategy(_, _) => PlacementUntouched(w, db, e, o);
    case Cancel(_) =>
    case Poll(account, rows, now) => PassEffect(db, account, rows, now, o);
  }

  /** Terminal statuses absorb: whatever happens later, a filled, cancelled or rejected order's row and its
      executed quantity stay exactly as they are. */
  lemma {:induction false} TerminalAbsorbs(w: World, db: Db, es: seq<Event>, o: nat)
    requires Inv(db) && o < |db.orders| && Terminal(db.orders[o].status)
    ensures Untouched(db, Run(w, db, es), o)
  {
    hide Inv, Step, SumExecuted, Terminal;
    if es != [] {
      TerminalAbsorbs(w, db, es[..|es| - 1], o);
      var was := Run(w, db, es[..|es| - 1]);
      JoinedOf(was);
      TerminalStep(w, was, es[|es| - 1], o);
    }
  }

  // ---- the logs only grow ----

  lemma {:induction false} ReconcileAllExtends(db: Db, ids: seq<nat>, rows: seq<BrokerRow>, n: nat)
    requires n <= |ids| && forall o :: o in ids ==> o < |db.orders|
    ensures Extends(db, ReconcileAll(db, ids, rows, n))
  {
    hide NetPosition, SumExecuted, ValidTransitions, FindRow;
    if n > 0 {
      assert ids[n - 1] in ids;
      ReconcileAllExtends(db, ids, rows, n - 1);
    }
  }

  lemma StepExtends(w: World, db: Db, e: Event)
    requires Joined(db.orders, db.execs)
    ensures Extends(db, Step(w, db, e))
  {
    hide PlaceOrder, PlaceLegs, ReconcileAll, SumExecuted;
    match e
    case Place(env, q) =>
      PlaceOrderAppends(db, w.accounts, env, w.startingCash, q);
      AppendsExtends(db, PlaceOrder(db, w.accounts, env, w.startingCash, q).0);
    case PlaceStrategy(envs, s) =>
      PlaceLegsExtends(db, w.accounts, envs, w.startingCash, s, |s.legs|);
    case Cancel(_) =>
    case Poll(account, rows, now) =>
      var ids := OpenOrders(db.orders, account, |db.orders|);
      ReconcileAllExtends(db, ids, rows, |ids|);
  }

  lemma {:induction false} PlaceLegsExtends(db: Db, accounts: Accounts, envs: nat -> Env, startingCash: real,
        s: StrategyRequest, n: nat)
    requires Joined(db.orders, db.execs) && n <= |s.legs|
    ensures Extends(db, PlaceLegs(db, accounts, envs, startingCash, s, n).0)
  {
    hide PlaceOrder, SumExecuted, Digits;
    if n > 0 {
      PlaceLegsExtends(db, accounts, envs, startingCash, s, n - 1);
      var was := PlaceLegs(db, accounts, envs, startingCash, s, n - 1).0;
      if s.legs[n - 1].OrderLeg? {
        PlaceOrderAppends(was, accounts, envs(n - 1), startingCash, LegRequest(s, n - 1));
        AppendsExtends(was, PlaceOrder(was, accounts, envs(n - 1), startingCash, LegRequest(s, n - 1)).0);
      }
    }
  }

  /** Over any run, executions and audit rows are only ever appended, and no order changes its ticket, account or
      key. */
  lemma {:induction false} LogsOnlyGrow(w: World, db: Db, es: seq<Event>)
    requires Inv(db)
    ensures Extends(db, Run(w, db, es))
  {
    hide Inv, Step;
    if es != [] {
      LogsOnlyGrow(w, db, es[..|es| - 1]);
      var was := Run(w, db, es[..|es| - 1]);
      JoinedOf(was);
      StepExtends(w, was, es[|es| - 1]);
    }
  }

  // ---- executed quantity over runs ----

  /** Highest priced filled quantity the broker has shown for order o while it was open, starting from what
      was already executed. */
  ghost function HighestSeen(w: World, db: Db, es: seq<Event>, o: nat): int
    requires Inv(db) && o < |db.orders|
  {
    if es == [] then SumExecuted(db.execs, o)
    else
      var before, was, e := HighestSeen(w, db, es[..|es| - 1], o), Run(w, db, es[..|es| - 1]), es[|es| - 1];
      if e.Poll? && o < |was.orders| && IsOpen(was.orders[o], e.account) then
        match FindRow(e.rows, was.orders[o].brokerOrderId)
        case Some(row) => if row.avgPrice.Some? && row.filledQty > before then row.filledQty else before
        case None => before
      else before
  }

  lemma ExecutedStep(w: World, db: Db, e: Event, o: nat)
    requires Joined(db.orders, db.execs) && o < |db.orders|
    ensures |db.orders| <= |Step(w, db, e).orders|
    ensures SumExecuted(Step(w, db, e).execs, o) ==
      if e.Poll? && IsOpen(db.orders[o], e.account) then
        match FindRow(e.rows, db.orders[o].brokerOrderId)
        case Some(row) => if row.avgPrice.Some? && row.filledQty > SumExecuted(db.execs, o) then row.filledQty
          else SumExecuted(db.execs, o)
        case None => SumExecuted(db.execs, o)
      else SumExecuted(db.execs, o)
  {
    hide HandlePlace, HandleStrategy, Pass, SumExecuted;
    match e
    case Place(env, q) =>
      PlacementUntouched(w, db, e, o);
      assert HandlePlace(db, w.accounts, env, w.startingCash, q).0 == Step(w, db, e);
      PlacementGrows(w, db, e);
    case PlaceStrategy(_, _) =>
      PlacementUntouched(w, db, e, o);
      PlacementGrows(w, db, e);
    case Cancel(_) =>
    case Poll(account, rows, now) => PassEffect(db, account, rows, now, o);
  }

  lemma PlacementGrows(w: World, db: Db, e: Event)
    requires Joined(db.orders, db.execs) && (e.Place? || e.PlaceStrategy?)
    ensures |db.orders| <= |Step(w, db, e).orders|
  {
    hide PlaceOrder, PlaceLegs, SumExecuted;
    if |db.orders| > 0 { PlacementUntouched(w, db, e, |db.orders| - 1); }
  }

  /** In every run, an order's executed sum is exactly the highest priced quantity seen while it was open. */
  lemma {:induction false} ExecutedIsHighestSeen(w: World, db: Db, es: seq<Event>, o: nat)
    requires Inv(db) && o < |db.orders|
    ensures o < |Run(w, db, es).orders|
    ensures SumExecuted(Run(w, db, es).execs, o) == HighestSeen(w, db, es, o)
  {
    hide Inv, Step, SumExecuted, IsOpen;
    if es != [] {
      ExecutedIsHighestSeen(w, db, es[..|es| - 1], o);
      var was := Run(w, db, es[..|es| - 1]);
      JoinedOf(was);
      ExecutedStep(w, was, es[|es| - 1], o);
    }
  }

  /** Event j is a poll that shows a priced quantity q for order o while it is open. */
  ghost predicate SeenAt(w: World, db: Db, es: seq<Event>, o: nat, j: nat, q: int)
    requires Inv(db) && o < |db.orders|
  {
    j < |es| && es[j].Poll? &&
    var was := Run(w, db, es[..j]);
    && o < |was.orders| && IsOpen(was.orders[o], es[j].account)
    && Shows(es[j].rows, was.orders[o].brokerOrderId, q)
  }

  predicate Shows(rows: seq<BrokerRow>, id: Option<BrokerId>, q: int) {
    var found := FindRow(rows, id);
    found.Some? && found.value.avgPrice.Some? && found.value.filledQty == q
  }

  lemma SeenPrefix(w: World, db: Db, es: seq<Event>, o: nat, j: nat, q: int)
    requires Inv(db) && o < |db.orders| && es != [] && j < |es| - 1
    ensures SeenAt(w, db, es, o, j, q) <==> SeenAt(w, db, es[..|es| - 1], o, j, q)
  {
    hide Run, Inv, IsOpen, Shows;
    assert es[..|es| - 1][..j] == es[..j];
  }

  /** What the last event adds to the highest quantity seen. */
  lemma HighestStep(w: World, db: Db, es: seq<Event>, o: nat)
    requires Inv(db) && o < |db.orders| && es != []
    ensures var before, now, n := HighestSeen(w, db, es[..|es| - 1], o), HighestSeen(w, db, es, o), |es| - 1;
      && before <= now
      && (forall q :: SeenAt(w, db, es, o, n, q) ==> q <= now)
      && (now == before || SeenAt(w, db, es, o, n, now))
  {
    hide Run, Inv, IsOpen;
  }

  /** It is a maximum: at least what was executed at the start and every priced quantity shown while the order was
      open, and equal to one of them. */
  lemma {:induction false} HighestIsMaximum(w: World, db: Db, es: seq<Event>, o: nat)
    requires Inv(db) && o < |db.orders|
    ensures var top, start := HighestSeen(w, db, es, o), SumExecuted(db.execs, o);
      && start <= top && (forall j: nat, q :: SeenAt(w, db, es, o, j, q) ==> q <= top)
      && (top == start || exists j: nat :: SeenAt(w, db, es, o, j, top))
  {
    hide Inv, Run, SumExecuted, IsOpen, Shows;
    if es != [] {
      var n := |es| - 1;
      HighestIsMaximum(w, db, es[..n], o);
      HighestStep(w, db, es, o);
      hide HighestSeen, SeenAt;
      var before, now := HighestSeen(w, db, es[..n], o), HighestSeen(w, db, es, o);
      forall j: nat, q | SeenAt(w, db, es, o, j, q) ensures q <= now {
        if j < n { SeenPrefix(w, db, es, o, j, q); } else { SeenInRange(w, db, es, o, j, q); }
      }
      if now == before && before != SumExecuted(db.execs, o) {
        var j: nat :| SeenAt(w, db, es[..n], o, j, before);
        SeenInRange(w, db, es[..n], o, j, before);
        SeenPrefix(w, db, es, o, j, before);
      }
    }
  }

  lemma SeenInRange(w: World, db: Db, es: seq<Event>, o: nat, j: nat, q: int)
    requires Inv(db) && o < |db.orders| && SeenAt(w, db, es, o, j, q)
    ensures j < |es|
  {
  }

  // ---- filled means fully executed ----

  ghost predicate FullOk(db: Db) {
    forall o :: 0 <= o < |db.orders| ==>
      SumExecuted(db.execs, o) <= db.orders[o].ticket.qty
      && (db.orders[o].status == Filled ==> SumExecuted(db.execs, o) == db.orders[o].ticket.qty)
  }

  /** A row never claims more than the order, and a filled row carries the full quantity and a price. */
  ghost predicate HonestRow(r: Order, row: BrokerRow) {
    row.filledQty <= r.ticket.qty && (row.status == Filled ==> row.filledQty == r.ticket.qty && row.avgPrice.Some?)
  }

  ghost predicate HonestPoll(db: Db, account: nat, rows: seq<BrokerRow>) {
    forall o :: 0 <= o < |db.orders| ==>
      IsOpen(db.orders[o], account) && FindRow(rows, db.orders[o].brokerOrderId).Some? ==>
        HonestRow(db.orders[o], FindRow(rows, db.orders[o].brokerOrderId).value)
  }

  ghost predicate HonestRun(w: World, db: Db, es: seq<Event>)
    requires Inv(db)
  {
    es != [] ==>
      && HonestRun(w, db, es[..|es| - 1])
      && (es[|es| - 1].Poll? ==> HonestPoll(Run(w, db, es[..|es| - 1]), es[|es| - 1].account, es[|es| - 1].rows))
  }

  lemma PassFull(db: Db, account: nat, rows: seq<BrokerRow>, now: int)
    requires FullOk(db) && HonestPoll(db, account, rows)
    ensures FullOk(Pass(db, account, rows, now))
  {
    hide Pass, SumExecuted, IsOpen, FindRow, ValidTransitions;
    var after := Pass(db, account, rows, now);
    if |db.orders| > 0 { PassEffect(db, account, rows, now, 0); }
    else { assert |after.orders| == 0 by { NoOrdersNoChange(db, account, rows, now); } }
    forall o | 0 <= o < |after.orders|
      ensures SumExecuted(after.execs, o) <= after.orders[o].ticket.qty
      ensures after.orders[o].status == Filled ==> SumExecuted(after.execs, o) == after.orders[o].ticket.qty
    {
      PassEffect(db, account, rows, now, o);
    }
  }

  lemma NoOrdersNoChange(db: Db, account: nat, rows: seq<BrokerRow>, now: int)
    ensures |Pass(db, account, rows, now).orders| == |db.orders|
  {
  }

  lemma PlaceOrderFull(db: Db, accounts: Accounts, env: Env, startingCash: real, q: Request)
    requires Inv(db) && FullOk(db)
    ensures Joined(db.orders, db.execs) && FullOk(PlaceOrder(db, accounts, env, startingCash, q).0)
  {
    hide Inv, PlaceOrder, SumExecuted;
    JoinedOf(db);
    var now := PlaceOrder(db, accounts, env, startingCash, q).0;
    PlaceOrderAppends(db, accounts, env, startingCash, q);
    NewOrderFull(db, accounts, env, startingCash, q);
    forall o | 0 <= o < |now.orders|
      ensures SumExecuted(now.execs, o) <= now.orders[o].ticket.qty
      ensures now.orders[o].status == Filled ==> SumExecuted(now.execs, o) == now.orders[o].ticket.qty
    {
      if o < |db.orders| { AppendsUntouched(db, now, o); }
    }
  }

  /** The row a placement adds is filled exactly when its one execution covers it. */
  lemma NewOrderFull(db: Db, accounts: Accounts, env: Env, startingCash: real, q: Request)
    requires Inv(db) && Joined(db.orders, db.execs)
    ensures var now, n := PlaceOrder(db, accounts, env, startingCash, q).0, |db.orders|;
      |now.orders| > n ==>
        SumExecuted(now.execs, n) == (if now.orders[n].status == Filled then now.orders[n].ticket.qty else 0)
        && now.orders[n].ticket.qty > 0
  {
    hide SubmitPaper, CashFlow, RunGates, EstimateCost, FindFrom, SumExecuted, ExecutionsOk, PositionsOk, TrailOk,
        RowsOk;
    var now := PlaceOrder(db, accounts, env, startingCash, q).0;
    NoExecutions(db, |db.orders|);
    if |now.orders| > |db.orders| && q.account in accounts {
      var isLive := accounts[q.account].broker != "paper";
      var balance := if isLive && env.live.Adapter? && env.live.balance.Some? then env.live.balance.value
                     else AccountBalance(db, q.account, startingCash);
      if Gate(env, q, balance).None? {
        var cost := if env.mark.Some? then EstimateCost(q.ticket, env.mark.value) else 0.0;
        GatesPass(q.ticket, RiskContext(true, env.strategy, balance, cost, 0, None));
        if env.mark.Some? { SubmitPaperFull(db, q, env.mark.value, balance); }
      }
    }
  }

  lemma SubmitPaperFull(db: Db, q: Request, mark: real, balance: real)
    requires Priced(q.ticket) && SumExecuted(db.execs, |db.orders|) == 0
    ensures var now, n := SubmitPaper(db, q, mark, balance).0, |db.orders|;
      && |now.orders| == n + 1 && now.orders[n].ticket == q.ticket
      && SumExecuted(now.execs, n) == (if now.orders[n].status == Filled then q.ticket.qty else 0)
  {
    hide SumExecuted, NetPosition, Marketable;
    var o, pending := |db.orders|, NewRow(q, Pending, None);
    var submitted := pending.(status := Submitted, brokerOrderId := Some(PaperId(1)));
    var db2 := SetStatus(AddOrder(db, pending), o, submitted, None);
    FreshVerdict(q.ticket, SubmitKeyFor(q, o), mark, balance);
    if Marketable(q.ticket, mark).Some? {
      RecordFillSums(db2, o, q.ticket.qty, Marketable(q.ticket, mark).value, PaperExec(o), o);
    }
  }

  lemma {:induction false} PlaceLegsFull(db: Db, accounts: Accounts, envs: nat -> Env, startingCash: real,
        s: StrategyRequest, n: nat)
    requires Inv(db) && FullOk(db) && n <= |s.legs|
    ensures Joined(db.orders, db.execs) && FullOk(PlaceLegs(db, accounts, envs, startingCash, s, n).0)
  {
    hide Inv, FullOk, PlaceOrder, Digits;
    JoinedOf(db);
    if n > 0 {
      PlaceLegsFull(db, accounts, envs, startingCash, s, n - 1);
      PlaceLegsKeeps(db, accounts, envs, startingCash, s, n - 1);
      var was := PlaceLegs(db, accounts, envs, startingCash, s, n - 1).0;
      if s.legs[n - 1].OrderLeg? { PlaceOrderFull(was, accounts, envs(n - 1), startingCash, LegRequest(s, n - 1)); }
    }
  }

  /** With honest brokers, in every run: no order is over-executed, and filled means executed in full. */
  lemma {:induction false} FilledMeansFull(w: World, db: Db, es: seq<Event>)
    requires Inv(db) && FullOk(db) && HonestRun(w, db, es)
    ensures FullOk(Run(w, db, es))
  {
    hide Inv, FullOk, PlaceOrder, PlaceLegs, Pass, HonestPoll;
    if es != [] {
      FilledMeansFull(w, db, es[..|es| - 1]);
      var was, e := Run(w, db, es[..|es| - 1]), es[|es| - 1];
      JoinedOf(was);
      match e
      case Place(env, q) => PlaceOrderFull(was, w.accounts, env, w.startingCash, q);
      case PlaceStrategy(envs, s) => PlaceLegsFull(was, w.accounts, envs, w.startingCash, s, |s.legs|);
      case Cancel(o) => CancelFull(was, o);
      case Poll(account, rows, now) => PassFull(was, account, rows, now);
    }
  }

  lemma CancelFull(db: Db, o: nat)
    requires FullOk(db)
    ensures FullOk(CancelOrder(db, o).0)
  {
    hide SumExecuted;
  }

  /** A broker row that says filled: the order is then executed in full if and only if the row's priced quantity,
      or failing that what was recorded before, is the order's quantity. */
  lemma FilledIsFullIff(db: Db, account: nat, rows: seq<BrokerRow>, now: int, o: nat)
    requires o < |db.orders| && IsOpen(db.orders[o], account)
    requires FindRow(rows, db.orders[o].brokerOrderId).Some?
      && FindRow(rows, db.orders[o].brokerOrderId).value.status == Filled
    ensures var row, was := FindRow(rows, db.orders[o].brokerOrderId).value, SumExecuted(db.execs, o);
      var after := Pass(db, account, rows, now);
      && |after.orders| == |db.orders| && after.orders[o].status == Filled
      && (SumExecuted(after.execs, o) == db.orders[o].ticket.qty <==>
            if row.avgPrice.Some? && row.filledQty > was then row.filledQty == db.orders[o].ticket.qty
            else was == db.orders[o].ticket.qty)
  {
    hide Pass, SumExecuted, FindRow;
    PassEffect(db, account, rows, now, o);
  }

  /** A filled row without a price leaves a short order marked filled, for good: no later event completes it. */
  lemma UnpricedFillStaysShort(w: World, db: Db, account: nat, rows: seq<BrokerRow>, now: int, o: nat,
        later: seq<Event>)
    requires Inv(db) && o < |db.orders| && IsOpen(db.orders[o], account)
    requires FindRow(rows, db.orders[o].brokerOrderId).Some?
    requires var row := FindRow(rows, db.orders[o].brokerOrderId).value; row.status == Filled && row.avgPrice.None?
    requires SumExecuted(db.execs, o) < db.orders[o].ticket.qty
    ensures Inv(Pass(db, account, rows, now))
    ensures var last := Run(w, Pass(db, account, rows, now), later);
      && o < |last.orders| && last.orders[o].status == Filled
      && SumExecuted(last.execs, o) < last.orders[o].ticket.qty
  {
    hide Pass, SumExecuted, FindRow, Inv, Run;
    PassKeeps(db, account, rows, now);
    PassEffect(db, account, rows, now, o);
    TerminalAbsorbs(w, Pass(db, account, rows, now), later, o);
  }
}
