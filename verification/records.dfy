/** What the tables say about the past: whether an audit row gives an order's true earlier status, and where a
    rejected row comes from. */
module Records {
  import opened Wrappers
  import opened Numbers
  import opened Positions
  import opened Orders
  import opened Ledger
  import opened Service
  import opened Reconcile
  import opened Runs

  // ---- what the audit says an order was before ----

  /** No row from k on gives `cancelled` as the before-state. */
  ghost predicate Frank(audit: seq<AuditRow>, k: nat) {
    forall i :: k <= i < |audit| ==> audit[i].before != Some(Cancelled)
  }

  lemma SubmitPaperFrank(db: Db, q: Request, mark: real, balance: real)
    requires Priced(q.ticket)
    ensures Frank(SubmitPaper(db, q, mark, balance).0.audit, |db.audit|)
  {
    hide P.Submit;
  }

  lemma PlaceOrderFrank(w: World, db: Db, env: Env, q: Request)
    requires Joined(db.orders, db.execs)
    ensures Frank(PlaceOrder(db, w.accounts, env, w.startingCash, q).0.audit, |db.audit|)
  {
    hide SubmitPaper, AccountBalance, RunGates, EstimateCost, FindFrom;
    if q.account in w.accounts && env.mark.Some? {
      var balance := AccountBalance(db, q.account, w.startingCash);
      if Gate(env, q, balance).None? {
        GatesPass(q.ticket, RiskContext(true, env.strategy, balance, EstimateCost(q.ticket, env.mark.value), 0, None));
        SubmitPaperFrank(db, q, env.mark.value, balance);
      }
    }
  }

  lemma FrankOn(was: seq<AuditRow>, now: seq<AuditRow>, k: nat)
    requires k <= |was| && was <= now && Frank(was, k) && Frank(now, |was|)
    ensures Frank(now, k)
  {
  }

  lemma {:induction false} PlaceLegsFrank(w: World, db: Db, envs: nat -> Env, s: StrategyRequest, n: nat)
    requires Joined(db.orders, db.execs) && n <= |s.legs|
    ensures db.audit <= PlaceLegs(db, w.accounts, envs, w.startingCash, s, n).0.audit
    ensures Frank(PlaceLegs(db, w.accounts, envs, w.startingCash, s, n).0.audit, |db.audit|)
  {
    hide PlaceOrder, LegRequest, Frank;
    PlaceLegsExtends(db, w.accounts, envs, w.startingCash, s, n);
    if n == 0 {
      NothingNew(db.audit);
    } else {
      PlaceLegsFrank(w, db, envs, s, n - 1);
      var was := PlaceLegs(db, w.accounts, envs, w.startingCash, s, n - 1).0;
      if s.legs[n - 1].OrderLeg? {
        PlaceOrderFrank(w, was, envs(n - 1), LegRequest(s, n - 1));
        PlaceOrderAppends(was, w.accounts, envs(n - 1), w.startingCash, LegRequest(s, n - 1));
        var now := PlaceOrder(was, w.accounts, envs(n - 1), w.startingCash, LegRequest(s, n - 1)).0;
        FrankOn(was.audit, now.audit, |db.audit|);
      }
    }
  }

  lemma NothingNew(audit: seq<AuditRow>)
    ensures Frank(audit, |audit|)
  {
  }

  /** A poll moves only orders that can still move, which a cancelled one cannot. */
  lemma ReconcileOrderFrank(db: Db, o: nat, rows: seq<BrokerRow>)
    requires o < |db.orders|
    ensures db.audit <= ReconcileOrder(db, o, rows).audit && Frank(ReconcileOrder(db, o, rows).audit, |db.audit|)
  {
    hide FindRow, SumExecuted;
  }

  lemma {:induction false} ReconcileAllFrank(db: Db, ids: seq<nat>, rows: seq<BrokerRow>, n: nat)
    requires n <= |ids| && forall o :: o in ids ==> o < |db.orders|
    ensures db.audit <= ReconcileAll(db, ids, rows, n).audit && Frank(ReconcileAll(db, ids, rows, n).audit, |db.audit|)
  {
    hide ReconcileOrder, Frank;
    if n == 0 {
      NothingNew(db.audit);
    } else {
      assert ids[n - 1] in ids;
      ReconcileAllFrank(db, ids, rows, n - 1);
      var was := ReconcileAll(db, ids, rows, n - 1);
      ReconcileOrderFrank(was, ids[n - 1], rows);
      FrankOn(was.audit, ReconcileOrder(was, ids[n - 1], rows).audit, |db.audit|);
    }
  }

  /** Placements, strategies and polls never claim that an order was cancelled before. */
  lemma StepFrank(w: World, db: Db, e: Event)
    requires Joined(db.orders, db.execs) && !e.Cancel?
    ensures Frank(Step(w, db, e).audit, |db.audit|)
  {
    hide PlaceOrder, PlaceLegs, ReconcileAll, Frank;
    NothingNew(db.audit);
    match e
    case Place(env, q) => PlaceOrderFrank(w, db, env, q);
    case PlaceStrategy(envs, s) => PlaceLegsFrank(w, db, envs, s, |s.legs|);
    case Poll(account, rows, now) =>
      var ids := OpenOrders(db.orders, account, |db.orders|);
      ReconcileAllFrank(db, ids, rows, |ids|);
  }

  /** The before-state of row i is the order's last status at that point. */
  ghost predicate Truthful(audit: seq<AuditRow>, i: nat)
    requires i < |audit| && audit[i].before.Some?
  {
    var h := History(audit[..i], audit[i].orderId);
    audit[i].before.value == h[|h| - 1]
  }

  /** The audit rows one request writes are true about the past if and only if the request is no cancellation. */
  lemma StepBeforeIff(w: World, db: Db, e: Event, i: nat)
    requires Inv(db) && Joined(db.orders, db.execs)
    requires |db.audit| <= i < |Step(w, db, e).audit| && Step(w, db, e).audit[i].before.Some?
    ensures Truthful(Step(w, db, e).audit, i) <==> !e.Cancel?
  {
    StepKeeps(w, db, e);
    if !e.Cancel? { StepFrank(w, db, e); }
    hide ExecutionsOk, PositionsOk, TrailOk, RowsOk, History, HandlePlace, HandleStrategy, Pass;
    assert BeforeOk(Step(w, db, e).audit, i);
  }

  /** Row i of the audit is written by event j of the run. */
  ghost predicate WrittenBy(w: World, db: Db, es: seq<Event>, i: nat, j: nat)
    requires Inv(db)
  {
    j < |es| && |Run(w, db, es[..j]).audit| <= i < |Run(w, db, es[..j + 1]).audit|
  }

  /** Over every run: each audit row the run adds is written by one of its events, and the before-state it gives is
      true if and only if that event is not a cancellation. */
  lemma {:induction false} AuditBeforeIff(w: World, db: Db, es: seq<Event>, i: nat) returns (j: nat)
    requires Inv(db) && |db.audit| <= i < |Run(w, db, es).audit|
    ensures WrittenBy(w, db, es, i, j)
    ensures Run(w, db, es).audit[i].before.Some? ==> (Truthful(Run(w, db, es).audit, i) <==> !es[j].Cancel?)
  {
    hide Inv, Step, History;
    assert es != [];
    var n := |es| - 1;
    var was, now := Run(w, db, es[..n]), Run(w, db, es);
    JoinedOf(was);
    StepExtends(w, was, es[n]);
    if i < |was.audit| {
      j := AuditBeforeIff(w, db, es[..n], i);
      assert es[..n][..j] == es[..j] && es[..n][..j + 1] == es[..j + 1];
      assert now.audit[..i] == was.audit[..i];
    } else {
      j := n;
      assert es[..n + 1] == es;
      if now.audit[i].before.Some? { StepBeforeIff(w, was, es[n], i); }
    }
  }

  /** A resting limit buy, and the request that places it. */
  function RestingBuy(): Event {
    Place(Env(Some(10.0), None, {}, NoCredentials),
          Request(0, Ticket(Instrument("X", None, None, None), Buy, 1, Limit, Some(5.0), None, Day), None))
  }

  /** An unmarketable day order on the paper path is left submitted. */
  lemma SubmitPaperRests(db: Db, q: Request, mark: real, balance: real)
    requires Priced(q.ticket) && Marketable(q.ticket, mark).None? && q.ticket.tif.Day?
    ensures var n, row := |db.orders|, NewRow(q, Submitted, None).(brokerOrderId := Some(PaperId(1)));
      SubmitPaper(db, q, mark, balance)
      == (db.(orders := db.orders + [row], audit := db.audit + [AuditRow(n, None, Submitted)]), Placed(n, Submitted))
  {
    hide Marketable, P.Submit;
    FreshVerdict(q.ticket, SubmitKeyFor(q, |db.orders|), mark, balance);
    var pending := NewRow(q, Pending, None);
    var row := NewRow(q, Submitted, None).(brokerOrderId := Some(PaperId(1)));
    assert (db.orders + [pending])[|db.orders| := row] == db.orders + [row];
  }

  /** A gated order with a fresh key on an active paper account goes to the paper adapter. */
  lemma ReachesAdapter(w: World, db: Db, env: Env, q: Request, mark: real)
    requires Joined(db.orders, db.execs) && env.mark == Some(mark)
    requires q.account in w.accounts && w.accounts[q.account] == Account("paper", true)
    requires FindByKey(db.orders, q.key).None? && !KeyTaken(db.orders, q.key)
    requires Gate(env, q, AccountBalance(db, q.account, w.startingCash)).None?
    ensures Priced(q.ticket)
    ensures PlaceOrder(db, w.accounts, env, w.startingCash, q)
      == SubmitPaper(db, q, mark, AccountBalance(db, q.account, w.startingCash))
  {
    hide SubmitPaper, AccountBalance, EstimateCost, StructuralGate, FindByKey, KeyTaken;
    GatesPass(q.ticket,
        RiskContext(true, env.strategy, AccountBalance(db, q.account, w.startingCash), EstimateCost(q.ticket, mark), 0,
            None));
  }

  const HUNDRED := OneAccount(100.0)

  lemma RestingBuyRests()
    ensures var db, q := Step(HUNDRED, EMPTY, RestingBuy()), RestingBuy().request;
      db == EMPTY.(orders := [NewRow(q, Submitted, None).(brokerOrderId := Some(PaperId(1)))],
          audit := [AuditRow(0, None, Submitted)])
  {
    var e := RestingBuy();
    var q := e.request;
    assert Gate(e.env, q, 100.0).None? by { TimesOne(10.0); }
    assert Priced(q.ticket) && Marketable(q.ticket, 10.0).None?;
    assert AccountBalance(EMPTY, 0, 100.0) == 100.0;
    assert FindByKey(EMPTY.orders, q.key).None? && !KeyTaken(EMPTY.orders, q.key);
    hide Gate, SubmitPaper, AccountBalance, Marketable, FindByKey, KeyTaken, PlaceOrder, Joined;
    ReachesAdapter(HUNDRED, EMPTY, e.env, q, 10.0);
    SubmitPaperRests(EMPTY, q, 10.0, 100.0);
  }

  lemma RunTwo(w: World, first: Event, second: Event)
    ensures Inv(EMPTY)
    ensures var placed := Step(w, EMPTY, first);
      Inv(placed) && Run(w, EMPTY, [first, second]) == Step(w, placed, second)
  {
    EmptyInv();
    hide Inv, Step;
    StepKeeps(w, EMPTY, first);
    var es := [first, second];
    assert es[..1] == [first] && [first][..0] == [];
    assert Run(w, EMPTY, [first][..0]) == EMPTY;
    assert Run(w, EMPTY, [first]) == Step(w, EMPTY, first);
  }

  lemma CancelStep(w: World, db: Db, o: nat)
    requires Joined(db.orders, db.execs) && o < |db.orders| && db.orders[o].status in {Pending, Submitted}
    ensures Step(w, db, Cancel(o)).audit == db.audit + [AuditRow(o, Some(Cancelled), Cancelled)]
  {
  }

  /** Place a resting order, then cancel it: the second audit row says it was cancelled before it was cancelled. */
  lemma CancelMisrecordsBefore()
    ensures Inv(EMPTY)
    ensures var db := Run(HUNDRED, EMPTY, [RestingBuy(), Cancel(0)]);
      && |db.audit| == 2 && db.audit[1] == AuditRow(0, Some(Cancelled), Cancelled)
      && History(db.audit[..1], 0) == [Pending, Submitted]
  {
    hide Inv, Step, Run, RestingBuy, HUNDRED;
    RunTwo(HUNDRED, RestingBuy(), Cancel(0));
    RestingBuyRests();
    var placed := Step(HUNDRED, EMPTY, RestingBuy());
    CancelStep(HUNDRED, placed, 0);
    OneAuditRow(AuditRow(0, None, Submitted));
    var audit := Run(HUNDRED, EMPTY, [RestingBuy(), Cancel(0)]).audit;
    assert audit[..1] == placed.audit;
  }

  lemma OneAuditRow(row: AuditRow)
    ensures History([row], row.orderId) == [Pending, row.after]
  {
    assert Trail([], row.orderId) == [] && [] + [row] == [row];
    TrailSnoc([], row, row.orderId);
  }

  // ---- where rejected rows come from ----

  /** The row is that of one of the first n legs of a strategy request: its account, contract and key. */
  ghost predicate FromLeg(r: Order, s: StrategyRequest, n: nat)
    requires n <= |s.legs|
  {
    exists i :: 0 <= i < n && s.legs[i].OrderLeg? && SameIdentity(NewRow(LegRequest(s, i), Rejected, None), r)
  }

  /** The snapshot says the broker rejected this row's order. */
  predicate ReportedRejected(r: Order, account: nat, rows: seq<BrokerRow>) {
    var found := FindRow(rows, r.brokerOrderId);
    r.account == account && found.Some? && found.value.status == Rejected
  }

  ghost predicate FromStrategy(r: Order, es: seq<Event>) {
    exists j :: 0 <= j < |es| && es[j].PlaceStrategy? && FromLeg(r, es[j].strategy, |es[j].strategy.legs|)
  }

  ghost predicate FromPoll(r: Order, es: seq<Event>) {
    exists j :: 0 <= j < |es| && es[j].Poll? && ReportedRejected(r, es[j].account, es[j].rows)
  }

  /** A coded row comes from a leg of a strategy in the run, a rejected one without a code from a poll in it. */
  ghost predicate Origin(r: Order, es: seq<Event>) {
    (r.rejectCode.Some? ==> FromStrategy(r, es)) && (r.status == Rejected && r.rejectCode.None? ==> FromPoll(r, es))
  }

  /** The row a placement adds is the request's; it is rejected exactly when it has a code, and then the reply is an
      error. */
  lemma PlacedRow(w: World, db: Db, env: Env, q: Request)
    requires Joined(db.orders, db.execs)
    ensures var (now, reply) := PlaceOrder(db, w.accounts, env, w.startingCash, q); var n := |db.orders|;
      |now.orders| > n ==>
        && SameIdentity(NewRow(q, Rejected, None), now.orders[n])
        && (now.orders[n].status == Rejected <==> now.orders[n].rejectCode.Some?)
        && (reply.Placed? ==> now.orders[n].status != Rejected)
  {
    hide AccountBalance, RunGates, EstimateCost, FindFrom, NetPosition, P.Submit;
  }

  lemma PlacedRows(w: World, db: Db, env: Env, q: Request, r: Order)
    requires Joined(db.orders, db.execs) && r in PlaceOrder(db, w.accounts, env, w.startingCash, q).0.orders
    ensures r in db.orders
        || (SameIdentity(NewRow(q, Rejected, None), r) && (r.status == Rejected <==> r.rejectCode.Some?)
            && (PlaceOrder(db, w.accounts, env, w.startingCash, q).1.Placed? ==> r.status != Rejected))
  {
    hide PlaceOrder, SameIdentity;
    PlacedRow(w, db, env, q);
    PlaceOrderAppends(db, w.accounts, env, w.startingCash, q);
    var now, n := PlaceOrder(db, w.accounts, env, w.startingCash, q).0, |db.orders|;
    var i :| 0 <= i < |now.orders| && now.orders[i] == r;
    if i < n { assert r == now.orders[..n][i] == db.orders[i]; }
  }

  lemma {:induction false} LegRows(w: World, db: Db, envs: nat -> Env, s: StrategyRequest, n: nat, r: Order)
    requires Joined(db.orders, db.execs) && n <= |s.legs|
    requires r in PlaceLegs(db, w.accounts, envs, w.startingCash, s, n).0.orders
    ensures r in db.orders || (FromLeg(r, s, n) && (r.status == Rejected ==> r.rejectCode.Some?))
  {
    hide PlaceOrder, LegRequest, SameIdentity;
    if n > 0 {
      var was := PlaceLegs(db, w.accounts, envs, w.startingCash, s, n - 1).0;
      if r in was.orders {
        LegRows(w, db, envs, s, n - 1, r);
      } else {
        PlacedRows(w, was, envs(n - 1), LegRequest(s, n - 1), r);
      }
    }
  }

  lemma PolledRow(db: Db, account: nat, rows: seq<BrokerRow>, now: int, r: Order) returns (was: Order)
    requires r in Pass(db, account, rows, now).orders
    ensures was in db.orders && OnlyStatus(was, r)
    ensures r.status == was.status || r.status != Rejected || ReportedRejected(r, account, rows)
  {
    hide Pass, SumExecuted, FindRow, ValidTransitions;
    var after := Pass(db, account, rows, now);
    NoOrdersNoChange(db, account, rows, now);
    var p :| 0 <= p < |after.orders| && after.orders[p] == r;
    was := db.orders[p];
    assert was in db.orders;
    PassEffect(db, account, rows, now, p);
  }

  lemma OriginGrows(r: Order, es: seq<Event>)
    requires es != [] && Origin(r, es[..|es| - 1])
    ensures Origin(r, es)
  {
    hide FromLeg, ReportedRejected;
    assert forall j :: 0 <= j < |es| - 1 ==> es[..|es| - 1][j] == es[j];
  }

  /** A row's origin is its identity's and its broker id's; a status may change. */
  lemma OriginOf(was: Order, r: Order, es: seq<Event>)
    requires Origin(was, es) && OnlyStatus(was, r)
    requires r.status == was.status || r.status != Rejected || FromPoll(r, es)
    ensures Origin(r, es)
  {
    hide LegRequest, FindRow;
    if r.rejectCode.Some? {
      var j :| 0 <= j < |es| && es[j].PlaceStrategy? && FromLeg(was, es[j].strategy, |es[j].strategy.legs|);
      assert FromLeg(r, es[j].strategy, |es[j].strategy.legs|);
    }
  }

  lemma {:induction false} RowOrigin(w: World, es: seq<Event>, r: Order)
    requires Inv(EMPTY) && r in Run(w, EMPTY, es).orders
    ensures Origin(r, es)
  {
    hide Inv, Step, Origin, FromStrategy, FromPoll;
    if es != [] {
      var before, e := es[..|es| - 1], es[|es| - 1];
      var was := Run(w, EMPTY, before);
      JoinedOf(was);
      var past := StepOrigin(w, was, e, r, es);
      if past.Some? {
        RowOrigin(w, before, past.value);
        OriginGrows(past.value, es);
        OriginOf(past.value, r, es);
      }
    }
  }

  /** Either this event explains the row, or it goes back to an earlier row whose rejection it may have reported. */
  lemma StepOrigin(w: World, db: Db, e: Event, r: Order, es: seq<Event>) returns (earlier: Option<Order>)
    requires Joined(db.orders, db.execs) && es != [] && e == es[|es| - 1] && r in Step(w, db, e).orders
    ensures earlier.None? ==> Origin(r, es)
    ensures earlier.Some? ==> earlier.value in db.orders && OnlyStatus(earlier.value, r)
    ensures earlier.Some? ==> r.status == earlier.value.status || r.status != Rejected || FromPoll(r, es)
  {
    hide PlaceOrder, PlaceLegs, Pass, FromLeg, ReportedRejected, SameIdentity;
    if r in db.orders { return Some(r); }
    earlier := None;
    match e
    case Place(env, q) => PlacedRows(w, db, env, q, r);
    case PlaceStrategy(envs, s) => LegRows(w, db, envs, s, |s.legs|, r);
    case Cancel(o) => earlier := Some(db.orders[o]);
    case Poll(account, rows, now) =>
      var was := PolledRow(db, account, rows, now, r);
      earlier := Some(was);
  }

  /** A standalone rejection leaves no row behind: in every reachable state a rejected order with a code has the
      account, contract and key of a leg of a strategy request of the run, and one without a code was reported
      rejected by a poll of the run. */
  lemma RejectedRowsAreNotStandalone(w: World, es: seq<Event>, o: nat)
    requires o < |Run(w, EMPTY, es).orders|
    ensures var r := Run(w, EMPTY, es).orders[o];
      && (r.rejectCode.Some? ==> FromStrategy(r, es))
      && (r.status == Rejected && r.rejectCode.None? ==> FromPoll(r, es))
  {
    EmptyInv();
    hide Run, FromStrategy, FromPoll;
    var r := Run(w, EMPTY, es).orders[o];
    RowOrigin(w, es, r);
  }
}
