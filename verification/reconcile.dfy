/** `reconcile_account`: one polling pass over an account's open orders against a broker snapshot. */
module Reconcile {
  import opened Wrappers
  import opened Positions
  import opened Orders
  import opened Ledger

  datatype BrokerRow = BrokerRow(id: BrokerId, status: Status, filledQty: int, avgPrice: Option<real>)

  /** The snapshot keyed by broker order id: the last row of an id wins. */
  function FindRow(rows: seq<BrokerRow>, id: Option<BrokerId>): Option<BrokerRow> {
    if rows == [] || id.None? then None
    else if rows[|rows| - 1].id == id.value then Some(rows[|rows| - 1])
    else FindRow(rows[..|rows| - 1], id)
  }

  predicate IsOpen(r: Order, account: nat) {
    r.account == account && (r.status == Submitted || r.status == Partial)
  }

  /** Ids of the account's open orders among the first n. */
  function OpenOrders(orders: seq<Order>, account: nat, n: nat): (ids: seq<nat>)
    requires n <= |orders|
    ensures forall o :: o in ids ==> o < n && IsOpen(orders[o], account)
    ensures forall o :: 0 <= o < n && IsOpen(orders[o], account) ==> o in ids
  {
    if n == 0 then []
    else OpenOrders(orders, account, n - 1) + (if IsOpen(orders[n - 1], account) then [n - 1] else [])
  }

  /** The fill step: a delta execution at the broker's running average price. */
  function FillDelta(db: Db, o: nat, row: BrokerRow): Db
    requires o < |db.orders|
  {
    var delta := row.filledQty - SumExecuted(db.execs, o);
    if delta > 0 && row.avgPrice.Some? then RecordFill(db, o, delta, row.avgPrice.value, Recon(o, row.filledQty))
    else db
  }

  /** The status step: a transition the machine refuses leaves the order as it is. */
  function AdvanceStatus(db: Db, o: nat, row: BrokerRow): Db
    requires o < |db.orders|
  {
    var r := db.orders[o];
    if row.status != r.status && Transition(r.status, row.status).Ok?
    then SetStatus(db, o, r.(status := row.status), Some(r.status))
    else db
  }

  function ReconcileOrder(db: Db, o: nat, rows: seq<BrokerRow>): (now: Db)
    requires o < |db.orders|
    ensures |now.orders| == |db.orders|
  {
    match FindRow(rows, db.orders[o].brokerOrderId)
    case None => db
    case Some(row) => AdvanceStatus(FillDelta(db, o, row), o, row)
  }

  function ReconcileAll(db: Db, ids: seq<nat>, rows: seq<BrokerRow>, n: nat): (now: Db)
    requires n <= |ids| && forall o :: o in ids ==> o < |db.orders|
    ensures |now.orders| == |db.orders|
  {
    if n == 0 then db
    else
      assert ids[n - 1] in ids;
      ReconcileOrder(ReconcileAll(db, ids, rows, n - 1), ids[n - 1], rows)
  }

  /** The whole pass, with the account's stamp. */
  function Pass(db: Db, account: nat, rows: seq<BrokerRow>, now: int): Db {
    var ids := OpenOrders(db.orders, account, |db.orders|);
    var after := ReconcileAll(db, ids, rows, |ids|);
    after.(reconciledAt := after.reconciledAt[account := now])
  }

  // ---- one order ----

  lemma ReconcileOrderKeeps(db: Db, o: nat, rows: seq<BrokerRow>)
    requires Inv(db) && o < |db.orders|
    ensures Inv(ReconcileOrder(db, o, rows))
  {
    hide Inv, NetPosition;
    var found := FindRow(rows, db.orders[o].brokerOrderId);
    if found.Some? {
      var row := found.value;
      var delta := row.filledQty - SumExecuted(db.execs, o);
      if delta > 0 && row.avgPrice.Some? {
        RecordFillKeeps(db, o, delta, row.avgPrice.value, Recon(o, row.filledQty));
      }
      var mid := FillDelta(db, o, row);
      if row.status in ValidTransitions(mid.orders[o].status) {
        SetStatusKeeps(mid, o, mid.orders[o].(status := row.status), Some(mid.orders[o].status));
      }
    }
  }

  /** Nothing but the status may have changed. */
  predicate OnlyStatus(was: Order, now: Order) { now == was.(status := now.status) }

  /** What reconciling o does to the rows and sums of any order p. */
  lemma ReconcileOrderEffect(db: Db, o: nat, rows: seq<BrokerRow>, p: nat)
    requires o < |db.orders| && p < |db.orders|
    ensures var now, found := ReconcileOrder(db, o, rows), FindRow(rows, db.orders[o].brokerOrderId);
      && OnlyStatus(db.orders[p], now.orders[p])
      && (p != o ==> now.orders[p] == db.orders[p])
      && SumExecuted(now.execs, p) ==
           (if p == o && found.Some? && found.value.avgPrice.Some? && found.value.filledQty > SumExecuted(db.execs, o)
            then found.value.filledQty else SumExecuted(db.execs, p))
      && now.orders[o].status ==
           (if found.Some? && found.value.status in ValidTransitions(db.orders[o].status)
            then found.value.status else db.orders[o].status)
  {
    hide FindRow, SumExecuted, ValidTransitions, FillDelta, AdvanceStatus;
    var found := FindRow(rows, db.orders[o].brokerOrderId);
    if found.Some? {
      FillDeltaEffect(db, o, found.value, p);
      AdvanceEffect(FillDelta(db, o, found.value), o, found.value);
    }
  }

  lemma FillDeltaEffect(db: Db, o: nat, row: BrokerRow, p: nat)
    requires o < |db.orders|
    ensures var now := FillDelta(db, o, row);
      now.orders == db.orders
      && SumExecuted(now.execs, p) ==
           (if p == o && row.avgPrice.Some? && row.filledQty > SumExecuted(db.execs, o) then row.filledQty
            else SumExecuted(db.execs, p))
  {
    hide NetPosition, SumExecuted;
    var delta := row.filledQty - SumExecuted(db.execs, o);
    if delta > 0 && row.avgPrice.Some? {
      RecordFillSums(db, o, delta, row.avgPrice.value, Recon(o, row.filledQty), p);
    }
  }

  lemma AdvanceEffect(db: Db, o: nat, row: BrokerRow)
    requires o < |db.orders|
    ensures var now, was := AdvanceStatus(db, o, row), db.orders[o];
      && now.execs == db.execs
      && now.orders == db.orders[o :=
           was.(status := if row.status in ValidTransitions(was.status) then row.status else was.status)]
  {
    NotSelf(db.orders[o].status);
  }

  lemma NotSelf(s: Status)
    ensures s !in ValidTransitions(s)
  {
  }

  // ---- the pass ----

  lemma {:induction false} ReconcileAllKeeps(db: Db, ids: seq<nat>, rows: seq<BrokerRow>, n: nat)
    requires Inv(db) && n <= |ids| && forall o :: o in ids ==> o < |db.orders|
    ensures Inv(ReconcileAll(db, ids, rows, n))
  {
    hide Inv, ReconcileOrder;
    if n > 0 {
      assert ids[n - 1] in ids;
      ReconcileAllKeeps(db, ids, rows, n - 1);
      ReconcileOrderKeeps(ReconcileAll(db, ids, rows, n - 1), ids[n - 1], rows);
    }
  }

  lemma PassKeeps(db: Db, account: nat, rows: seq<BrokerRow>, now: int)
    requires Inv(db)
    ensures Inv(Pass(db, account, rows, now))
  {
    hide Inv, ReconcileAll;
    var ids := OpenOrders(db.orders, account, |db.orders|);
    ReconcileAllKeeps(db, ids, rows, |ids|);
    var after := ReconcileAll(db, ids, rows, |ids|);
    StampKeeps(after, after.reconciledAt[account := now]);
  }

  lemma {:induction false} OpenOrdersDistinct(orders: seq<Order>, account: nat, n: nat)
    requires n <= |orders|
    ensures forall i, j :: 0 <= i < j < |OpenOrders(orders, account, n)| ==>
              OpenOrders(orders, account, n)[i] != OpenOrders(orders, account, n)[j]
  {
    if n > 0 { OpenOrdersDistinct(orders, account, n - 1); }
  }

  /** Reconciling the first n ids treats each of them as if it were alone, and touches no other order. */
  lemma {:induction false} ReconcileAllEffect(db: Db, ids: seq<nat>, rows: seq<BrokerRow>, n: nat, p: nat)
    requires n <= |ids| && p < |db.orders| && forall o :: o in ids ==> o < |db.orders|
    requires forall i, j :: 0 <= i < j < |ids| ==> ids[i] != ids[j]
    ensures var now := ReconcileAll(db, ids, rows, n);
      && (p !in ids[..n] ==> now.orders[p] == db.orders[p] && SumExecuted(now.execs, p) == SumExecuted(db.execs, p))
      && (p in ids[..n] ==>
            var alone := ReconcileOrder(db, p, rows);
            SumExecuted(now.execs, p) == SumExecuted(alone.execs, p)
            && OnlyStatus(db.orders[p], now.orders[p])
            && now.orders[p].status == alone.orders[p].status)
  {
    hide ReconcileOrder, SameIdentity, ValidTransitions, FindRow, SumExecuted;
    if n > 0 {
      var was, o := ReconcileAll(db, ids, rows, n - 1), ids[n - 1];
      assert o in ids;
      ReconcileAllEffect(db, ids, rows, n - 1, p);
      ReconcileOrderEffect(was, o, rows, p);
      assert ids[..n] == ids[..n - 1] + [o];
      if p == o {
        assert o !in ids[..n - 1];
        ReconcileOrderEffect(db, p, rows, p);
      }
    }
  }

  /** The exact effect of a pass on one order: its executed sum rises to a priced observation that exceeds
      it, its status moves if the machine allows, and orders that are not open are left alone. */
  lemma PassEffect(db: Db, account: nat, rows: seq<BrokerRow>, now: int, p: nat)
    requires p < |db.orders|
    ensures var after, found := Pass(db, account, rows, now), FindRow(rows, db.orders[p].brokerOrderId);
      var matched := IsOpen(db.orders[p], account) && found.Some?;
      && |after.orders| == |db.orders|
      && OnlyStatus(db.orders[p], after.orders[p])
      && (!matched ==> after.orders[p].status == db.orders[p].status)
      && (!IsOpen(db.orders[p], account) ==> after.orders[p] == db.orders[p])
      && SumExecuted(after.execs, p) ==
           (if matched && found.value.avgPrice.Some? && found.value.filledQty > SumExecuted(db.execs, p)
            then found.value.filledQty else SumExecuted(db.execs, p))
      && (matched ==>
            after.orders[p].status ==
              (if found.value.status in ValidTransitions(db.orders[p].status) then found.value.status
                  else db.orders[p].status))
  {
    hide ReconcileOrder, ValidTransitions, FindRow, SumExecuted;
    var ids := OpenOrders(db.orders, account, |db.orders|);
    OpenOrdersDistinct(db.orders, account, |db.orders|);
    ReconcileAllEffect(db, ids, rows, |ids|, p);
    assert ids[..|ids|] == ids;
    ReconcileOrderEffect(db, p, rows, p);
  }

  // ---- which row speaks for an order ----

  /** Row i is the last one of the snapshot with this broker id. */
  ghost predicate LastRowOf(rows: seq<BrokerRow>, i: nat, id: BrokerId) {
    i < |rows| && rows[i].id == id && forall j :: i < j < |rows| ==> rows[j].id != id
  }

  lemma {:induction false} FindsLast(rows: seq<BrokerRow>, i: nat, id: BrokerId)
    requires LastRowOf(rows, i, id)
    ensures FindRow(rows, Some(id)) == Some(rows[i])
  {
    if i < |rows| - 1 { FindsLast(rows[..|rows| - 1], i, id); }
  }

  lemma {:induction false} FindsNothing(rows: seq<BrokerRow>, id: Option<BrokerId>)
    requires id.Some? ==> forall j :: 0 <= j < |rows| ==> rows[j].id != id.value
    ensures FindRow(rows, id).None?
  {
    if rows != [] { FindsNothing(rows[..|rows| - 1], id); }
  }

  /** The executions of one order, in order. */
  function ExecutionsOf(execs: seq<Execution>, o: nat): seq<Execution> {
    if execs == [] then []
    else
      ExecutionsOf(execs[..|execs| - 1], o) + (if execs[|execs| - 1].orderId == o then [execs[|execs| - 1]] else [])
  }

  lemma RecordFillExecutions(db: Db, o: nat, qty: int, price: real, key: ExecKey, p: nat)
    requires o < |db.orders|
    ensures ExecutionsOf(RecordFill(db, o, qty, price, key).execs, p)
         == ExecutionsOf(db.execs, p)
            + (if p == o then [Execution(o, db.orders[o].account, qty, price, 0.0, key)] else [])
  {
    hide NetPosition;
    var now := RecordFill(db, o, qty, price, key);
    assert now.execs[..|db.execs|] == db.execs;
  }

  /** The executions a snapshot row adds to an order: one, for what the row has filled beyond what was executed, at
      the row's average price; none if that is nothing or the row has no price. */
  function Added(db: Db, o: nat, row: BrokerRow): seq<Execution>
    requires o < |db.orders|
  {
    var already := SumExecuted(db.execs, o);
    if row.filledQty > already && row.avgPrice.Some?
    then [Execution(o, db.orders[o].account, row.filledQty - already, row.avgPrice.value, 0.0, Recon(o, row.filledQty))]
    else []
  }

  lemma ReconcileOrderExecutions(db: Db, o: nat, rows: seq<BrokerRow>, p: nat)
    requires o < |db.orders|
    ensures var found := FindRow(rows, db.orders[o].brokerOrderId);
      ExecutionsOf(ReconcileOrder(db, o, rows).execs, p)
      == ExecutionsOf(db.execs, p) + (if p == o && found.Some? then Added(db, o, found.value) else [])
  {
    hide FindRow, SumExecuted, ValidTransitions, NetPosition, RecordFill, ExecutionsOf;
    var found := FindRow(rows, db.orders[o].brokerOrderId);
    assert ExecutionsOf(db.execs, p) + [] == ExecutionsOf(db.execs, p);
    if found.Some? && found.value.avgPrice.Some? {
      var row := found.value;
      RecordFillExecutions(db, o, row.filledQty - SumExecuted(db.execs, o), row.avgPrice.value, Recon(o, row.filledQty),
                           p);
    }
  }

  lemma {:induction false} ReconcileAllExecutions(db: Db, ids: seq<nat>, rows: seq<BrokerRow>, n: nat, p: nat)
    requires n <= |ids| && p < |db.orders| && forall o :: o in ids ==> o < |db.orders|
    requires forall i, j :: 0 <= i < j < |ids| ==> ids[i] != ids[j]
    ensures var found := FindRow(rows, db.orders[p].brokerOrderId);
      ExecutionsOf(ReconcileAll(db, ids, rows, n).execs, p)
      == ExecutionsOf(db.execs, p) + (if p in ids[..n] && found.Some? then Added(db, p, found.value) else [])
  {
    hide ReconcileOrder, FindRow, SumExecuted, ExecutionsOf, ValidTransitions;
    if n == 0 {
      assert ExecutionsOf(db.execs, p) + [] == ExecutionsOf(db.execs, p);
    } else {
      var was, o := ReconcileAll(db, ids, rows, n - 1), ids[n - 1];
      assert o in ids && ids[..n] == ids[..n - 1] + [o];
      assert o !in ids[..n - 1];
      ReconcileAllExecutions(db, ids, rows, n - 1, p);
      ReconcileAllEffect(db, ids, rows, n - 1, p);
      ReconcileOrderExecutions(was, o, rows, p);
    }
  }

  /** The order as a snapshot row leaves it. A filled or cancelled report ends any open order; a partial fill or a
      rejection is taken from a submitted order only; anything else is ignored. */
  function Reported(r: Order, row: BrokerRow): Order {
    if row.status == Filled || row.status == Cancelled || (r.status == Submitted && row.status in {Partial, Rejected})
    then r.(status := row.status)
    else r
  }

  /** What one pass does to an open order, told by its own last row in the snapshot alone. */
  lemma PassByOwnRow(db: Db, account: nat, rows: seq<BrokerRow>, now: int, o: nat, id: BrokerId, i: nat)
    requires o < |db.orders| && db.orders[o].account == account && db.orders[o].status in {Submitted, Partial}
    requires db.orders[o].brokerOrderId == Some(id) && LastRowOf(rows, i, id)
    ensures var after := Pass(db, account, rows, now);
      && |after.orders| == |db.orders| && after.orders[o] == Reported(db.orders[o], rows[i])
      && ExecutionsOf(after.execs, o) == ExecutionsOf(db.execs, o) + Added(db, o, rows[i])
      && SumExecuted(after.execs, o) ==
           (if rows[i].avgPrice.Some? && rows[i].filledQty > SumExecuted(db.execs, o) then rows[i].filledQty
            else SumExecuted(db.execs, o))
  {
    FindsLast(rows, i, id);
    PassEffect(db, account, rows, now, o);
    PassExecutions(db, account, rows, now, o);
  }

  lemma PassExecutions(db: Db, account: nat, rows: seq<BrokerRow>, now: int, o: nat)
    requires o < |db.orders|
    ensures var found := FindRow(rows, db.orders[o].brokerOrderId);
      ExecutionsOf(Pass(db, account, rows, now).execs, o)
      == ExecutionsOf(db.execs, o)
          + (if IsOpen(db.orders[o], account) && found.Some? then Added(db, o, found.value) else [])
  {
    hide ReconcileAll, FindRow, SumExecuted, ExecutionsOf, Added;
    var ids := OpenOrders(db.orders, account, |db.orders|);
    OpenOrdersDistinct(db.orders, account, |db.orders|);
    assert ids[..|ids|] == ids;
    ReconcileAllExecutions(db, ids, rows, |ids|, o);
  }

  /** A snapshot without a row of the order's broker id, and any pass over another account, leaves it alone. */
  lemma PassWithoutRow(db: Db, account: nat, rows: seq<BrokerRow>, now: int, o: nat)
    requires o < |db.orders|
    requires || db.orders[o].account != account || db.orders[o].status !in {Submitted, Partial}
             || db.orders[o].brokerOrderId.None?
             || forall j :: 0 <= j < |rows| ==> rows[j].id != db.orders[o].brokerOrderId.value
    ensures var after := Pass(db, account, rows, now);
      && |after.orders| == |db.orders| && after.orders[o] == db.orders[o]
      && ExecutionsOf(after.execs, o) == ExecutionsOf(db.execs, o)
      && SumExecuted(after.execs, o) == SumExecuted(db.execs, o)
  {
    if IsOpen(db.orders[o], account) { FindsNothing(rows, db.orders[o].brokerOrderId); }
    hide Pass, FindRow, SumExecuted, ExecutionsOf, Added;
    PassEffect(db, account, rows, now, o);
    PassExecutions(db, account, rows, now, o);
  }

  /** A delta moves the position of the order's account and contract by the signed quantity at the row's price: up for
      a buy, down for a sale; and no other position. */
  lemma DeltaMovesPosition(db: Db, o: nat, row: BrokerRow, k: PosKey)
    requires o < |db.orders| && row.avgPrice.Some? && row.filledQty > SumExecuted(db.execs, o)
    ensures var r, delta := db.orders[o], row.filledQty - SumExecuted(db.execs, o);
      PositionAt(FillDelta(db, o, row).positions, k) ==
        if k.account == r.account && k.instr == r.ticket.instr
        then NetPosition(PositionAt(db.positions, k), if r.ticket.side.Buy? then delta else -delta, row.avgPrice.value)
        else PositionAt(db.positions, k)
  {
    hide SumExecuted;
    var r, delta := db.orders[o], row.filledQty - SumExecuted(db.execs, o);
    var at := PosKey(r.account, r.ticket.instr);
    NetFlat(PositionAt(db.positions, at), SignedFill(r.ticket, delta), row.avgPrice.value);
    hide NetPosition;
    UpsertReads(db.positions, at,
        NetPosition(PositionAt(db.positions, at), SignedFill(r.ticket, delta), row.avgPrice.value), k);
  }

  // ---- repeating a pass ----

  /** Nothing in the snapshot is news for this order. */
  predicate Settled(db: Db, o: nat, rows: seq<BrokerRow>)
    requires o < |db.orders|
  {
    var found := FindRow(rows, db.orders[o].brokerOrderId);
    found.Some? ==>
      && (found.value.avgPrice.Some? ==> found.value.filledQty <= SumExecuted(db.execs, o))
      && found.value.status !in ValidTransitions(db.orders[o].status)
  }

  lemma {:induction false} SettledFixpoint(db: Db, ids: seq<nat>, rows: seq<BrokerRow>, n: nat)
    requires n <= |ids| && forall o :: o in ids ==> o < |db.orders| && Settled(db, o, rows)
    ensures ReconcileAll(db, ids, rows, n) == db
  {
    hide ValidTransitions, FindRow, SumExecuted;
    if n > 0 {
      SettledFixpoint(db, ids, rows, n - 1);
      assert ids[n - 1] in ids;
      assert Settled(db, ids[n - 1], rows);
    }
  }

  /** Repeating a pass on the same snapshot changes no execution, position, status or audit row: only the stamp. */
  lemma PassIdempotent(db: Db, account: nat, rows: seq<BrokerRow>, first: int, second: int)
    ensures var once := Pass(db, account, rows, first);
      Pass(once, account, rows, second) == once.(reconciledAt := once.reconciledAt[account := second])
  {
    hide ReconcileAll, FindRow, SumExecuted, ValidTransitions;
    var once := Pass(db, account, rows, first);
    if |db.orders| > 0 { PassEffect(db, account, rows, first, 0); }
    var ids := OpenOrders(once.orders, account, |once.orders|);
    assert |once.orders| == |db.orders|;
    forall o | o in ids ensures Settled(once, o, rows) {
      PassEffect(db, account, rows, first, o);
      NotSelf(once.orders[o].status);
      assert IsOpen(db.orders[o], account);
    }
    SettledFixpoint(once, ids, rows, |ids|);
  }
}
