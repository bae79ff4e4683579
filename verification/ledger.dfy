/** The order-management tables as one value: the row operations every request is made of, and the invariant
    each of them keeps. One tenant; order ids are positions in the orders table. */
module Ledger {
  import opened Wrappers
  import opened Numbers
  import opened Positions
  import opened Orders

  datatype BrokerId = PaperId(n: nat) | LiveId(text: string)

  datatype Order = Order(
    account: nat, ticket: Ticket, status: Status, brokerOrderId: Option<BrokerId>,
    idemKey: Option<string>, rejectCode: Option<Code>)

  /** `pe-{order}` for a paper fill, `recon:{order}:{cumulative}` for a reconciled one. */
  datatype ExecKey = PaperExec(orderId: nat) | Recon(orderId: nat, cumulative: int)

  datatype Execution = Execution(orderId: nat, account: nat, qty: int, price: real, commission: real, key: ExecKey)

  datatype AuditRow = AuditRow(orderId: nat, before: Option<Status>, after: Status)

  datatype PosKey = PosKey(account: nat, instr: Instrument)

  datatype Db = Db(
    orders: seq<Order>, execs: seq<Execution>, positions: map<PosKey, Pos>, audit: seq<AuditRow>,
    reconciledAt: map<nat, int>)

  // ---- queries ----

  function SumExecuted(execs: seq<Execution>, o: nat): int {
    if execs == [] then 0
    else SumExecuted(execs[..|execs| - 1], o) + (if execs[|execs| - 1].orderId == o then execs[|execs| - 1].qty else 0)
  }

  /** The SQL multiplier: tests for NULL, not for truthiness. */
  function SqlMultiplier(i: Instrument): int { if i.optionType.Some? then 100 else 1 }

  function ExecutionCash(e: Execution, t: Ticket): real {
    Times((if t.side.Buy? then -1 else 1) * e.qty * SqlMultiplier(t.instr), e.price) - e.commission
  }

  /** Executions refer to rows of the orders table. */
  predicate Joined(orders: seq<Order>, execs: seq<Execution>) {
    forall e :: e in execs ==> e.orderId < |orders|
  }

  /** The balance query's sum over executions joined with orders. */
  function CashFlow(orders: seq<Order>, execs: seq<Execution>, account: nat): real
    requires Joined(orders, execs)
  {
    if execs == [] then 0.0
    else
      var e := execs[|execs| - 1];
      CashFlow(orders, execs[..|execs| - 1], account)
      + (if e.account == account then ExecutionCash(e, orders[e.orderId].ticket) else 0.0)
  }

  /** The position an instrument's executions fold to. */
  function FoldAt(orders: seq<Order>, execs: seq<Execution>, k: PosKey): Pos
    requires Joined(orders, execs)
  {
    if execs == [] then FLAT
    else
      var e := execs[|execs| - 1];
      var p := FoldAt(orders, execs[..|execs| - 1], k);
      if PosKey(e.account, orders[e.orderId].ticket.instr) == k
      then NetPosition(p, SignedFill(orders[e.orderId].ticket, e.qty), e.price)
      else p
  }

  function Trail(audit: seq<AuditRow>, o: nat): seq<Status> {
    if audit == [] then []
    else Trail(audit[..|audit| - 1], o) + (if audit[|audit| - 1].orderId == o then [audit[|audit| - 1].after] else [])
  }

  /** An order's statuses as its audit rows say, read from pending. */
  function History(audit: seq<AuditRow>, o: nat): seq<Status> { [Pending] + Trail(audit, o) }

  function FirstAudit(audit: seq<AuditRow>, o: nat): Option<AuditRow> {
    if audit == [] then None
    else
      var before := FirstAudit(audit[..|audit| - 1], o);
      if before.None? && audit[|audit| - 1].orderId == o then Some(audit[|audit| - 1]) else before
  }

  /** The statuses order o really had: a row is inserted pending, unless its first audit row says it was inserted
      rejected. */
  function StatusHistory(audit: seq<AuditRow>, o: nat): seq<Status> {
    if FirstAudit(audit, o) == Some(AuditRow(o, None, Rejected)) then Trail(audit, o) else History(audit, o)
  }

  // ---- row operations ----

  function AddOrder(db: Db, row: Order): Db { db.(orders := db.orders + [row]) }

  function AddRejected(db: Db, row: Order): Db {
    db.(orders := db.orders + [row], audit := db.audit + [AuditRow(|db.orders|, None, Rejected)])
  }

  /** update_order together with the audit row that follows it. */
  function SetStatus(db: Db, o: nat, row: Order, before: Option<Status>): Db
    requires o < |db.orders|
  {
    db.(orders := db.orders[o := row], audit := db.audit + [AuditRow(o, before, row.status)])
  }

  /** insert_execution, net_position and upsert_position, as both fill paths run them. */
  function RecordFill(db: Db, o: nat, qty: int, price: real, key: ExecKey): Db
    requires o < |db.orders|
  {
    var row := db.orders[o];
    var k := PosKey(row.account, row.ticket.instr);
    db.(execs := db.execs + [Execution(o, row.account, qty, price, 0.0, key)],
        positions := Upsert(db.positions, k,
            NetPosition(PositionAt(db.positions, k), SignedFill(row.ticket, qty), price)))
  }

  // ---- invariant ----

  /** The CHECK constraints on orders. */
  predicate ChecksHold(t: Ticket) {
    t.qty > 0 && !t.side.OtherSide? && !t.orderType.OtherType? && !t.tif.OtherTif?
  }

  predicate KeyOk(execs: seq<Execution>, i: nat)
    requires i < |execs|
  {
    match execs[i].key
    case PaperExec(o) => o == execs[i].orderId && SumExecuted(execs[..i], o) == 0
    case Recon(o, cumulative) => o == execs[i].orderId && cumulative == SumExecuted(execs[..i + 1], o)
  }

  ghost predicate ExecutionsOk(db: Db) {
    && Joined(db.orders, db.execs)
    && (forall e :: e in db.execs ==> e.qty > 0 && e.account == db.orders[e.orderId].account && e.commission == 0.0)
    && (forall i :: 0 <= i < |db.execs| ==> KeyOk(db.execs, i))
  }

  /** Every stored position is open and is the fold of its executions; every other fold is flat. */
  ghost predicate PositionsOk(db: Db)
    requires Joined(db.orders, db.execs)
  {
    && (forall k :: k in db.positions ==> db.positions[k].qty != 0)
    && (forall k :: PositionAt(db.positions, k) == FoldAt(db.orders, db.execs, k))
  }

  /** Each order's audit rows are a legal path that ends in its status. */
  ghost predicate TrailOk(db: Db) {
    && (forall row :: row in db.audit ==> row.orderId < |db.orders|)
    && (forall o :: 0 <= o < |db.orders| ==> OrderTrailOk(db, o))
  }

  ghost predicate OrderTrailOk(db: Db, o: nat)
    requires o < |db.orders|
  {
    var h := History(db.audit, o);
    IsPath(h) && h[|h| - 1] == db.orders[o].status
  }

  /** The before-state an audit row gives is the order's status at that moment, or else it is the wrong `cancelled`. */
  ghost predicate BeforeOk(audit: seq<AuditRow>, i: nat)
    requires i < |audit|
  {
    var h, row := History(audit[..i], audit[i].orderId), audit[i];
    row.before.Some? ==> (row.before.value == h[|h| - 1] <==> row.before.value != Cancelled)
  }

  ghost predicate AuditOk(audit: seq<AuditRow>) { forall i :: 0 <= i < |audit| ==> BeforeOk(audit, i) }

  ghost predicate RowsOk(db: Db) {
    && (forall r :: r in db.orders ==> ChecksHold(r.ticket))
    && (forall i, j :: 0 <= i < j < |db.orders| && db.orders[i].idemKey.Some? ==>
       db.orders[i].idemKey != db.orders[j].idemKey)
  }

  ghost predicate Inv(db: Db) {
    ExecutionsOk(db) && PositionsOk(db) && TrailOk(db) && AuditOk(db.audit) && RowsOk(db)
  }

  const EMPTY := Db([], [], map[], [], map[])

  lemma EmptyInv()
    ensures Inv(EMPTY)
  {
  }

  // ---- frames ----

  predicate SameTickets(was: seq<Order>, now: seq<Order>) {
    |was| <= |now| && forall i :: 0 <= i < |was| ==> now[i].ticket == was[i].ticket && now[i].account == was[i].account
  }

  lemma {:induction false} FoldFrame(was: seq<Order>, now: seq<Order>, execs: seq<Execution>, k: PosKey)
    requires Joined(was, execs) && SameTickets(was, now)
    ensures Joined(now, execs) && FoldAt(now, execs, k) == FoldAt(was, execs, k)
  {
    if execs != [] { FoldFrame(was, now, execs[..|execs| - 1], k); }
  }

  lemma {:induction false} CashFrame(was: seq<Order>, now: seq<Order>, execs: seq<Execution>, account: nat)
    requires Joined(was, execs) && SameTickets(was, now)
    ensures Joined(now, execs) && CashFlow(now, execs, account) == CashFlow(was, execs, account)
  {
    hide Times;
    if execs != [] {
      assert execs[|execs| - 1] in execs;
      CashFrame(was, now, execs[..|execs| - 1], account);
    }
  }

  lemma {:induction false} SumNonNegative(execs: seq<Execution>, o: nat)
    requires forall e :: e in execs ==> e.qty > 0
    ensures SumExecuted(execs, o) >= 0
  {
    if execs != [] { SumNonNegative(execs[..|execs| - 1], o); }
  }

  lemma {:induction false} SumGrows(execs: seq<Execution>, o: nat, i: nat, j: nat)
    requires i <= j <= |execs| && forall e :: e in execs ==> e.qty > 0
    ensures SumExecuted(execs[..i], o) <= SumExecuted(execs[..j], o)
    decreases j
  {
    if i < j {
      SumGrows(execs, o, i, j - 1);
      assert execs[..j][..j - 1] == execs[..j - 1];
    }
  }

  lemma SumStep(execs: seq<Execution>, i: nat)
    requires i < |execs|
    ensures SumExecuted(execs[..i + 1], execs[i].orderId) == SumExecuted(execs[..i], execs[i].orderId) + execs[i].qty
  {
    assert execs[..i + 1][..i] == execs[..i];
  }

  /** The unique index on execution keys can never be violated: an order's cumulative keys strictly increase,
      and it has at most one paper key. */
  lemma ExecutionKeysDistinct(db: Db, i: nat, j: nat)
    requires ExecutionsOk(db) && i < j < |db.execs|
    ensures db.execs[i].key != db.execs[j].key
    ensures db.execs[i].key.Recon? && db.execs[j].key.Recon? && db.execs[i].orderId == db.execs[j].orderId
        ==> db.execs[i].key.cumulative < db.execs[j].key.cumulative
  {
    var a, b := db.execs[i], db.execs[j];
    assert KeyOk(db.execs, i) && KeyOk(db.execs, j);
    assert a in db.execs && b in db.execs;
    if a.orderId == b.orderId {
      SumStep(db.execs, i);
      SumStep(db.execs, j);
      SumGrows(db.execs, a.orderId, i + 1, j);
      SumNonNegative(db.execs[..i], a.orderId);
    }
  }

  // ---- each row operation keeps the invariant ----

  lemma {:induction false} NoTrail(audit: seq<AuditRow>, o: nat)
    requires forall row :: row in audit ==> row.orderId < o
    ensures Trail(audit, o) == []
  {
    if audit != [] {
      assert audit[|audit| - 1] in audit;
      NoTrail(audit[..|audit| - 1], o);
    }
  }

  lemma TrailSnoc(audit: seq<AuditRow>, row: AuditRow, o: nat)
    ensures History(audit + [row], o) == History(audit, o) + (if row.orderId == o then [row.after] else [])
  {
    assert (audit + [row])[..|audit|] == audit;
  }

  lemma AuditSnoc(audit: seq<AuditRow>, row: AuditRow)
    requires AuditOk(audit)
    requires var h := History(audit, row.orderId);
      row.before.Some? ==> (row.before.value == h[|h| - 1] <==> row.before.value != Cancelled)
    ensures AuditOk(audit + [row])
  {
    hide History;
    var all := audit + [row];
    forall i | 0 <= i < |all| ensures BeforeOk(all, i) {
      if i < |audit| {
        assert BeforeOk(audit, i) && all[..i] == audit[..i];
      } else {
        assert all[..i] == audit;
      }
    }
  }

  lemma PathSnoc(h: seq<Status>, s: Status)
    requires h != [] && IsPath(h) && s in ValidTransitions(h[|h| - 1])
    ensures IsPath(h + [s])
  {
  }

  predicate KeyFree(orders: seq<Order>, key: Option<string>) {
    key.Some? ==> forall r :: r in orders ==> r.idemKey != key
  }

  lemma NewRowKeeps(db: Db, now: Db, row: Order)
    requires Inv(db) && now.orders == db.orders + [row]
    requires now.execs == db.execs && now.positions == db.positions
    requires ChecksHold(row.ticket) && KeyFree(db.orders, row.idemKey)
    ensures ExecutionsOk(now) && PositionsOk(now) && RowsOk(now)
  {
    hide NetPosition;
    assert SameTickets(db.orders, now.orders);
    forall k ensures Joined(now.orders, now.execs)
      && FoldAt(now.orders, now.execs, k) == FoldAt(db.orders, db.execs, k) {
      FoldFrame(db.orders, now.orders, db.execs, k);
    }
    assert forall r :: r in now.orders ==> r in db.orders || r == row;
    assert forall i :: 0 <= i < |db.orders| ==> db.orders[i] in db.orders;
  }

  lemma AddOrderKeeps(db: Db, row: Order)
    requires Inv(db) && row.status == Pending && ChecksHold(row.ticket) && KeyFree(db.orders, row.idemKey)
    ensures Inv(AddOrder(db, row))
  {
    var now := AddOrder(db, row);
    NewRowKeeps(db, now, row);
    NoTrail(db.audit, |db.orders|);
    forall o | 0 <= o < |now.orders| ensures OrderTrailOk(now, o) {
      if o < |db.orders| { assert OrderTrailOk(db, o); }
    }
  }

  lemma AddRejectedKeeps(db: Db, row: Order)
    requires Inv(db) && row.status == Rejected && ChecksHold(row.ticket) && KeyFree(db.orders, row.idemKey)
    ensures Inv(AddRejected(db, row))
  {
    hide ExecutionsOk, PositionsOk, RowsOk, ChecksHold, AuditOk, TrailOk;
    AuditSnoc(db.audit, AuditRow(|db.orders|, None, Rejected));
    NewRowKeeps(db, AddRejected(db, row), row);
    AddRejectedTrail(db, row);
  }

  lemma AddRejectedTrail(db: Db, row: Order)
    requires TrailOk(db) && row.status == Rejected
    ensures TrailOk(AddRejected(db, row))
  {
    hide OrderTrailOk;
    var now := AddRejected(db, row);
    forall o | 0 <= o < |now.orders| ensures OrderTrailOk(now, o) { RejectedTrailAt(db, row, o); }
  }

  lemma RejectedTrailAt(db: Db, row: Order, o: nat)
    requires TrailOk(db) && row.status == Rejected && o <= |db.orders|
    ensures OrderTrailOk(AddRejected(db, row), o)
  {
    var n := |db.orders|;
    TrailSnoc(db.audit, AuditRow(n, None, Rejected), o);
    NoTrail(db.audit, n);
    assert History(db.audit, n) == [Pending];
    PathSnoc([Pending], Rejected);
    hide History, IsPath, ValidTransitions;
    assert o < n ==> OrderTrailOk(db, o);
  }

  /** The row keeps everything but its status, its broker id and its reject code. */
  predicate SameIdentity(was: Order, now: Order) {
    now.ticket == was.ticket && now.account == was.account && now.idemKey == was.idemKey
  }

  lemma SetStatusKeeps(db: Db, o: nat, row: Order, before: Option<Status>)
    requires Inv(db) && o < |db.orders| && SameIdentity(db.orders[o], row)
    requires row.status in ValidTransitions(db.orders[o].status)
    requires before.Some? ==> (before.value == db.orders[o].status <==> before.value != Cancelled)
    ensures Inv(SetStatus(db, o, row, before))
  {
    hide NetPosition, ValidTransitions, AuditOk;
    var now := SetStatus(db, o, row, before);
    assert OrderTrailOk(db, o);
    AuditSnoc(db.audit, AuditRow(o, before, row.status));
    assert SameTickets(db.orders, now.orders);
    forall k ensures Joined(now.orders, now.execs)
      && FoldAt(now.orders, now.execs, k) == FoldAt(db.orders, db.execs, k) {
      FoldFrame(db.orders, now.orders, db.execs, k);
    }
    forall p | 0 <= p < |now.orders| ensures OrderTrailOk(now, p) {
      assert OrderTrailOk(db, p);
      TrailSnoc(db.audit, AuditRow(o, before, row.status), p);
      if p == o { PathSnoc(History(db.audit, p), row.status); }
    }
    forall r | r in now.orders ensures ChecksHold(r.ticket) {
      var i :| 0 <= i < |now.orders| && now.orders[i] == r;
      assert db.orders[i] in db.orders;
    }
  }

  lemma RecordFillKeeps(db: Db, o: nat, qty: int, price: real, key: ExecKey)
    requires Inv(db) && o < |db.orders| && qty > 0
    requires key == Recon(o, SumExecuted(db.execs, o) + qty) || (key == PaperExec(o) && SumExecuted(db.execs, o) == 0)
    ensures Inv(RecordFill(db, o, qty, price, key))
  {
    assert Joined(db.orders, db.execs);
    hide ExecutionsOk, PositionsOk, IsPath, ChecksHold;
    RecordFillKeys(db, o, qty, price, key);
    RecordFillFolds(db, o, qty, price, key);
    var now := RecordFill(db, o, qty, price, key);
    forall o2 | 0 <= o2 < |now.orders| ensures OrderTrailOk(now, o2) { assert OrderTrailOk(db, o2); }
  }

  lemma RecordFillKeys(db: Db, o: nat, qty: int, price: real, key: ExecKey)
    requires ExecutionsOk(db) && o < |db.orders| && qty > 0
    requires key == Recon(o, SumExecuted(db.execs, o) + qty) || (key == PaperExec(o) && SumExecuted(db.execs, o) == 0)
    ensures ExecutionsOk(RecordFill(db, o, qty, price, key))
  {
    hide NetPosition;
    var now, n := RecordFill(db, o, qty, price, key), |db.execs|;
    assert now.execs[..n] == db.execs && now.execs[..n + 1] == now.execs;
    forall i | 0 <= i < |now.execs| ensures KeyOk(now.execs, i) {
      if i < n { KeyPrefix(db.execs, now.execs, i); }
    }
  }

  lemma KeyPrefix(was: seq<Execution>, now: seq<Execution>, i: nat)
    requires i < |was| && was <= now && KeyOk(was, i)
    ensures KeyOk(now, i)
  {
    assert now[..i] == was[..i] && now[..i + 1] == was[..i + 1];
  }

  lemma RecordFillFolds(db: Db, o: nat, qty: int, price: real, key: ExecKey)
    requires Joined(db.orders, db.execs) && PositionsOk(db) && o < |db.orders|
    ensures var now := RecordFill(db, o, qty, price, key); Joined(now.orders, now.execs) && PositionsOk(now)
  {
    hide NetPosition;
    var now, row := RecordFill(db, o, qty, price, key), db.orders[o];
    assert now.execs[..|db.execs|] == db.execs;
    assert Joined(now.orders, now.execs);
    forall k ensures PositionAt(now.positions, k) == FoldAt(now.orders, now.execs, k) {
      assert PositionAt(db.positions, k) == FoldAt(db.orders, db.execs, k);
      var at := PosKey(row.account, row.ticket.instr);
      NetFlat(PositionAt(db.positions, at), SignedFill(row.ticket, qty), price);
      UpsertReads(db.positions, at, NetPosition(PositionAt(db.positions, at), SignedFill(row.ticket, qty), price), k);
    }
  }

  /** A flat result is stored by deleting the row, and reads back as flat. */
  lemma UpsertReads(positions: map<PosKey, Pos>, k: PosKey, p: Pos, j: PosKey)
    requires p.qty == 0 ==> p == FLAT
    ensures PositionAt(Upsert(positions, k, p), j) == if j == k then p else PositionAt(positions, j)
  {
  }

  lemma NetFlat(p: Pos, signed: int, price: real)
    ensures NetPosition(p, signed, price).qty == 0 ==> NetPosition(p, signed, price) == FLAT
  {
    hide Times;
  }

  /** The reconciliation stamp is no part of the invariant. */
  lemma StampKeeps(db: Db, stamps: map<nat, int>)
    requires Inv(db)
    ensures Inv(db.(reconciledAt := stamps))
  {
    hide IsPath, ChecksHold, FoldAt;
    var now := db.(reconciledAt := stamps);
    forall o | 0 <= o < |now.orders| ensures OrderTrailOk(now, o) { assert OrderTrailOk(db, o); }
  }

  // ---- what a fill does to sums and balances ----

  /** An execution's cash: quantity times price times 100 for option orders, out for a buy and in for a sale, and the
      commission always out. */
  lemma ExecutionCashIs(e: Execution, t: Ticket)
    ensures var lots := if t.instr.optionType.Some? then 100 * e.qty else e.qty;
      ExecutionCash(e, t) == (if t.side.Buy? then -Times(lots, e.price) else Times(lots, e.price)) - e.commission
  {
    hide Times;
    var lots := e.qty * SqlMultiplier(t.instr);
    TimesNeg(lots, e.price);
    assert -1 * e.qty * SqlMultiplier(t.instr) == -lots && 1 * e.qty * SqlMultiplier(t.instr) == lots;
  }

  lemma RecordFillSums(db: Db, o: nat, qty: int, price: real, key: ExecKey, p: nat)
    requires o < |db.orders|
    ensures SumExecuted(RecordFill(db, o, qty, price, key).execs, p)
      == SumExecuted(db.execs, p) + (if p == o then qty else 0)
  {
    hide NetPosition;
    var now := RecordFill(db, o, qty, price, key);
    assert now.execs[..|db.execs|] == db.execs;
  }

  function AccountBalance(db: Db, account: nat, startingCash: real): real
    requires Joined(db.orders, db.execs)
  {
    startingCash + CashFlow(db.orders, db.execs, account)
  }
}
