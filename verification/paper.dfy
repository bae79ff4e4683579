/** `PaperBrokerAdapter`: deterministic mark-price fills, and what every run of them conserves. */
module Paper {
  import opened Numbers
  import opened Positions
  import opened Orders
  import opened MapSums

  /** What the service submits an order under: the client's key, or else the order's own id. */
  datatype SubmitKey = ClientKey(text: string) | OrderKey(id: nat)

  datatype BookStatus = Open | FilledAt(price: real) | CancelledOrder

  datatype BookOrder = BookOrder(ticket: Ticket, status: BookStatus)

  datatype BrokerFill = BrokerFill(orderId: nat, execId: nat, qty: int, price: real)

  /** Everything the adapter holds. Order and execution ids are drawn from one counter. */
  datatype Book = Book(
    cash: real, seqNo: nat, orders: map<nat, BookOrder>, idem: map<SubmitKey, nat>,
    positions: map<Instrument, Pos>, fills: seq<BrokerFill>)

  function NewBook(cash: real): Book { Book(cash, 0, map[], map[], map[], []) }

  /** Signed cash value of a quantity of an instrument at a price. */
  function Money(i: Instrument, qty: int, price: real): real { Times(Multiplier(i) * qty, price) }

  function ApplyFill(b: Book, boid: nat, t: Ticket, price: real): Book {
    b.(cash := b.cash - Money(t.instr, SignedQty(t), price),
       seqNo := b.seqNo + 1,
       positions := Upsert(b.positions, t.instr, NetPosition(PositionAt(b.positions, t.instr), SignedQty(t), price)),
       fills := b.fills + [BrokerFill(boid, b.seqNo + 1, t.qty, price)])
  }

  function Submit(b: Book, t: Ticket, key: SubmitKey, mark: real): Book
    requires Priced(t)
  {
    if key in b.idem then b
    else
      var boid := b.seqNo + 1;
      var c := b.(seqNo := boid);
      var d := match Marketable(t, mark)
        case Some(price) =>
          var e := ApplyFill(c, boid, t, price);
          e.(orders := e.orders[boid := BookOrder(t, FilledAt(price))])
        case None =>
          c.(orders := c.orders[boid := BookOrder(t, if t.tif.Ioc? || t.tif.Fok? then CancelledOrder else Open)]);
      d.(idem := d.idem[key := boid])
  }

  function Cancel(b: Book, boid: nat): Book {
    if boid in b.orders && b.orders[boid].status.Open? then
      b.(orders := b.orders[boid := b.orders[boid].(status := CancelledOrder)])
    else b
  }

  datatype BrokerPosition = BrokerPosition(instr: Instrument, qty: int, avg: real, marketValue: real,
        unrealizedPnl: real)

  /** One marked position. */
  function Reported(k: Instrument, p: Pos, mark: Instrument -> real): BrokerPosition {
    BrokerPosition(k, p.qty, p.avg, Money(k, p.qty, mark(k)), Money(k, p.qty, mark(k) - p.avg))
  }

  class PaperBroker {
    var cash: real
    var seqNo: nat
    var orders: map<nat, BookOrder>
    var idem: map<SubmitKey, nat>
    var positions: map<Instrument, Pos>
    var fills: seq<BrokerFill>

    ghost function View(): Book
      reads this
    {
      Book(cash, seqNo, orders, idem, positions, fills)
    }

    constructor (startingCash: real)
      ensures View() == NewBook(startingCash)
    {
      cash, seqNo, orders, idem, positions, fills := startingCash, 0, map[], map[], map[], [];
    }

    method AddPosition(t: Ticket, signed: int, price: real)
      modifies this`positions
      ensures positions
        == Upsert(old(positions), t.instr, NetPosition(PositionAt(old(positions), t.instr), signed, price))
    {
      var pos := if t.instr in positions then positions[t.instr] else FLAT;
      pos := NetPosition(pos, signed, price);
      if pos.qty == 0 {
        positions := positions - {t.instr};
      } else {
        positions := positions[t.instr := pos];
      }
    }

    method ApplyTicketFill(boid: nat, t: Ticket, price: real)
      modifies this
      ensures View() == ApplyFill(old(View()), boid, t, price)
    {
      var notional := Times(t.qty * Multiplier(t.instr), price);
      NotionalIsMoney(t, price);
      cash := cash + (if t.side.Buy? then -notional else notional);
      AddPosition(t, if t.side.Buy? then t.qty else -t.qty, price);
      seqNo := seqNo + 1;
      fills := fills + [BrokerFill(boid, seqNo, t.qty, price)];
    }

    method SubmitOrder(t: Ticket, key: SubmitKey, mark: real) returns (boid: nat)
      requires Priced(t)
      modifies this
      ensures View() == Submit(old(View()), t, key, mark)
      ensures key in idem && boid == idem[key]
    {
      if key in idem { return idem[key]; }
      seqNo := seqNo + 1;
      boid := seqNo;
      var fill := Marketable(t, mark);
      if fill.Some? {
        ApplyTicketFill(boid, t, fill.value);
        orders := orders[boid := BookOrder(t, FilledAt(fill.value))];
      } else if t.tif.Ioc? || t.tif.Fok? {
        orders := orders[boid := BookOrder(t, CancelledOrder)];
      } else {
        orders := orders[boid := BookOrder(t, Open)];
      }
      idem := idem[key := boid];
    }

    method CancelOrder(boid: nat) returns (done: bool)
      modifies this`orders
      ensures View() == Cancel(old(View()), boid)
      ensures done <==> boid in old(orders) && old(orders)[boid].status.Open?
    {
      done := boid in orders && orders[boid].status.Open?;
      if done {
        orders := orders[boid := orders[boid].(status := CancelledOrder)];
      }
    }

    /** Marks every open position. The dictionary's order is not modelled; the totals do not depend on it. */
    method GetPositions(mark: Instrument -> real) returns (out: seq<BrokerPosition>)
      ensures ReportedValue(out) == Total(MarketValues(positions, mark))
      ensures ReportedPnl(out) == Total(UnrealizedPnls(positions, mark))
      ensures |out| == |positions| && forall e :: e in out <==>
        e.instr in positions && e == Reported(e.instr, positions[e.instr], mark)
    {
      hide Times, Multiplier, Total, MarketValues, UnrealizedPnls, Only, Money;
      out := [];
      var rest := positions.Keys;
      NothingLeftOut(positions, mark);
      while rest != {}
        invariant rest <= positions.Keys
        invariant |out| + |rest| == |positions.Keys|
        invariant forall e :: e in out <==>
          e.instr in positions.Keys - rest && e == Reported(e.instr, positions[e.instr], mark)
        invariant ReportedValue(out) + Total(MarketValues(Only(positions, rest), mark))
          == Total(MarketValues(positions, mark))
        invariant ReportedPnl(out) + Total(UnrealizedPnls(Only(positions, rest), mark))
          == Total(UnrealizedPnls(positions, mark))
        decreases rest
      {
        var k :| k in rest;
        var p := positions[k];
        out := out + [Reported(k, p, mark)];
        SplitOff(positions, rest, k, mark);
        rest := rest - {k};
      }
    }
  }

  function ReportedValue(out: seq<BrokerPosition>): real {
    if out == [] then 0.0 else ReportedValue(out[..|out| - 1]) + out[|out| - 1].marketValue
  }

  function ReportedPnl(out: seq<BrokerPosition>): real {
    if out == [] then 0.0 else ReportedPnl(out[..|out| - 1]) + out[|out| - 1].unrealizedPnl
  }

  lemma NothingLeftOut(positions: map<Instrument, Pos>, mark: Instrument -> real)
    ensures Only(positions, positions.Keys) == positions
    ensures Total(MarketValues(Only(positions, {}), mark)) == 0.0 == Total(UnrealizedPnls(Only(positions, {}), mark))
  {
    assert Only(positions, positions.Keys) == positions;
  }

  lemma NotionalIsMoney(t: Ticket, price: real)
    ensures var notional := Times(t.qty * Multiplier(t.instr), price);
      Money(t.instr, SignedQty(t), price) == if t.side.Buy? then notional else -notional
  {
    hide Times;
    var n := t.qty * Multiplier(t.instr);
    TimesNeg(n, price);
    assert Multiplier(t.instr) * -t.qty == -n;
  }

  // ---- totals over the open positions ----

  ghost function Only(positions: map<Instrument, Pos>, keys: set<Instrument>): map<Instrument, Pos> {
    map k | k in keys && k in positions :: positions[k]
  }

  ghost function MarketValues(positions: map<Instrument, Pos>, mark: Instrument -> real): map<Instrument, real> {
    map k | k in positions :: Money(k, positions[k].qty, mark(k))
  }

  ghost function UnrealizedPnls(positions: map<Instrument, Pos>, mark: Instrument -> real): map<Instrument, real> {
    map k | k in positions :: Money(k, positions[k].qty, mark(k) - positions[k].avg)
  }

  ghost function Bases(positions: map<Instrument, Pos>): map<Instrument, real> {
    map k | k in positions :: Money(k, positions[k].qty, positions[k].avg)
  }

  lemma SplitOff(positions: map<Instrument, Pos>, rest: set<Instrument>, k: Instrument, mark: Instrument -> real)
    requires k in rest && rest <= positions.Keys
    ensures Total(MarketValues(Only(positions, rest), mark))
         == Money(k, positions[k].qty, mark(k)) + Total(MarketValues(Only(positions, rest - {k}), mark))
    ensures Total(UnrealizedPnls(Only(positions, rest), mark))
         == Money(k, positions[k].qty, mark(k) - positions[k].avg)
             + Total(UnrealizedPnls(Only(positions, rest - {k}), mark))
  {
    hide Money;
    TotalRemove(MarketValues(Only(positions, rest), mark), k);
    TotalRemove(UnrealizedPnls(Only(positions, rest), mark), k);
    assert MarketValues(Only(positions, rest), mark) - {k} == MarketValues(Only(positions, rest - {k}), mark);
    assert UnrealizedPnls(Only(positions, rest), mark) - {k} == UnrealizedPnls(Only(positions, rest - {k}), mark);
  }

  // ---- conservation over runs ----

  datatype PaperEvent = SubmitEvent(ticket: Ticket, key: SubmitKey, mark: real) | CancelEvent(boid: nat)

  predicate Submittable(e: PaperEvent) { e.SubmitEvent? ==> Priced(e.ticket) }

  predicate AllSubmittable(es: seq<PaperEvent>) { forall e :: e in es ==> Submittable(e) }

  function Step(b: Book, e: PaperEvent): Book
    requires Submittable(e)
  {
    match e
    case SubmitEvent(t, key, mark) => Submit(b, t, key, mark)
    case CancelEvent(boid) => Cancel(b, boid)
  }

  function Run(b: Book, es: seq<PaperEvent>): Book
    requires AllSubmittable(es)
  {
    if es == [] then b else Step(Run(b, es[..|es| - 1]), es[|es| - 1])
  }

  lemma {:induction false} RunConcat(b: Book, xs: seq<PaperEvent>, ys: seq<PaperEvent>)
    requires AllSubmittable(xs) && AllSubmittable(ys)
    ensures AllSubmittable(xs + ys) && Run(b, xs + ys) == Run(Run(b, xs), ys)
  {
    hide Step, Submittable;
    if ys == [] {
      assert xs + ys == xs;
    } else {
      var n := |ys| - 1;
      assert (xs + ys)[..|xs| + n] == xs + ys[..n];
      RunConcat(b, xs, ys[..n]);
    }
  }

  /** Gain realised by one event, in money. */
  function Gain(b: Book, e: PaperEvent): real
    requires Submittable(e)
  {
    if e.CancelEvent? || e.key in b.idem || Marketable(e.ticket, e.mark).None? then 0.0
    else
      var t := e.ticket;
      Times(Multiplier(t.instr), Realised(PositionAt(b.positions, t.instr), SignedQty(t), Marketable(t, e.mark).value))
  }

  function Gains(b: Book, es: seq<PaperEvent>): real
    requires AllSubmittable(es)
  {
    if es == [] then 0.0 else Gains(b, es[..|es| - 1]) + Gain(Run(b, es[..|es| - 1]), es[|es| - 1])
  }

  ghost predicate NormalPositions(positions: map<Instrument, Pos>) {
    forall k :: k in positions ==> positions[k].qty != 0
  }

  lemma TimesNest(m: int, n: int, x: real)
    ensures Times(m * n, x) == Times(m, Times(n, x))
  {
    var a, b := m as real, n as real;
    assert (m * n) as real == a * b;
    assert (a * b) * x == a * (b * x);
  }

  lemma StoreBasis(positions: map<Instrument, Pos>, i: Instrument, p: Pos)
    requires Normal(p)
    ensures Total(Bases(Upsert(positions, i, p)))
         == Total(Bases(positions)) - Money(i, PositionAt(positions, i).qty, PositionAt(positions, i).avg)
             + Money(i, p.qty, p.avg)
  {
    hide Times;
    var m, after := Bases(positions), Upsert(positions, i, p);
    TimesNeg(0, 0.0);
    if i in positions { TotalRemove(m, i); } else { assert m - {i} == m; }
    if p.qty == 0 {
      assert Bases(after) == m - {i};
    } else {
      TotalUpdate(m, i, Money(i, p.qty, p.avg));
      assert Bases(after) == m[i := Money(i, p.qty, p.avg)];
    }
  }

  lemma HeldNormal(positions: map<Instrument, Pos>, i: Instrument)
    requires NormalPositions(positions)
    ensures Normal(PositionAt(positions, i))
  {
  }

  /** One fill: cash plus basis grows by exactly what it realises. */
  lemma FillKeepsValue(b: Book, boid: nat, t: Ticket, price: real)
    requires NormalPositions(b.positions)
    ensures var c := ApplyFill(b, boid, t, price); var m := Multiplier(t.instr);
      && NormalPositions(c.positions)
      && c.cash + Total(Bases(c.positions)) == b.cash + Total(Bases(b.positions))
           + Times(m, Realised(PositionAt(b.positions, t.instr), SignedQty(t), price))
  {
    hide Times, Total, NetPosition, Realised, Multiplier;
    var p, d, m := PositionAt(b.positions, t.instr), SignedQty(t), Multiplier(t.instr);
    var q := NetPosition(p, d, price);
    HeldNormal(b.positions, t.instr);
    FillConserves(p, d, price);
    StoreBasis(b.positions, t.instr, q);
    TimesNest(m, p.qty, p.avg);
    TimesNest(m, q.qty, q.avg);
    TimesNest(m, d, price);
    TimesSum3(m, Basis(p), Times(d, price), Realised(p, d, price));
  }

  lemma TimesSum3(m: int, x: real, y: real, z: real)
    ensures Times(m, x + y + z) == Times(m, x) + Times(m, y) + Times(m, z)
  {
    hide Mul;
    MulAdd(x + y, z, m as real);
    MulAdd(x, y, m as real);
  }

  /** Over any run of submissions and cancellations, cash plus the open positions' cost basis is the starting
      value plus everything realised: across adds, partial closes, flats and crossings. */
  lemma {:induction false} RunConserves(b: Book, es: seq<PaperEvent>)
    requires NormalPositions(b.positions) && AllSubmittable(es)
    ensures var c := Run(b, es);
      && NormalPositions(c.positions)
      && c.cash + Total(Bases(c.positions)) == b.cash + Total(Bases(b.positions)) + Gains(b, es)
  {
    hide Times, Total, NetPosition, Realised, Multiplier, Bases, Marketable, Money, SignedQty;
    if es != [] {
      var e, c := es[|es| - 1], Run(b, es[..|es| - 1]);
      assert e in es;
      RunConserves(b, es[..|es| - 1]);
      if e.SubmitEvent? && e.key !in c.idem && Marketable(e.ticket, e.mark).Some? {
        FillKeepsValue(c.(seqNo := c.seqNo + 1), c.seqNo + 1, e.ticket, Marketable(e.ticket, e.mark).value);
      }
    }
  }

  /** Marked equity of any run is starting cash, plus realised gains, plus the unrealised P&L that
      get_positions reports. */
  lemma MarkedEquity(cash: real, es: seq<PaperEvent>, mark: Instrument -> real)
    requires AllSubmittable(es)
    ensures var b := Run(NewBook(cash), es);
      b.cash + Total(MarketValues(b.positions, mark))
          == cash + Gains(NewBook(cash), es) + Total(UnrealizedPnls(b.positions, mark))
  {
    hide Run, Gains, Times;
    var b := Run(NewBook(cash), es);
    RunConserves(NewBook(cash), es);
    assert Bases(NewBook(cash).positions) == map[];
    TotalEmpty<Instrument>();
    forall k | k in b.positions
      ensures MarketValues(b.positions, mark)[k] == Bases(b.positions)[k] + UnrealizedPnls(b.positions, mark)[k]
    {
      TimesSub(Multiplier(k) * b.positions[k].qty, mark(k), b.positions[k].avg);
    }
    TotalAdd(Bases(b.positions), UnrealizedPnls(b.positions, mark), MarketValues(b.positions, mark));
  }
}
