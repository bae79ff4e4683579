/** A paper account over every run of the service: placements and strategies, cancellations, and polls of other
    accounts. Its balance and positions stay in step with one long-lived paper broker. */
module PaperRuns {
  import opened Wrappers
  import opened Positions
  import opened Orders
  import opened MapSums
  import opened Ledger
  import opened Service
  import opened Reconcile
  import opened PaperLedger
  import R = Runs

  // ---- every request is a list of placements ----

  /** The placements of the first n legs; each leg's session outlives a rejection. */
  function LegPlacements(envs: nat -> Env, s: StrategyRequest, n: nat): seq<Placement>
    requires n <= |s.legs|
  {
    if n == 0 then []
    else
      LegPlacements(envs, s, n - 1)
      + (if s.legs[n - 1].OrderLeg? then [Placement(envs(n - 1), LegRequest(s, n - 1), true)] else [])
  }

  /** What an event places. A strategy that crashes is rolled back, so it places nothing. */
  function Placements(w: World, db: Db, e: R.Event): seq<Placement>
    requires Joined(db.orders, db.execs)
  {
    match e
    case Place(env, q) => [Placement(env, q, false)]
    case PlaceStrategy(envs, s) =>
      if PlaceLegs(db, w.accounts, envs, w.startingCash, s, |s.legs|).1.StrategyCrashed? then []
      else LegPlacements(envs, s, |s.legs|)
    case Cancel(_) => []
    case Poll(_, _, _) => []
  }

  /** One leg of a strategy that does not crash is one placement. */
  lemma LegIsPlacement(w: World, db: Db, envs: nat -> Env, s: StrategyRequest, n: nat)
    requires Joined(db.orders, db.execs) && 0 < n <= |s.legs|
    requires PlaceLegs(db, w.accounts, envs, w.startingCash, s, n).1.Results?
    ensures PlaceLegs(db, w.accounts, envs, w.startingCash, s, n - 1).1.Results?
    ensures var was, now := PlaceLegs(db, w.accounts, envs, w.startingCash, s, n - 1).0,
                            PlaceLegs(db, w.accounts, envs, w.startingCash, s, n).0;
      now == if s.legs[n - 1].OrderLeg? then Place(w, was, Placement(envs(n - 1), LegRequest(s, n - 1), true)) else was
  {
    hide PlaceOrder, LegRequest;
  }

  lemma {:induction false} LegsAreRun(w: World, db: Db, envs: nat -> Env, s: StrategyRequest, n: nat)
    requires Joined(db.orders, db.execs) && n <= |s.legs|
    requires PlaceLegs(db, w.accounts, envs, w.startingCash, s, n).1.Results?
    ensures RunDb(w, db, LegPlacements(envs, s, n)) == PlaceLegs(db, w.accounts, envs, w.startingCash, s, n).0
  {
    if n == 0 {
      assert LegPlacements(envs, s, 0) == [] && RunDb(w, db, []) == db;
    } else {
      LegIsPlacement(w, db, envs, s, n);
      LegsAreRun(w, db, envs, s, n - 1);
      var before, ps := LegPlacements(envs, s, n - 1), LegPlacements(envs, s, n);
      if s.legs[n - 1].OrderLeg? {
        assert ps[..|ps| - 1] == before && ps[|ps| - 1] == Placement(envs(n - 1), LegRequest(s, n - 1), true);
        PaperLedger.RunSnoc(w, db, ps, s.account);
      } else {
        assert ps == before;
      }
    }
    hide PlaceLegs, RunDb, Place, LegPlacements;
  }

  /** A placement or a strategy does to the tables what its placements do. */
  lemma StepIsRun(w: World, db: Db, e: R.Event)
    requires Joined(db.orders, db.execs) && (e.Place? || e.PlaceStrategy?)
    ensures R.Step(w, db, e) == RunDb(w, db, Placements(w, db, e))
  {
    hide PlaceOrder, PlaceLegs;
    match e
    case Place(env, q) =>
      var ps := [Placement(env, q, false)];
      assert ps[..0] == [] && RunDb(w, db, ps[..0]) == db;
    case PlaceStrategy(envs, s) =>
      if PlaceLegs(db, w.accounts, envs, w.startingCash, s, |s.legs|).1.Results? {
        LegsAreRun(w, db, envs, s, |s.legs|);
      }
  }

  // ---- what leaves an account alone ----

  /** The account's cash and positions are as before, and no order changed its identity. */
  ghost predicate Quiet(db: Db, now: Db, account: nat)
    requires Joined(db.orders, db.execs)
  {
    && Joined(now.orders, now.execs)
    && |now.orders| == |db.orders| && (forall o :: 0 <= o < |db.orders| ==> SameIdentity(db.orders[o], now.orders[o]))
    && CashFlow(now.orders, now.execs, account) == CashFlow(db.orders, db.execs, account)
    && AccountPositions(now, account) == AccountPositions(db, account)
  }

  lemma QuietTwice(db: Db, mid: Db, now: Db, account: nat)
    requires Joined(db.orders, db.execs) && Quiet(db, mid, account) && Quiet(mid, now, account)
    ensures Quiet(db, now, account)
  {
    hide CashFlow, AccountPositions;
  }

  lemma SetStatusQuiet(db: Db, o: nat, row: Order, before: Option<Status>, account: nat)
    requires Joined(db.orders, db.execs) && o < |db.orders| && SameIdentity(db.orders[o], row)
    ensures Quiet(db, SetStatus(db, o, row, before), account)
  {
    hide AccountPositions, CashFlow;
    var now := SetStatus(db, o, row, before);
    CashFrame(db.orders, now.orders, db.execs, account);
    SamePositions(db, now, account);
  }

  /** A fill on one account is none of another's business. */
  lemma RecordFillQuiet(db: Db, o: nat, qty: int, price: real, key: ExecKey, account: nat)
    requires Joined(db.orders, db.execs) && o < |db.orders| && db.orders[o].account != account
    ensures Quiet(db, RecordFill(db, o, qty, price, key), account)
  {
    hide NetPosition, AccountPositions, ExecutionCash;
    var now, row := RecordFill(db, o, qty, price, key), db.orders[o];
    assert now.execs[..|db.execs|] == db.execs;
    var k := PosKey(row.account, row.ticket.instr);
    var p := NetPosition(PositionAt(db.positions, k), SignedFill(row.ticket, qty), price);
    UpsertAccount(db, k, p, account);
    SamePositions(db.(positions := Upsert(db.positions, k, p)), now, account);
  }

  lemma ReconcileOrderQuiet(db: Db, o: nat, rows: seq<BrokerRow>, account: nat)
    requires Joined(db.orders, db.execs) && o < |db.orders| && db.orders[o].account != account
    ensures Quiet(db, ReconcileOrder(db, o, rows), account)
  {
    hide NetPosition, SumExecuted, FindRow, CashFlow, AccountPositions, ValidTransitions, RecordFill;
    NothingIsQuiet(db, account);
    var found := FindRow(rows, db.orders[o].brokerOrderId);
    if found.Some? {
      var row := found.value;
      var mid := FillDelta(db, o, row);
      FillDeltaQuiet(db, o, row, account);
      NothingIsQuiet(mid, account);
      var r := mid.orders[o];
      SetStatusQuiet(mid, o, r.(status := row.status), Some(r.status), account);
      QuietTwice(db, mid, AdvanceStatus(mid, o, row), account);
    }
  }

  lemma FillDeltaQuiet(db: Db, o: nat, row: BrokerRow, account: nat)
    requires Joined(db.orders, db.execs) && o < |db.orders| && db.orders[o].account != account
    ensures Quiet(db, FillDelta(db, o, row), account)
  {
    hide SumExecuted, RecordFill, Quiet;
    NothingIsQuiet(db, account);
    var delta := row.filledQty - SumExecuted(db.execs, o);
    if row.avgPrice.Some? {
      RecordFillQuiet(db, o, delta, row.avgPrice.value, Recon(o, row.filledQty), account);
    }
  }

  lemma NothingIsQuiet(db: Db, account: nat)
    requires Joined(db.orders, db.execs)
    ensures Quiet(db, db, account)
  {
  }

  lemma {:induction false} ReconcileAllQuiet(db: Db, ids: seq<nat>, rows: seq<BrokerRow>, n: nat, account: nat)
    requires Joined(db.orders, db.execs) && n <= |ids|
    requires forall o :: o in ids ==> o < |db.orders| && db.orders[o].account != account
    ensures Quiet(db, ReconcileAll(db, ids, rows, n), account)
  {
    hide ReconcileOrder, CashFlow, AccountPositions;
    if n > 0 {
      assert ids[n - 1] in ids;
      ReconcileAllQuiet(db, ids, rows, n - 1, account);
      var was := ReconcileAll(db, ids, rows, n - 1);
      ReconcileOrderQuiet(was, ids[n - 1], rows, account);
      QuietTwice(db, was, ReconcileOrder(was, ids[n - 1], rows), account);
    }
  }

  /** Cancellations, and polls of other accounts, move neither cash nor positions of this one. */
  lemma StepQuiet(w: World, db: Db, e: R.Event, account: nat)
    requires Joined(db.orders, db.execs) && (e.Cancel? || (e.Poll? && e.account != account))
    ensures Quiet(db, R.Step(w, db, e), account)
  {
    hide CashFlow, AccountPositions, ReconcileAll;
    NothingIsQuiet(db, account);
    match e
    case Cancel(o) =>
      if o < |db.orders| { SetStatusQuiet(db, o, db.orders[o].(status := Cancelled), Some(Cancelled), account); }
    case Poll(other, rows, now) =>
      var ids := OpenOrders(db.orders, other, |db.orders|);
      ReconcileAllQuiet(db, ids, rows, |ids|, account);
      StampQuiet(ReconcileAll(db, ids, rows, |ids|), R.Step(w, db, e), account);
      QuietTwice(db, ReconcileAll(db, ids, rows, |ids|), R.Step(w, db, e), account);
  }

  lemma StampQuiet(db: Db, now: Db, account: nat)
    requires Joined(db.orders, db.execs) && now == db.(reconciledAt := now.reconciledAt)
    ensures Quiet(db, now, account)
  {
  }

  lemma QuietRelated(db: Db, now: Db, book: P.Book, account: nat, startingCash: real, drift: real)
    requires Joined(db.orders, db.execs) && Quiet(db, now, account) && Related(db, book, account, startingCash, drift)
    ensures Related(now, book, account, startingCash, drift)
  {
    hide CashFlow, AccountPositions, FindFrom;
    forall k | k in book.idem ensures UsedKey(now, k) {
      assert UsedKey(db, k);
      if k.ClientKey? { FindStable(db.orders, now.orders, Some(k.text), 0); }
    }
  }

  // ---- the refinement over every run ----

  /** No event polls the account itself: the worker polls Alpaca accounts only. */
  ghost predicate Unpolled(es: seq<R.Event>, account: nat) { forall e :: e in es ==> e.Poll? ==> e.account != account }

  /** What the long-lived broker is fed over a run. */
  ghost function Feed(w: World, db: Db, es: seq<R.Event>, account: nat): seq<P.PaperEvent>
    requires Inv(db)
  {
    if es == [] then []
    else
      var was := R.Run(w, db, es[..|es| - 1]);
      Feed(w, db, es[..|es| - 1], account) + FedEvents(w, was, Placements(w, was, es[|es| - 1]), account)
  }

  /** What the fills of a run have drifted apart. */
  ghost function Drift(w: World, db: Db, es: seq<R.Event>, account: nat): real
    requires Inv(db)
  {
    if es == [] then 0.0
    else
      var was := R.Run(w, db, es[..|es| - 1]);
      Drift(w, db, es[..|es| - 1], account) + RunDrift(w, was, Placements(w, was, es[|es| - 1]), account)
  }

  lemma QuietJoined(db: Db, now: Db, account: nat)
    requires Joined(db.orders, db.execs) && Quiet(db, now, account)
    ensures Joined(now.orders, now.execs)
  {
  }

  lemma PlacedRelated(w: World, db: Db, e: R.Event, account: nat, book: P.Book, drift: real)
    requires Joined(db.orders, db.execs) && IsPaper(w, account) && (e.Place? || e.PlaceStrategy?)
    requires Related(db, book, account, w.startingCash, drift)
    ensures var ps := Placements(w, db, e); var events := FedEvents(w, db, ps, account);
      && P.AllSubmittable(events) && Joined(R.Step(w, db, e).orders, R.Step(w, db, e).execs)
      && Related(R.Step(w, db, e), P.Run(book, events), account, w.startingCash, drift + RunDrift(w, db, ps, account))
  {
    hide *;
    StepIsRun(w, db, e);
    RefinementFrom(w, db, book, Placements(w, db, e), account, drift);
  }

  lemma LeftRelated(w: World, db: Db, e: R.Event, account: nat, book: P.Book, drift: real)
    requires Joined(db.orders, db.execs) && IsPaper(w, account) && (e.Cancel? || (e.Poll? && e.account != account))
    requires Related(db, book, account, w.startingCash, drift)
    ensures var ps := Placements(w, db, e); var events := FedEvents(w, db, ps, account);
      && P.AllSubmittable(events) && Joined(R.Step(w, db, e).orders, R.Step(w, db, e).execs)
      && Related(R.Step(w, db, e), P.Run(book, events), account, w.startingCash, drift + RunDrift(w, db, ps, account))
  {
    hide Related, R.Step, Quiet;
    StepQuiet(w, db, e, account);
    QuietJoined(db, R.Step(w, db, e), account);
    QuietRelated(db, R.Step(w, db, e), book, account, w.startingCash, drift);
  }

  lemma StepRelated(w: World, db: Db, e: R.Event, account: nat, book: P.Book, drift: real)
    requires Joined(db.orders, db.execs) && IsPaper(w, account) && (e.Poll? ==> e.account != account)
    requires Related(db, book, account, w.startingCash, drift)
    ensures var ps := Placements(w, db, e); var events := FedEvents(w, db, ps, account);
      && P.AllSubmittable(events) && Joined(R.Step(w, db, e).orders, R.Step(w, db, e).execs)
      && Related(R.Step(w, db, e), P.Run(book, events), account, w.startingCash, drift + RunDrift(w, db, ps, account))
  {
    hide *;
    if e.Place? || e.PlaceStrategy? {
      PlacedRelated(w, db, e, account, book, drift);
    } else {
      LeftRelated(w, db, e, account, book, drift);
    }
  }

  lemma RunSnoc(w: World, db: Db, es: seq<R.Event>, account: nat)
    requires Inv(db) && es != []
    ensures var before, e := es[..|es| - 1], es[|es| - 1]; var was := R.Run(w, db, before);
      && Joined(was.orders, was.execs) && R.Run(w, db, es) == R.Step(w, was, e)
      && Feed(w, db, es, account) == Feed(w, db, before, account) + FedEvents(w, was, Placements(w, was, e), account)
      && Drift(w, db, es, account) == Drift(w, db, before, account) + RunDrift(w, was, Placements(w, was, e), account)
  {
    hide R.Step, Placements, FedEvents, RunDrift, Inv;
    R.JoinedOf(R.Run(w, db, es[..|es| - 1]));
  }

  lemma {:induction false} FeedFrom(w: World, db: Db, es: seq<R.Event>, account: nat, book: P.Book, drift: real)
    requires Inv(db) && Joined(db.orders, db.execs) && IsPaper(w, account) && Unpolled(es, account)
    requires Related(db, book, account, w.startingCash, drift)
    ensures P.AllSubmittable(Feed(w, db, es, account))
    ensures var now := R.Run(w, db, es);
      && Joined(now.orders, now.execs)
      && Related(now, P.Run(book, Feed(w, db, es, account)), account, w.startingCash, drift + Drift(w, db, es, account))
  {
    hide *;
    if es == [] {
      FeedNone(w, db, account, book);
    } else {
      var before, e := es[..|es| - 1], es[|es| - 1];
      UnpolledParts(es, account);
      FeedFrom(w, db, before, account, book, drift);
      var was, fed := R.Run(w, db, before), Feed(w, db, before, account);
      RunSnoc(w, db, es, account);
      StepRelated(w, was, e, account, P.Run(book, fed), drift + Drift(w, db, before, account));
      P.RunConcat(book, fed, FedEvents(w, was, Placements(w, was, e), account));
    }
  }

  lemma FeedNone(w: World, db: Db, account: nat, book: P.Book)
    requires Inv(db)
    ensures R.Run(w, db, []) == db && Feed(w, db, [], account) == [] && Drift(w, db, [], account) == 0.0
    ensures P.AllSubmittable([]) && P.Run(book, []) == book
  {
  }

  lemma UnpolledParts(es: seq<R.Event>, account: nat)
    requires es != [] && Unpolled(es, account)
    ensures Unpolled(es[..|es| - 1], account)
    ensures es[|es| - 1].Poll? ==> es[|es| - 1].account != account
  {
    assert es[|es| - 1] in es;
  }

  /** No order on the account that the events carry has an empty option type. */
  ghost predicate NamedEvent(e: R.Event, account: nat) {
    match e
    case Place(_, q) => q.account == account ==> NamedContract(q.ticket.instr)
    case PlaceStrategy(_, s) =>
      s.account == account ==> forall leg :: leg in s.legs && leg.OrderLeg? && leg.isOption ==> NamedContract(leg.instr)
    case _ => true
  }

  lemma {:induction false} LegsNamed(envs: nat -> Env, s: StrategyRequest, n: nat, account: nat)
    requires n <= |s.legs|
    requires s.account == account ==>
      forall leg :: leg in s.legs && leg.OrderLeg? && leg.isOption ==> NamedContract(leg.instr)
    ensures NamedOn(LegPlacements(envs, s, n), account)
  {
    hide Digits;
    if n > 0 {
      LegsNamed(envs, s, n - 1, account);
      assert s.legs[n - 1] in s.legs;
    }
  }

  lemma {:induction false} NamedRunsDoNotDrift(w: World, db: Db, es: seq<R.Event>, account: nat)
    requires Inv(db) && forall e :: e in es ==> NamedEvent(e, account)
    ensures Drift(w, db, es, account) == 0.0
  {
    hide Inv, R.Step, RunDrift, NamedOn, PlaceLegs, LegPlacements, NamedContract;
    if es != [] {
      var n := |es| - 1;
      NamedRunsDoNotDrift(w, db, es[..n], account);
      var was := R.Run(w, db, es[..n]);
      R.JoinedOf(was);
      assert es[n] in es;
      PlacementsNamed(w, was, es[n], account);
      NamedRunsAgree(w, was, Placements(w, was, es[n]), account);
    }
  }

  lemma PlacementsNamed(w: World, db: Db, e: R.Event, account: nat)
    requires Joined(db.orders, db.execs) && NamedEvent(e, account)
    ensures NamedOn(Placements(w, db, e), account)
  {
    hide PlaceLegs, LegPlacements, NamedContract;
    if e.PlaceStrategy? { LegsNamed(e.envs, e.strategy, |e.strategy.legs|, account); }
  }

  /** The refinement: over every run of placements, strategies, cancellations and polls of other accounts, a paper
      account's position rows are the positions of one long-lived broker fed its accepted orders, and its recomputed
      balance is that broker's cash, less what fills of empty option types have drifted: nothing without such. */
  lemma RunRefinement(w: World, es: seq<R.Event>, account: nat)
    requires IsPaper(w, account) && Unpolled(es, account)
    ensures Inv(EMPTY) && P.AllSubmittable(Feed(w, EMPTY, es, account))
    ensures var db, book := R.Run(w, EMPTY, es), P.Run(P.NewBook(w.startingCash), Feed(w, EMPTY, es, account));
      && Joined(db.orders, db.execs)
      && Related(db, book, account, w.startingCash, Drift(w, EMPTY, es, account))
    ensures (forall e :: e in es ==> NamedEvent(e, account)) ==> Drift(w, EMPTY, es, account) == 0.0
  {
    EmptyInv();
    hide *;
    EmptyJoined();
    EmptyRelated(w, account);
    FeedFrom(w, EMPTY, es, account, P.NewBook(w.startingCash), 0.0);
    if forall e :: e in es ==> NamedEvent(e, account) { NamedRunsDoNotDrift(w, EMPTY, es, account); }
  }

  /** Money is conserved in the tables over every such run. */
  lemma RunLedgerConserves(w: World, es: seq<R.Event>, account: nat)
    requires IsPaper(w, account) && Unpolled(es, account) && forall e :: e in es ==> NamedEvent(e, account)
    ensures Inv(EMPTY) && P.AllSubmittable(Feed(w, EMPTY, es, account))
    ensures var db := R.Run(w, EMPTY, es);
      && Joined(db.orders, db.execs)
      && AccountBalance(db, account, w.startingCash) + Total(P.Bases(AccountPositions(db, account)))
         == w.startingCash + P.Gains(P.NewBook(w.startingCash), Feed(w, EMPTY, es, account))
  {
    RunRefinement(w, es, account);
    hide R.Run, Feed, Drift, P.Run, P.Gains, CashFlow, AccountPositions, NamedEvent, Inv, Unpolled;
    P.RunConserves(P.NewBook(w.startingCash), Feed(w, EMPTY, es, account));
    assert P.Bases(P.NewBook(w.startingCash).positions) == map[];
    TotalEmpty<Instrument>();
  }

  // ---- buying power over every run ----

  /** Orders the event carries for the account are priced at non-negative marks and contain no limit buy. Strategy
      legs are market orders. */
  ghost predicate SafeEvent(e: R.Event, account: nat) {
    && NamedEvent(e, account)
    && match e
       case Place(env, q) => q.account == account ==> (env.mark.Some? ==> env.mark.value >= 0.0) && NoLimitBuy(q.ticket)
       case PlaceStrategy(envs, s) =>
         s.account == account ==> forall i: nat :: i < |s.legs| && envs(i).mark.Some? ==> envs(i).mark.value >= 0.0
       case _ => true
  }

  ghost predicate SafePlacements(ps: seq<Placement>, account: nat) {
    forall p :: p in ps && p.request.account == account ==> FairMark(p) && NoLimitBuy(p.request.ticket)
  }

  lemma {:induction false} LegsSafe(envs: nat -> Env, s: StrategyRequest, n: nat, account: nat)
    requires n <= |s.legs|
    requires s.account == account ==> forall i: nat :: i < |s.legs| && envs(i).mark.Some? ==> envs(i).mark.value >= 0.0
    ensures SafePlacements(LegPlacements(envs, s, n), account)
  {
    hide Digits;
    if n > 0 { LegsSafe(envs, s, n - 1, account); }
  }

  lemma PlacementsSafe(w: World, db: Db, e: R.Event, account: nat)
    requires Joined(db.orders, db.execs) && SafeEvent(e, account)
    ensures NamedOn(Placements(w, db, e), account) && SafePlacements(Placements(w, db, e), account)
  {
    hide PlaceLegs, LegPlacements, NamedEvent, NamedOn;
    PlacementsNamed(w, db, e, account);
    if e.PlaceStrategy? { LegsSafe(e.envs, e.strategy, |e.strategy.legs|, account); }
  }

  lemma StepSolvent(w: World, db: Db, e: R.Event, account: nat)
    requires Joined(db.orders, db.execs) && IsPaper(w, account) && (e.Poll? ==> e.account != account)
    requires SafeEvent(e, account) && AccountBalance(db, account, w.startingCash) >= 0.0
    ensures Joined(R.Step(w, db, e).orders, R.Step(w, db, e).execs)
    ensures AccountBalance(R.Step(w, db, e), account, w.startingCash) >= 0.0
  {
    hide R.Step, RunDb, Placements, CashFlow, AccountPositions, SafeEvent;
    if e.Place? || e.PlaceStrategy? {
      StepIsRun(w, db, e);
      PlacementsSafe(w, db, e, account);
      BuyingPowerHolds(w, db, Placements(w, db, e), account);
    } else {
      StepQuiet(w, db, e, account);
    }
  }

  /** From a non-negative starting cash and non-negative marks, no run without limit buys on the account ever takes
      its recomputed balance below zero, whatever is cancelled and whatever other accounts do. */
  lemma {:induction false} RunBuyingPower(w: World, db: Db, es: seq<R.Event>, account: nat)
    requires Inv(db) && Joined(db.orders, db.execs) && IsPaper(w, account) && Unpolled(es, account)
    requires AccountBalance(db, account, w.startingCash) >= 0.0
    requires forall e :: e in es ==> SafeEvent(e, account)
    ensures var now := R.Run(w, db, es);
      Joined(now.orders, now.execs) && AccountBalance(now, account, w.startingCash) >= 0.0
  {
    hide Inv, R.Step, CashFlow, SafeEvent, Feed, Drift, Placements, FedEvents, RunDrift;
    if es != [] {
      UnpolledParts(es, account);
      RunBuyingPower(w, db, es[..|es| - 1], account);
      assert es[|es| - 1] in es;
      StepSolvent(w, R.Run(w, db, es[..|es| - 1]), es[|es| - 1], account);
    }
  }
}
