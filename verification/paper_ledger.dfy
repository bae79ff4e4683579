/** Paper trading through the service, against one long-lived paper broker. The service throws its adapter away
    after every order, recomputes the balance from executions and keeps positions in a table; over any run the
    two agree. */
module PaperLedger {
  import opened Wrappers
  import opened Numbers
  import opened Positions
  import opened Orders
  import opened MapSums
  import opened Ledger
  import opened Service

  /** One place_order call. kept: its session survives an error, as a strategy leg's does. */
  datatype Placement = Placement(env: Env, request: Request, kept: bool)

  function Place(w: World, db: Db, p: Placement): Db
    requires Joined(db.orders, db.execs)
  {
    var (now, reply) := PlaceOrder(db, w.accounts, p.env, w.startingCash, p.request);
    if reply.Placed? || (p.kept && reply.Failed?) then now else db
  }

  /** The call reached the paper adapter on this account: a new order, accepted. */
  predicate Fed(w: World, db: Db, p: Placement, account: nat)
    requires Joined(db.orders, db.execs)
  {
    && p.request.account == account
    && FindByKey(db.orders, p.request.key).None?
    && PlaceOrder(db, w.accounts, p.env, w.startingCash, p.request).1.Placed?
  }

  predicate IsPaper(w: World, account: nat) {
    account in w.accounts && w.accounts[account].broker == "paper"
  }

  function RunDb(w: World, db: Db, ps: seq<Placement>): (now: Db)
    requires Joined(db.orders, db.execs)
    ensures Joined(now.orders, now.execs)
  {
    if ps == [] then db
    else
      var was := RunDb(w, db, ps[..|ps| - 1]);
      PlaceOrderJoined(was, w.accounts, ps[|ps| - 1].env, w.startingCash, ps[|ps| - 1].request);
      Place(w, was, ps[|ps| - 1])
  }

  /** What the long-lived broker is fed: the same orders, under the same keys, at the same marks. */
  function FedEvents(w: World, db: Db, ps: seq<Placement>, account: nat): seq<P.PaperEvent>
    requires Joined(db.orders, db.execs)
  {
    if ps == [] then []
    else
      FedEvents(w, db, ps[..|ps| - 1], account) + FedBy(w, RunDb(w, db, ps[..|ps| - 1]), ps[|ps| - 1], account)
  }

  /** What one placement feeds it. */
  function FedBy(w: World, db: Db, p: Placement, account: nat): seq<P.PaperEvent>
    requires Joined(db.orders, db.execs)
  {
    if Fed(w, db, p, account)
    then [P.SubmitEvent(p.request.ticket, SubmitKeyFor(p.request, |db.orders|), p.env.mark.GetOr(0.0))]
    else []
  }

  /** An account's rows of the positions table. */
  function AccountPositions(db: Db, account: nat): map<Instrument, Pos> {
    map k | k in db.positions && k.account == account :: k.instr := db.positions[k]
  }

  // ---- what one placement does ----

  /** The only way a placement moves money or positions: a paper fill at the adapter's price. */
  ghost predicate PaperFill(db: Db, now: Db, reply: Reply, q: Request, price: real) {
    var n := |db.orders|;
    && Joined(db.orders, db.execs)
    && |now.orders| == n + 1 && now.orders[n].ticket == q.ticket && now.orders[n].account == q.account
    && now.execs == db.execs + [Execution(n, q.account, q.ticket.qty, price, 0.0, PaperExec(n))]
    && now.positions == Upsert(db.positions, PosKey(q.account, q.ticket.instr),
         NetPosition(PositionAt(db.positions, PosKey(q.account, q.ticket.instr)), SignedQty(q.ticket), price))
    && reply == Placed(n, Filled)
  }

  lemma SubmitPaperEffect(db: Db, q: Request, mark: real, balance: real)
    requires Joined(db.orders, db.execs) && Priced(q.ticket)
    ensures var (now, reply) := SubmitPaper(db, q, mark, balance);
      match Marketable(q.ticket, mark)
      case Some(price) => PaperFill(db, now, reply, q, price)
      case None => now.execs == db.execs && now.positions == db.positions
  {
    hide NetPosition, Marketable, P.Submit;
    FreshVerdict(q.ticket, SubmitKeyFor(q, |db.orders|), mark, balance);
  }

  lemma LiveMovesNothing(db: Db, q: Request, reply: SubmitReply)
    ensures var now := SubmitLive(db, q, reply).0; now.execs == db.execs && now.positions == db.positions
  {
  }

  lemma PlaceEffect(w: World, db: Db, p: Placement)
    requires Joined(db.orders, db.execs)
    ensures var q, env := p.request, p.env;
      var (now, reply) := PlaceOrder(db, w.accounts, env, w.startingCash, q);
      var isNew := FindByKey(db.orders, q.key).None? && reply.Placed? && IsPaper(w, q.account);
      && (isNew ==>
            env.mark.Some? && Priced(q.ticket) && StructuralGate(q.ticket).None?
            && (q.ticket.side.Buy? ==>
                  EstimateCost(q.ticket, env.mark.value) <= AccountBalance(db, q.account, w.startingCash)))
      && (isNew && Marketable(q.ticket, env.mark.value).Some? ==>
         PaperFill(db, now, reply, q, Marketable(q.ticket, env.mark.value).value))
      && (!isNew || Marketable(q.ticket, env.mark.value).None? ==>
         now.execs == db.execs && now.positions == db.positions)
  {
    hide SubmitPaper, SubmitLive, CashFlow, EstimateCost, FindFrom, Marketable, PaperFill;
    var q, env := p.request, p.env;
    if q.account in w.accounts {
      var isLive := w.accounts[q.account].broker != "paper";
      var balance := AccountBalance(db, q.account, w.startingCash);
      if !isLive && env.mark.Some? && Gate(env, q, balance).None? {
        GatesPass(q.ticket, RiskContext(true, env.strategy, balance, EstimateCost(q.ticket, env.mark.value), 0, None));
        SubmitPaperEffect(db, q, env.mark.value, balance);
        SubmitPaperRow(db, q, env.mark.value, balance);
      }
      if isLive && env.live.Adapter? { LiveMovesNothing(db, q, env.live.submit); }
    }
  }

  // ---- cash ----

  /** The adapter and the SQL agree on the contract multiplier exactly when the option type is not empty. */
  predicate NamedContract(i: Instrument) { i.optionType != Some("") }

  /** How much more a fill takes out of the recomputed balance than out of the adapter's cash. */
  function FillDrift(t: Ticket, price: real): real {
    Times((SqlMultiplier(t.instr) - Multiplier(t.instr)) * SignedQty(t), price)
  }

  /** A fill keeps the two in step exactly when the option type is not the empty string or the fill is free. */
  lemma FillDriftsIff(t: Ticket, price: real)
    ensures NamedContract(t.instr) ==> FillDrift(t, price) == 0.0
    ensures t.qty > 0 && price >= 0.0 ==> (FillDrift(t, price) == 0.0 <==> NamedContract(t.instr) || price == 0.0)
  {
    hide Times;
    var n := (SqlMultiplier(t.instr) - Multiplier(t.instr)) * SignedQty(t);
    assert n == if NamedContract(t.instr) then 0 else 99 * SignedQty(t);
    TimesSign(0, 0.0);
    TimesMono(n, 0.0, 0.0);
    TimesMono(0, if price < 0.0 then price else 0.0, if price < 0.0 then 0.0 else price);
    if price >= 0.0 { TimesSign(n, price); }
  }

  lemma NoNewExecutions(db: Db, now: Db, account: nat, startingCash: real)
    requires Joined(db.orders, db.execs) && now.execs == db.execs && SameTickets(db.orders, now.orders)
    ensures Joined(now.orders, now.execs)
      && AccountBalance(now, account, startingCash) == AccountBalance(db, account, startingCash)
  {
    CashFrame(db.orders, now.orders, db.execs, account);
  }

  lemma FillCash(db: Db, now: Db, reply: Reply, q: Request, price: real, account: nat, startingCash: real)
    requires PaperFill(db, now, reply, q, price) && SameTickets(db.orders, now.orders) && Joined(now.orders, now.execs)
    ensures AccountBalance(now, account, startingCash) ==
            AccountBalance(db, account, startingCash)
            - (if account != q.account then 0.0
               else P.Money(q.ticket.instr, SignedQty(q.ticket), price) + FillDrift(q.ticket, price))
  {
    hide Times, NetPosition;
    CashFrame(db.orders, now.orders, db.execs, account);
    assert now.execs[..|db.execs|] == db.execs;
    var m, sql, t := Multiplier(q.ticket.instr), SqlMultiplier(q.ticket.instr), q.ticket;
    TimesAdd(m * SignedQty(t), (sql - m) * SignedQty(t), price);
    TimesNeg(sql * SignedQty(t), price);
    assert m * SignedQty(t) + (sql - m) * SignedQty(t) == sql * SignedQty(t);
    assert t.side.Buy? ==> -1 * t.qty * sql == -(sql * SignedQty(t));
    assert !t.side.Buy? ==> 1 * t.qty * sql == -(sql * SignedQty(t));
  }

  /** What the fills of a run have drifted apart so far. */
  function RunDrift(w: World, db: Db, ps: seq<Placement>, account: nat): real
    requires Joined(db.orders, db.execs)
  {
    if ps == [] then 0.0
    else RunDrift(w, db, ps[..|ps| - 1], account) + StepDrift(w, RunDb(w, db, ps[..|ps| - 1]), ps[|ps| - 1], account)
  }

  function StepDrift(w: World, db: Db, p: Placement, account: nat): real
    requires Joined(db.orders, db.execs)
  {
    if Fed(w, db, p, account) && p.env.mark.Some? && Priced(p.request.ticket)
      && Marketable(p.request.ticket, p.env.mark.value).Some?
    then FillDrift(p.request.ticket, Marketable(p.request.ticket, p.env.mark.value).value)
    else 0.0
  }

  /** No order on the account has an empty option type. */
  predicate NamedOn(ps: seq<Placement>, account: nat) {
    forall p :: p in ps && p.request.account == account ==> NamedContract(p.request.ticket.instr)
  }

  lemma {:induction false} NamedRunsAgree(w: World, db: Db, ps: seq<Placement>, account: nat)
    requires Joined(db.orders, db.execs) && NamedOn(ps, account)
    ensures RunDrift(w, db, ps, account) == 0.0
  {
    hide FillDrift, Marketable, NamedContract, Place, PlaceOrder;
    if ps != [] {
      var p := ps[|ps| - 1];
      assert p in ps;
      NamedRunsAgree(w, db, ps[..|ps| - 1], account);
      if p.request.account == account && p.env.mark.Some? && Priced(p.request.ticket)
        && Marketable(p.request.ticket, p.env.mark.value).Some? {
        FillDriftsIff(p.request.ticket, Marketable(p.request.ticket, p.env.mark.value).value);
      }
    }
  }

  // ---- the relation ----

  ghost predicate Related(db: Db, book: P.Book, account: nat, startingCash: real, drift: real)
    requires Joined(db.orders, db.execs)
  {
    && book.cash == AccountBalance(db, account, startingCash) + drift
    && book.positions == AccountPositions(db, account)
    && (forall k :: k in book.idem ==> UsedKey(db, k))
  }

  ghost predicate UsedKey(db: Db, k: P.SubmitKey) {
    match k
    case ClientKey(text) => FindByKey(db.orders, Some(text)).Some?
    case OrderKey(id) => id < |db.orders|
  }

  lemma UsedKeyStable(db: Db, now: Db, k: P.SubmitKey)
    requires Appends(db, now) && UsedKey(db, k)
    ensures UsedKey(now, k)
  {
    if k.ClientKey? {
      assert forall j :: 0 <= j < |db.orders| ==> now.orders[j] == now.orders[..|db.orders|][j];
      FindStable(db.orders, now.orders, Some(k.text), 0);
    }
  }

  lemma NewKeyUsed(db: Db, now: Db, q: Request)
    requires Appends(db, now) && |now.orders| == |db.orders| + 1 && now.orders[|db.orders|].idemKey == q.key
    requires FindByKey(db.orders, q.key).None?
    ensures UsedKey(now, SubmitKeyFor(q, |db.orders|)) && !UsedKey(db, SubmitKeyFor(q, |db.orders|))
  {
    assert forall j :: 0 <= j < |db.orders| ==> now.orders[j] == now.orders[..|db.orders|][j];
    FindStable(db.orders, now.orders, q.key, 0);
  }

  lemma UpsertAccount(db: Db, k: PosKey, p: Pos, account: nat)
    ensures AccountPositions(db.(positions := Upsert(db.positions, k, p)), account) ==
            (if k.account == account then Upsert(AccountPositions(db, account), k.instr, p)
                else AccountPositions(db, account))
    ensures PositionAt(AccountPositions(db, account), k.instr) == PositionAt(db.positions, PosKey(account, k.instr))
  {
    hide AccountPositions;
    var after := db.(positions := Upsert(db.positions, k, p));
    var was, now := AccountPositions(db, account), AccountPositions(after, account);
    var want := if k.account == account then Upsert(was, k.instr, p) else was;
    forall i ensures (i in now <==> i in want) && (i in now ==> now[i] == want[i]) {
      AccountKey(db, account, i);
      AccountKey(after, account, i);
    }
    assert now == want;
    AccountKey(db, account, k.instr);
  }

  lemma AccountKey(db: Db, account: nat, i: Instrument)
    ensures i in AccountPositions(db, account) <==> PosKey(account, i) in db.positions
    ensures PosKey(account, i) in db.positions ==> AccountPositions(db, account)[i] == db.positions[PosKey(account, i)]
  {
    if PosKey(account, i) in db.positions {
      var k := PosKey(account, i);
      assert k.account == account && k.instr == i;
    }
  }

  lemma AppendsSameTickets(db: Db, now: Db)
    requires Appends(db, now)
    ensures SameTickets(db.orders, now.orders)
  {
    assert forall j :: 0 <= j < |db.orders| ==> now.orders[j] == now.orders[..|db.orders|][j];
  }

  /** One placement keeps service and long-lived broker in step. */
  lemma PlaceRefines(w: World, db: Db, book: P.Book, p: Placement, account: nat, drift: real)
    requires Joined(db.orders, db.execs) && Related(db, book, account, w.startingCash, drift) && IsPaper(w, account)
    ensures Joined(Place(w, db, p).orders, Place(w, db, p).execs)
    ensures Fed(w, db, p, account) ==> p.env.mark.Some? && Priced(p.request.ticket)
    ensures Related(Place(w, db, p),
                    if Fed(w, db, p, account)
                    then P.Submit(book, p.request.ticket, SubmitKeyFor(p.request, |db.orders|), p.env.mark.value)
                    else book,
                    account, w.startingCash, drift + StepDrift(w, db, p, account))
  {
    hide PlaceOrder, CashFlow, Marketable, FindByKey, NetPosition, SubmitKeyFor, AccountPositions, P.Money, UsedKey,
        FillDrift;
    var q := p.request;
    var (now, reply) := PlaceOrder(db, w.accounts, p.env, w.startingCash, q);
    PlaceEffect(w, db, p);
    PlaceOrderAppends(db, w.accounts, p.env, w.startingCash, q);
    PlaceOrderJoined(db, w.accounts, p.env, w.startingCash, q);
    AppendsSameTickets(db, now);
    forall k | k in book.idem ensures UsedKey(now, k) { UsedKeyStable(db, now, k); }
    if FindByKey(db.orders, q.key).None? && reply.Placed? && IsPaper(w, q.account) {
      FreshRow(w, db, p);
      NewKeyUsed(db, now, q);
      var fill := Marketable(q.ticket, p.env.mark.value);
      if fill.Some? {
        FillRefines(db, now, reply, book, q, fill.value, account, w.startingCash, drift);
      } else {
        NoNewExecutions(db, now, account, w.startingCash);
        SamePositions(db, now, account);
      }
    } else {
      NoNewExecutions(db, now, account, w.startingCash);
      SamePositions(db, now, account);
    }
  }

  lemma SamePositions(db: Db, now: Db, account: nat)
    requires now.positions == db.positions
    ensures AccountPositions(now, account) == AccountPositions(db, account)
  {
  }

  lemma FreshRow(w: World, db: Db, p: Placement)
    requires Joined(db.orders, db.execs) && FindByKey(db.orders, p.request.key).None? && IsPaper(w, p.request.account)
    requires PlaceOrder(db, w.accounts, p.env, w.startingCash, p.request).1.Placed?
    ensures var now := PlaceOrder(db, w.accounts, p.env, w.startingCash, p.request).0;
      |now.orders| == |db.orders| + 1 && now.orders[|db.orders|].idemKey == p.request.key
  {
    hide SubmitPaper, CashFlow, EstimateCost, FindFrom;
    var q := p.request;
    if p.env.mark.Some? {
      var balance := AccountBalance(db, q.account, w.startingCash);
      if Gate(p.env, q, balance).None? {
        GatesPass(q.ticket,
            RiskContext(true, p.env.strategy, balance, EstimateCost(q.ticket, p.env.mark.value), 0, None));
        SubmitPaperRow(db, q, p.env.mark.value, balance);
      }
    }
  }

  lemma FillRefines(db: Db, now: Db, reply: Reply, book: P.Book, q: Request, price: real, account: nat,
        startingCash: real, drift: real)
    requires PaperFill(db, now, reply, q, price) && SameTickets(db.orders, now.orders) && Joined(now.orders, now.execs)
    requires Related(db, book, account, startingCash, drift)
    ensures account != q.account ==>
      book.cash == AccountBalance(now, account, startingCash) + drift
          && book.positions == AccountPositions(now, account)
    ensures account == q.account ==>
      && book.cash - P.Money(q.ticket.instr, SignedQty(q.ticket), price)
         == AccountBalance(now, account, startingCash) + drift + FillDrift(q.ticket, price)
      && Upsert(book.positions, q.ticket.instr,
           NetPosition(PositionAt(book.positions, q.ticket.instr), SignedQty(q.ticket), price))
               == AccountPositions(now, account)
  {
    hide NetPosition, P.Money, AccountPositions, CashFlow, FillDrift;
    FillCash(db, now, reply, q, price, account, startingCash);
    var k := PosKey(q.account, q.ticket.instr);
    var pos := NetPosition(PositionAt(db.positions, k), SignedQty(q.ticket), price);
    UpsertAccount(db, k, pos, account);
    SamePositions(db.(positions := Upsert(db.positions, k, pos)), now, account);
  }

  /** Feeding the broker one more order. */
  lemma FeedOne(book: P.Book, events: seq<P.PaperEvent>, t: Ticket, key: P.SubmitKey, mark: real)
    requires P.AllSubmittable(events) && Priced(t)
    ensures var more := events + [P.SubmitEvent(t, key, mark)];
      P.AllSubmittable(more) && P.Run(book, more) == P.Submit(P.Run(book, events), t, key, mark)
  {
    hide P.Submit;
    assert (events + [P.SubmitEvent(t, key, mark)])[..|events|] == events;
  }

  /** One placement, and what it feeds the broker. */
  lemma FedStep(w: World, was: Db, p: Placement, account: nat, book: P.Book, events: seq<P.PaperEvent>, drift: real)
    requires Joined(was.orders, was.execs) && IsPaper(w, account) && P.AllSubmittable(events)
    requires Related(was, P.Run(book, events), account, w.startingCash, drift)
    ensures var now, more := Place(w, was, p), events + FedBy(w, was, p, account);
      && Joined(now.orders, now.execs) && P.AllSubmittable(more)
      && Related(now, P.Run(book, more), account, w.startingCash, drift + StepDrift(w, was, p, account))
  {
    hide Place, Fed, P.Submit, P.Submittable, P.Run, CashFlow, SubmitKeyFor, AccountPositions, StepDrift, Related;
    hide P.AllSubmittable;
    PlaceRefines(w, was, P.Run(book, events), p, account, drift);
    if Fed(w, was, p, account) {
      FeedOne(book, events, p.request.ticket, SubmitKeyFor(p.request, |was.orders|), p.env.mark.value);
    } else {
      assert events + FedBy(w, was, p, account) == events;
    }
  }

  /** One more placement at the end of a run. */
  lemma RunSnoc(w: World, db: Db, ps: seq<Placement>, account: nat)
    requires Joined(db.orders, db.execs) && ps != []
    ensures var before, p := ps[..|ps| - 1], ps[|ps| - 1]; var was := RunDb(w, db, before);
      && Joined(Place(w, was, p).orders, Place(w, was, p).execs)
      && RunDb(w, db, ps) == Place(w, was, p)
      && FedEvents(w, db, ps, account) == FedEvents(w, db, before, account) + FedBy(w, was, p, account)
      && RunDrift(w, db, ps, account) == RunDrift(w, db, before, account) + StepDrift(w, was, p, account)
  {
    hide FedBy, StepDrift, PlaceOrder;
    var before, p := ps[..|ps| - 1], ps[|ps| - 1];
    PlaceOrderJoined(RunDb(w, db, before), w.accounts, p.env, w.startingCash, p.request);
  }

  lemma RefinementNone(w: World, db: Db, book: P.Book, account: nat, drift: real)
    requires Joined(db.orders, db.execs) && Related(db, book, account, w.startingCash, drift)
    ensures FedEvents(w, db, [], account) == [] && P.AllSubmittable([])
    ensures Related(RunDb(w, db, []), P.Run(book, []), account, w.startingCash, drift + RunDrift(w, db, [], account))
  {
    hide Related;
  }

  lemma RefinementStep(w: World, db: Db, book: P.Book, ps: seq<Placement>, account: nat, drift: real)
    requires Joined(db.orders, db.execs) && IsPaper(w, account) && ps != []
    requires var before := ps[..|ps| - 1]; var events := FedEvents(w, db, before, account);
      && P.AllSubmittable(events)
      && Related(RunDb(w, db, before), P.Run(book, events), account, w.startingCash,
                 drift + RunDrift(w, db, before, account))
    ensures var events := FedEvents(w, db, ps, account);
      && P.AllSubmittable(events)
      && Related(RunDb(w, db, ps), P.Run(book, events), account, w.startingCash, drift + RunDrift(w, db, ps, account))
  {
    hide *;
    var before := ps[..|ps| - 1];
    RunSnoc(w, db, ps, account);
    FedStep(w, RunDb(w, db, before), ps[|ps| - 1], account, book, FedEvents(w, db, before, account),
        drift + RunDrift(w, db, before, account));
  }

  /** From any state in step with some broker, placements keep it in step. */
  lemma {:induction false} RefinementFrom(w: World, db: Db, book: P.Book, ps: seq<Placement>, account: nat, drift: real)
    requires Joined(db.orders, db.execs) && IsPaper(w, account)
    requires Related(db, book, account, w.startingCash, drift)
    ensures P.AllSubmittable(FedEvents(w, db, ps, account))
    ensures Related(RunDb(w, db, ps), P.Run(book, FedEvents(w, db, ps, account)), account, w.startingCash,
                    drift + RunDrift(w, db, ps, account))
  {
    hide *;
    if ps == [] {
      RefinementNone(w, db, book, account, drift);
    } else {
      RefinementFrom(w, db, book, ps[..|ps| - 1], account, drift);
      RefinementStep(w, db, book, ps, account, drift);
    }
  }

  /** The refinement: over any run of placements on any accounts, a paper account's rows of the positions table are
      the positions of one long-lived broker fed its accepted orders, and its recomputed balance is that broker's
      cash, less what fills of empty option types have drifted. Without such orders nothing drifts. */
  lemma PaperRefinement(w: World, ps: seq<Placement>, account: nat)
    requires IsPaper(w, account)
    ensures P.AllSubmittable(FedEvents(w, EMPTY, ps, account))
    ensures var db, book := RunDb(w, EMPTY, ps), P.Run(P.NewBook(w.startingCash), FedEvents(w, EMPTY, ps, account));
      Related(db, book, account, w.startingCash, RunDrift(w, EMPTY, ps, account))
    ensures NamedOn(ps, account) ==> RunDrift(w, EMPTY, ps, account) == 0.0
  {
    EmptyRelated(w, account);
    hide *;
    EmptyJoined();
    RefinementFrom(w, EMPTY, P.NewBook(w.startingCash), ps, account, 0.0);
    if NamedOn(ps, account) { NamedRunsAgree(w, EMPTY, ps, account); }
  }

  lemma EmptyJoined()
    ensures Joined(EMPTY.orders, EMPTY.execs)
  {
  }

  lemma EmptyRelated(w: World, account: nat)
    ensures Related(EMPTY, P.NewBook(w.startingCash), account, w.startingCash, 0.0)
  {
    hide AccountPositions, AccountBalance;
    EmptyPositions(account);
    EmptyBalance(account, w.startingCash);
  }

  lemma EmptyPositions(account: nat)
    ensures AccountPositions(EMPTY, account) == map[]
  {
  }

  lemma EmptyBalance(account: nat, startingCash: real)
    ensures AccountBalance(EMPTY, account, startingCash) == startingCash
  {
  }

  /** Hence money is conserved in the tables: recomputed balance plus the cost basis of the positions table is the
      starting cash plus the realised gains. */
  lemma LedgerConserves(w: World, ps: seq<Placement>, account: nat)
    requires IsPaper(w, account) && NamedOn(ps, account)
    ensures P.AllSubmittable(FedEvents(w, EMPTY, ps, account))
    ensures var db := RunDb(w, EMPTY, ps);
      AccountBalance(db, account, w.startingCash) + Total(P.Bases(AccountPositions(db, account)))
      == w.startingCash + P.Gains(P.NewBook(w.startingCash), FedEvents(w, EMPTY, ps, account))
  {
    hide RunDb, FedEvents, P.Run, P.Gains, CashFlow, AccountPositions;
    PaperRefinement(w, ps, account);
    P.RunConserves(P.NewBook(w.startingCash), FedEvents(w, EMPTY, ps, account));
    assert P.Bases(P.NewBook(w.startingCash).positions) == map[];
    TotalEmpty<Instrument>();
  }

  function OneOrder(t: Ticket, mark: real): Placement {
    Placement(Env(Some(mark), None, {}, NoCredentials), Request(0, t, None), false)
  }

  lemma FirstFill(t: Ticket, mark: real, cash: real, price: real)
    requires StructuralGate(t).None? && (t.side.Buy? ==> EstimateCost(t, mark) <= cash)
    requires Priced(t) && Marketable(t, mark) == Some(price)
    ensures var w, p := OneAccount(cash), OneOrder(t, mark);
      && Fed(w, EMPTY, p, 0) && Joined(Place(w, EMPTY, p).orders, Place(w, EMPTY, p).execs)
      && AccountBalance(Place(w, EMPTY, p), 0, cash)
         == cash + Times((if t.side.Buy? then -1 else 1) * t.qty * SqlMultiplier(t.instr), price)
  {
    hide EstimateCost, Times, NetPosition, SubmitPaper, Marketable, StructuralGate, AccountBalance, SameIdentity;
    var w, p := OneAccount(cash), OneOrder(t, mark);
    EmptyBalance(0, cash);
    assert !KeyTaken(EMPTY.orders, None) && FindByKey(EMPTY.orders, None).None?;
    SubmitPaperRow(EMPTY, p.request, mark, cash);
    SubmitPaperEffect(EMPTY, p.request, mark, cash);
    var (now, reply) := SubmitPaper(EMPTY, p.request, mark, cash);
    assert PlaceOrder(EMPTY, w.accounts, p.env, cash, p.request) == (now, reply);
    PlaceOrderJoined(EMPTY, w.accounts, p.env, cash, p.request);
    assert Place(w, EMPTY, p) == now && now.orders[0].ticket == t;
    assert now.execs == [Execution(0, 0, t.qty, price, 0.0, PaperExec(0))];
    OneFillBalance(now, cash);
  }

  lemma OneFillBalance(db: Db, cash: real)
    requires Joined(db.orders, db.execs) && |db.execs| == 1 && db.execs[0].account == 0 && db.execs[0].commission == 0.0
    requires db.execs[0].orderId < |db.orders|
    ensures var e := db.execs[0]; var t := db.orders[e.orderId].ticket;
      AccountBalance(db, 0, cash) == cash
          + Times((if t.side.Buy? then -1 else 1) * e.qty * SqlMultiplier(t.instr), e.price)
  {
    hide Times;
    var e := db.execs[0];
    assert db.execs == [e] && [e][..0] == [];
    assert CashFlow(db.orders, [e], 0) == CashFlow(db.orders, [], 0) + ExecutionCash(e, db.orders[e.orderId].ticket);
  }

  /** A market buy of one contract whose option type is the empty string, with the strike and expiry a mark needs. */
  function UntypedOption(): Ticket {
    Ticket(Instrument("X", Some(""), Some(100.0), Some(30)), Buy, 1, Market, None, None, Day)
  }

  /** An option order whose type is the empty string: the adapter books one share, the SQL a hundred. */
  lemma EmptyOptionTypeSplits()
    ensures var w, t := OneAccount(1000.0), UntypedOption();
      var now := Place(w, EMPTY, OneOrder(t, 10.0));
      && Fed(w, EMPTY, OneOrder(t, 10.0), 0) && Joined(now.orders, now.execs)
      && AccountBalance(now, 0, 1000.0) == 0.0
      && P.Submit(P.NewBook(1000.0), t, P.OrderKey(0), 10.0).cash == 990.0
  {
    hide Place, Fed, CashFlow;
    FirstFill(UntypedOption(), 10.0, 1000.0, 10.0);
  }

  // ---- buying power ----

  /** Market and stop buys; any sale. */
  predicate NoLimitBuy(t: Ticket) { t.side.Buy? ==> t.orderType.Market? || t.orderType.Stop? }

  predicate FairMark(p: Placement) { p.env.mark.Some? ==> p.env.mark.value >= 0.0 }

  /** A gated buy can overdraw by no more than what it paid above the mark; market and stop buys, and all
      sales, leave a non-negative balance non-negative; a filled buy does exactly when its own cost was covered. */
  lemma BuyingPowerStep(w: World, db: Db, p: Placement, account: nat)
    requires Joined(db.orders, db.execs) && IsPaper(w, account) && (p.request.account == account ==> FairMark(p))
    requires AccountBalance(db, account, w.startingCash) >= 0.0
    ensures Joined(Place(w, db, p).orders, Place(w, db, p).execs)
    ensures var q, after := p.request, AccountBalance(Place(w, db, p), account, w.startingCash);
      && (Fed(w, db, p, account) ==> p.env.mark.Some? && Priced(q.ticket))
      && (q.account != account || (NamedContract(q.ticket.instr) && NoLimitBuy(q.ticket)) ==> after >= 0.0)
      && (Fed(w, db, p, account) && NamedContract(q.ticket.instr) && Marketable(q.ticket, p.env.mark.value).Some? ==>
            after >= -Times(q.ticket.qty * Multiplier(q.ticket.instr),
                Max(0.0, Marketable(q.ticket, p.env.mark.value).value - p.env.mark.value)))
      && (Fed(w, db, p, account) && Marketable(q.ticket, p.env.mark.value).Some? && q.ticket.side.Buy? ==>
            (after >= 0.0 <==>
             Times(q.ticket.qty * SqlMultiplier(q.ticket.instr), Marketable(q.ticket, p.env.mark.value).value)
               <= AccountBalance(db, account, w.startingCash)))
  {
    hide PlaceOrder, CashFlow, Marketable, FindByKey, NetPosition, Times, EstimateCost;
    var q := p.request;
    var (now, reply) := PlaceOrder(db, w.accounts, p.env, w.startingCash, q);
    PlaceEffect(w, db, p);
    PlaceOrderAppends(db, w.accounts, p.env, w.startingCash, q);
    PlaceOrderJoined(db, w.accounts, p.env, w.startingCash, q);
    AppendsSameTickets(db, now);
    if FindByKey(db.orders, q.key).None? && reply.Placed? && IsPaper(w, q.account)
      && Marketable(q.ticket, p.env.mark.value).Some? {
      var price := Marketable(q.ticket, p.env.mark.value).value;
      FillCash(db, now, reply, q, price, account, w.startingCash);
      if q.account == account {
        FillDriftsIff(q.ticket, price);
        FillPriceBounds(q.ticket, p.env.mark.value);
        MoneyBounds(q.ticket, price, p.env.mark.value);
        if q.ticket.side.Buy? { BuyPays(q.ticket, price); }
      }
    } else {
      NoNewExecutions(db, now, account, w.startingCash);
    }
  }

  /** A filled buy takes its SQL notional out of the recomputed balance. */
  lemma BuyPays(t: Ticket, price: real)
    requires t.side.Buy?
    ensures P.Money(t.instr, SignedQty(t), price) + FillDrift(t, price) == Times(t.qty * SqlMultiplier(t.instr), price)
  {
    hide Times;
    var m, sql := Multiplier(t.instr), SqlMultiplier(t.instr);
    TimesAdd(m * t.qty, (sql - m) * t.qty, price);
    assert m * t.qty + (sql - m) * t.qty == t.qty * sql;
  }

  lemma MoneyBounds(t: Ticket, price: real, mark: real)
    requires t.qty > 0 && price >= 0.0
    ensures t.side.Buy? ==>
      P.Money(t.instr, SignedQty(t), price) == EstimateCost(t, mark) + Times(t.qty * Multiplier(t.instr), price - mark)
    ensures !t.side.Buy? ==> P.Money(t.instr, SignedQty(t), price) <= 0.0
    ensures Times(t.qty * Multiplier(t.instr), Max(0.0, price - mark)) >= 0.0
    ensures price == mark ==> Times(t.qty * Multiplier(t.instr), price - mark) == 0.0
  {
    hide Times;
    var n := t.qty * Multiplier(t.instr);
    assert n > 0;
    P.NotionalIsMoney(t, price);
    TimesSub(n, price, mark);
    TimesSign(n, price);
    TimesSign(n, Max(0.0, price - mark));
    TimesMono(n, 0.0, 0.0);
  }

  /** From a non-negative balance and non-negative marks, no run whose buys on the account are market or stop
      orders ever takes the recomputed balance below zero. */
  lemma {:induction false} BuyingPowerHolds(w: World, db: Db, ps: seq<Placement>, account: nat)
    requires Joined(db.orders, db.execs) && IsPaper(w, account) && AccountBalance(db, account, w.startingCash) >= 0.0
    requires NamedOn(ps, account)
    requires forall p :: p in ps && p.request.account == account ==> FairMark(p) && NoLimitBuy(p.request.ticket)
    ensures AccountBalance(RunDb(w, db, ps), account, w.startingCash) >= 0.0
  {
    hide Place, Fed, CashFlow, FairMark, NamedContract, NoLimitBuy, Marketable;
    if ps != [] {
      BuyingPowerHolds(w, db, ps[..|ps| - 1], account);
      assert ps[|ps| - 1] in ps;
      BuyingPowerStep(w, RunDb(w, db, ps[..|ps| - 1]), ps[|ps| - 1], account);
    }
  }

  /** A marketable limit buy is checked at the mark but filled at its limit, and can overdraw the account. */
  lemma LimitBuyOverdraws()
    ensures var w, t := OneAccount(100.0),
      Ticket(Instrument("X", None, None, None), Buy, 1, Limit, Some(200.0), None, Day);
      var now := Place(w, EMPTY, OneOrder(t, 100.0));
      Joined(now.orders, now.execs) && AccountBalance(now, 0, 100.0) == -100.0
  {
    hide Place, Fed, CashFlow;
    FirstFill(Ticket(Instrument("X", None, None, None), Buy, 1, Limit, Some(200.0), None, Day), 100.0, 100.0, 200.0);
  }
}
