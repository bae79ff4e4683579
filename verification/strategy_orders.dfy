/** A strategy request on a paper account: every leg becomes an order of its own, with the leg's own terms. */
module StrategyOrders {
  import opened Wrappers
  import opened Positions
  import opened Orders
  import opened Ledger
  import opened Service
  import opened Replay
  import opened OrderLaws

  // ---- the keys of two legs differ ----

  function DigitValue(c: char): nat { if '0' <= c <= '9' then (c - '0') as nat else 0 }

  /** The number a decimal text stands for. */
  function NumberOf(text: string): nat {
    if text == "" then 0 else 10 * NumberOf(text[..|text| - 1]) + DigitValue(text[|text| - 1])
  }

  lemma {:induction false} DigitsRoundTrip(n: nat)
    ensures Digits(n) != "" && NumberOf(Digits(n)) == n
  {
    if n < 10 {
      var c := "0123456789"[n];
      assert DigitValue(c) == n;
      assert [c][..0] == "";
    } else {
      DigitsRoundTrip(n / 10);
      var c := "0123456789"[n % 10];
      assert DigitValue(c) == n % 10;
      assert (Digits(n / 10) + [c])[..|Digits(n / 10)|] == Digits(n / 10);
    }
  }

  /** The key of leg i's order. */
  function LegKey(s: StrategyRequest, i: nat): string { s.key + ":" + Digits(i) }

  lemma LegKeysDiffer(s: StrategyRequest, i: nat, j: nat)
    requires i != j
    ensures LegKey(s, i) != LegKey(s, j)
  {
    DigitsRoundTrip(i);
    DigitsRoundTrip(j);
    var head := s.key + ":";
    assert (head + Digits(i))[|head|..] == Digits(i) && (head + Digits(j))[|head|..] == Digits(j);
  }

  // ---- one leg ----

  /** A market day order with the leg's side, quantity and contract; only option legs carry contract terms, and a leg
      without a side buys. */
  predicate IsLegOrder(row: Order, s: StrategyRequest, i: nat)
    requires i < |s.legs| && s.legs[i].OrderLeg?
  {
    var leg, t := s.legs[i], row.ticket;
    && row.account == s.account && row.idemKey == Some(LegKey(s, i))
    && t.instr.symbol == s.underlying
    && (if leg.isOption
        then t.instr.optionType == leg.instr.optionType && t.instr.strike == leg.instr.strike
            && t.instr.expiry == leg.instr.expiry
        else t.instr.optionType.None? && t.instr.strike.None? && t.instr.expiry.None?)
    && (match leg.side case Some(side) => t.side == side case None => t.side == Buy)
    && (match leg.qty case Some(qty) => t.qty == qty case None => t.qty == 0)
    && t.orderType == Market && t.limitPrice.None? && t.stopPrice.None? && t.tif == Day
  }

  /** What leg i's result says of the row its order got: filled, or refused with the code on the row. */
  predicate ResultTells(r: LegResult, o: nat, row: Order) {
    match r
    case Skipped => false
    case Done(id, status) => id == o && status == row.status == Filled && row.rejectCode.None?
    case Refused(code) => row.status == Rejected && row.rejectCode == Some(code)
  }

  predicate OnActivePaper(w: World, account: nat) {
    account in w.accounts && w.accounts[account] == Account("paper", true)
  }

  function ResultOf(reply: Reply): LegResult {
    match reply
    case Placed(o, status) => Done(o, status)
    case Failed(code) => Refused(code)
    case Crashed => Skipped
  }

  lemma LegPlaced(w: World, db: Db, env: Env, s: StrategyRequest, i: nat)
    requires Joined(db.orders, db.execs) && i < |s.legs| && s.legs[i].OrderLeg? && WellFormedLeg(s.legs[i])
    requires OnActivePaper(w, s.account) && FreshKey(db, Some(LegKey(s, i)))
    ensures var (now, reply) := PlaceOrder(db, w.accounts, env, w.startingCash, LegRequest(s, i)); var n := |db.orders|;
      && !reply.Crashed? && |now.orders| == n + 1 && now.orders[..n] == db.orders
      && IsLegOrder(now.orders[n], s, i) && ResultTells(ResultOf(reply), n, now.orders[n])
  {
    var q, n := LegRequest(s, i), |db.orders|;
    LegTerms(s, i);
    hide LegRequest;
    FreshIsNew(db, q.key);
    PlaceOrderAppends(db, w.accounts, env, w.startingCash, q);
    if env.mark.Some? {
      PaperAccepts(w, db, env, q);
      MarketFills(w, db, env, q);
      PlacedIdentity(w, db, env, q);
    } else {
      hide AccountBalance, SubmitPaper, KeyTaken, FindByKey, RunGates;
    }
  }

  lemma LegTerms(s: StrategyRequest, i: nat)
    requires i < |s.legs| && s.legs[i].OrderLeg?
    ensures var q := LegRequest(s, i);
      && q.account == s.account && q.key == Some(LegKey(s, i))
      && IsLegOrder(NewRow(q, Pending, None), s, i)
      && (WellFormedLeg(s.legs[i]) ==> ChecksHold(q.ticket) && Priced(q.ticket))
  {
    hide Digits;
  }

  /** An accepted market order has filled. */
  lemma MarketFills(w: World, db: Db, env: Env, q: Request)
    requires Joined(db.orders, db.execs) && FreshKey(db, q.key) && env.mark.Some? && OnActivePaper(w, q.account)
    requires q.ticket.orderType == Market
    ensures var reply := PlaceOrder(db, w.accounts, env, w.startingCash, q).1; reply.Placed? ==> reply.status == Filled
  {
    PaperAccepts(w, db, env, q);
    hide PlaceOrder;
  }

  lemma PlacedIdentity(w: World, db: Db, env: Env, q: Request)
    requires Joined(db.orders, db.execs) && FreshKey(db, q.key) && OnActivePaper(w, q.account) && ChecksHold(q.ticket)
    ensures var (now, reply) := PlaceOrder(db, w.accounts, env, w.startingCash, q); var n := |db.orders|;
      !reply.Crashed? && |now.orders| == n + 1 && SameIdentity(NewRow(q, Pending, None), now.orders[n])
  {
    FreshIsNew(db, q.key);
    hide AccountBalance, EstimateCost, FindByKey, KeyTaken, SubmitPaper;
    if env.mark.Some? {
      var balance := AccountBalance(db, q.account, w.startingCash);
      if Gate(env, q, balance).None? {
        GatesPass(q.ticket, RiskContext(true, env.strategy, balance, EstimateCost(q.ticket, env.mark.value), 0, None));
        SubmitPaperRow(db, q, env.mark.value, balance);
      }
    }
  }

  // ---- the request ----

  /** Order legs among the first n. */
  function OrderLegs(s: StrategyRequest, n: nat): nat
    requires n <= |s.legs|
  {
    if n == 0 then 0 else OrderLegs(s, n - 1) + (if s.legs[n - 1].OrderLeg? then 1 else 0)
  }

  lemma {:induction false} OrderLegsGrow(s: StrategyRequest, i: nat, n: nat)
    requires i < n <= |s.legs| && s.legs[i].OrderLeg?
    ensures OrderLegs(s, i) < OrderLegs(s, n)
  {
    if i < n - 1 { OrderLegsGrow(s, i, n - 1); }
  }

  /** The first n legs, placed: one new row for each order leg, in the order of the legs, and nothing else. */
  ghost predicate LegsPlaced(db: Db, now: Db, s: StrategyRequest, n: nat, results: seq<LegResult>)
    requires n <= |s.legs|
  {
    && |results| == n && |now.orders| == |db.orders| + OrderLegs(s, n) && now.orders[..|db.orders|] == db.orders
    && (forall i :: 0 <= i < n ==> LegDone(db, now, s, i, results[i]))
    && (forall r :: r in now.orders ==> r in db.orders || exists i :: 0 <= i < n && r.idemKey == Some(LegKey(s, i)))
  }

  /** Leg i: skipped if it is cash; otherwise the row of its rank carries its order, and the result tells of
      that row. */
  ghost predicate LegDone(db: Db, now: Db, s: StrategyRequest, i: nat, r: LegResult)
    requires i < |s.legs|
  {
    var o := |db.orders| + OrderLegs(s, i);
    if s.legs[i].CashLeg? then r == Skipped
    else o < |now.orders| && IsLegOrder(now.orders[o], s, i) && ResultTells(r, o, now.orders[o])
  }

  /** None of the request's keys has been used. */
  ghost predicate FreshRequest(db: Db, s: StrategyRequest) {
    forall i: nat, r :: r in db.orders ==> r.idemKey != Some(LegKey(s, i))
  }

  lemma KeyStillFresh(db: Db, now: Db, s: StrategyRequest, n: nat, results: seq<LegResult>)
    requires n <= |s.legs| && FreshRequest(db, s) && LegsPlaced(db, now, s, n, results)
    ensures FreshKey(now, Some(LegKey(s, n)))
  {
    hide LegKey, LegDone;
    forall r | r in now.orders ensures r.idemKey != Some(LegKey(s, n)) {
      if r !in db.orders {
        var i :| 0 <= i < n && r.idemKey == Some(LegKey(s, i));
        LegKeysDiffer(s, i, n);
      }
    }
  }

  lemma OneMoreLeg(db: Db, was: Db, now: Db, s: StrategyRequest, n: nat, results: seq<LegResult>, r: LegResult)
    requires n < |s.legs| && s.legs[n].OrderLeg? && LegsPlaced(db, was, s, n, results)
    requires |now.orders| == |was.orders| + 1 && now.orders[..|was.orders|] == was.orders
    requires IsLegOrder(now.orders[|was.orders|], s, n) && ResultTells(r, |was.orders|, now.orders[|was.orders|])
    ensures LegsPlaced(db, now, s, n + 1, results + [r])
  {
    hide IsLegOrder, ResultTells, LegKey;
    var m := |was.orders|;
    assert now.orders[..|db.orders|] == was.orders[..|db.orders|];
    forall i | 0 <= i < n + 1 ensures LegDone(db, now, s, i, (results + [r])[i]) {
      if i < n {
        assert LegDone(db, was, s, i, results[i]);
        var o := |db.orders| + OrderLegs(s, i);
        if s.legs[i].OrderLeg? { assert now.orders[o] == now.orders[..m][o]; }
      }
    }
    NewRowsKeyed(db, was, now, s, n, results);
  }

  lemma NewRowsKeyed(db: Db, was: Db, now: Db, s: StrategyRequest, n: nat, results: seq<LegResult>)
    requires n < |s.legs| && s.legs[n].OrderLeg? && LegsPlaced(db, was, s, n, results)
    requires |now.orders| == |was.orders| + 1 && now.orders[..|was.orders|] == was.orders
    requires IsLegOrder(now.orders[|was.orders|], s, n)
    ensures forall r :: r in now.orders ==>
      r in db.orders || exists i :: 0 <= i < n + 1 && r.idemKey == Some(LegKey(s, i))
  {
    hide LegKey, LegDone;
    var m := |was.orders|;
    forall r | r in now.orders ensures r in db.orders || exists i :: 0 <= i < n + 1 && r.idemKey == Some(LegKey(s, i)) {
      var k :| 0 <= k < |now.orders| && now.orders[k] == r;
      if k < m {
        assert r == now.orders[..m][k] && r in was.orders;
      }
    }
  }

  lemma {:induction false} FirstLegsPlaced(w: World, db: Db, envs: nat -> Env, s: StrategyRequest, n: nat)
    requires Joined(db.orders, db.execs) && n <= |s.legs| && OnActivePaper(w, s.account) && FreshRequest(db, s)
    requires forall leg :: leg in s.legs ==> WellFormedLeg(leg)
    ensures var (now, reply) := PlaceLegs(db, w.accounts, envs, w.startingCash, s, n);
      reply.Results? && LegsPlaced(db, now, s, n, reply.results)
  {
    hide PlaceOrder, LegRequest, WellFormedLeg, LegsPlaced, FreshRequest;
    if n == 0 {
      NoLegsPlaced(db, s);
    } else {
      FirstLegsPlaced(w, db, envs, s, n - 1);
      var (was, before) := PlaceLegs(db, w.accounts, envs, w.startingCash, s, n - 1);
      if s.legs[n - 1].OrderLeg? {
        assert s.legs[n - 1] in s.legs;
        KeyStillFresh(db, was, s, n - 1, before.results);
        LegPlaced(w, was, envs(n - 1), s, n - 1);
        var (now, reply) := PlaceOrder(was, w.accounts, envs(n - 1), w.startingCash, LegRequest(s, n - 1));
        OneMoreLeg(db, was, now, s, n - 1, before.results, ResultOf(reply));
      } else {
        CashLegSkipped(db, was, s, n - 1, before.results);
      }
    }
  }

  lemma NoLegsPlaced(db: Db, s: StrategyRequest)
    ensures LegsPlaced(db, db, s, 0, [])
  {
  }

  lemma CashLegSkipped(db: Db, was: Db, s: StrategyRequest, n: nat, results: seq<LegResult>)
    requires n < |s.legs| && s.legs[n].CashLeg? && LegsPlaced(db, was, s, n, results)
    ensures LegsPlaced(db, was, s, n + 1, results + [Skipped])
  {
    hide IsLegOrder, ResultTells, LegKey;
    forall i | 0 <= i < n + 1 ensures LegDone(db, was, s, i, (results + [Skipped])[i]) {
      if i < n { assert LegDone(db, was, s, i, results[i]); }
    }
    forall r | r in was.orders ensures r in db.orders || exists i :: 0 <= i < n + 1 && r.idemKey == Some(LegKey(s, i)) {
      if r !in db.orders {
        var i :| 0 <= i < n && r.idemKey == Some(LegKey(s, i));
        assert 0 <= i < n + 1;
      }
    }
  }

  /** A strategy of well-formed legs, under keys not used before, on an active paper account: exactly one new order per
      order leg, with that leg's side, quantity and contract as a market day order; every result tells of its own
      leg's row, cash legs are skipped, and two legs never share an order. */
  lemma StrategyPlacesEveryLeg(w: World, db: Db, envs: nat -> Env, s: StrategyRequest)
    requires Joined(db.orders, db.execs) && OnActivePaper(w, s.account) && FreshRequest(db, s)
    requires forall leg :: leg in s.legs ==> WellFormedLeg(leg)
    ensures var (now, reply) := HandleStrategy(db, w.accounts, envs, w.startingCash, s);
      && reply.Results? && |reply.results| == |s.legs|
      && |now.orders| == |db.orders| + OrderLegs(s, |s.legs|) && now.orders[..|db.orders|] == db.orders
      && (forall i :: 0 <= i < |s.legs| ==> LegDone(db, now, s, i, reply.results[i]))
      && (forall i, j :: 0 <= i < j < |s.legs| && reply.results[i].Done? && reply.results[j].Done? ==>
            reply.results[i].orderId != reply.results[j].orderId)
  {
    hide PlaceLegs, IsLegOrder, LegRequest;
    FirstLegsPlaced(w, db, envs, s, |s.legs|);
    var (now, reply) := HandleStrategy(db, w.accounts, envs, w.startingCash, s);
    forall i, j | 0 <= i < j < |s.legs| && reply.results[i].Done? && reply.results[j].Done?
      ensures reply.results[i].orderId != reply.results[j].orderId
    {
      assert LegDone(db, now, s, i, reply.results[i]) && LegDone(db, now, s, j, reply.results[j]);
      OrderLegsGrow(s, i, j);
    }
  }
}
