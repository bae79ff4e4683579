/** Replaying a strategy request under its own key. */
module Replay {
  import opened Orders
  import opened Ledger
  import opened Service

  function Count(rs: seq<LegResult>, p: LegResult -> bool): nat {
    if rs == [] then 0 else Count(rs[..|rs| - 1], p) + (if p(rs[|rs| - 1]) then 1 else 0)
  }

  predicate WellFormedLeg(leg: Leg) {
    leg.OrderLeg? ==> leg.qty.GetOr(0) > 0 && !leg.side.GetOr(Buy).OtherSide?
  }

  predicate OnPaper(accounts: Accounts, account: nat) {
    account in accounts ==> accounts[account].broker == "paper"
  }

  /** What the key of a leg refers to once the leg has been placed or rejected with a row. */
  ghost predicate Recorded(db: Db, q: Request, r: LegResult) {
    var f := FindByKey(db.orders, q.key);
    f.Some? && f.value < |db.orders| &&
    match r
    case Skipped => false
    case Done(o, status) => status == db.orders[f.value].status
    case Refused(_) => db.orders[f.value].status == Rejected
  }

  /** The account itself turns every order away, before any row is written. */
  predicate TurnedAway(accounts: Accounts, account: nat) {
    account !in accounts || !accounts[account].active
  }

  ghost predicate LegSettled(db: Db, accounts: Accounts, s: StrategyRequest, i: nat, r: LegResult)
    requires i < |s.legs|
  {
    if s.legs[i].CashLeg? then r == Skipped
    else
      Recorded(db, LegRequest(s, i), r)
      || (TurnedAway(accounts, s.account) && FindByKey(db.orders, LegRequest(s, i).key).None? && r.Refused?)
  }

  /** Rows appended later do not change what a recorded key refers to. */
  lemma RecordedStable(db: Db, now: Db, q: Request, r: LegResult)
    requires Appends(db, now) && Recorded(db, q, r)
    ensures Recorded(now, q, r)
  {
    assert forall j :: 0 <= j < |db.orders| ==> now.orders[j] == now.orders[..|db.orders|][j];
    FindStable(db.orders, now.orders, q.key, 0);
    FindIndex(db.orders, q.key, 0);
  }

  /** A market order on a paper account always ends in a row, unless the account turns it away. */
  lemma PaperLegRecorded(db: Db, accounts: Accounts, env: Env, startingCash: real, s: StrategyRequest, i: nat)
    requires Joined(db.orders, db.execs) && i < |s.legs| && s.legs[i].OrderLeg?
    requires WellFormedLeg(s.legs[i]) && OnPaper(accounts, s.account)
    ensures var (now, reply) := PlaceOrder(db, accounts, env, startingCash, LegRequest(s, i));
      && !reply.Crashed?
      && (reply.Placed? ==> Recorded(now, LegRequest(s, i), Done(reply.orderId, reply.status)))
      && (reply.Failed? ==>
            Recorded(now, LegRequest(s, i), Refused(reply.code))
            || (TurnedAway(accounts, s.account) && now == db && FindByKey(db.orders, LegRequest(s, i).key).None?))
  {
    hide CashFlow, EstimateCost, SubmitPaper;
    var q := LegRequest(s, i);
    var (now, reply) := PlaceOrder(db, accounts, env, startingCash, q);
    assert q.key.value != "" && q.key.GetOr("") == q.key.value;
    FindIndex(db.orders, q.key, 0);
    PlaceOrderAppends(db, accounts, env, startingCash, q);
    assert forall j :: 0 <= j < |db.orders| ==> now.orders[j] == now.orders[..|db.orders|][j];
    FindStable(db.orders, now.orders, q.key, 0);
    assert ChecksHold(q.ticket) && Priced(q.ticket);
    if env.mark.Some? {
      SubmitPaperRow(db, q, env.mark.value, AccountBalance(db, q.account, startingCash));
    }
  }

  lemma {:induction false} LegsSettled(db: Db, accounts: Accounts, envs: nat -> Env, startingCash: real,
        s: StrategyRequest, n: nat)
    requires Joined(db.orders, db.execs) && n <= |s.legs| && OnPaper(accounts, s.account)
    requires forall leg :: leg in s.legs ==> WellFormedLeg(leg)
    ensures var (now, reply) := PlaceLegs(db, accounts, envs, startingCash, s, n);
      reply.Results? && |reply.results| == n
      && forall i :: 0 <= i < n ==> LegSettled(now, accounts, s, i, reply.results[i])
  {
    hide PlaceOrder, Recorded, WellFormedLeg, LegRequest;
    if n > 0 {
      LegsSettled(db, accounts, envs, startingCash, s, n - 1);
      var (was, before) := PlaceLegs(db, accounts, envs, startingCash, s, n - 1);
      var (now, reply) := PlaceLegs(db, accounts, envs, startingCash, s, n);
      if s.legs[n - 1].OrderLeg? {
        assert s.legs[n - 1] in s.legs;
        PaperLegRecorded(was, accounts, envs(n - 1), startingCash, s, n - 1);
        PlaceOrderAppends(was, accounts, envs(n - 1), startingCash, LegRequest(s, n - 1));
        forall i | 0 <= i < n - 1 ensures LegSettled(now, accounts, s, i, before.results[i]) {
          assert LegSettled(was, accounts, s, i, before.results[i]);
          SettledStable(was, accounts, envs(n - 1), startingCash, s, n - 1, i, before.results[i]);
        }
      }
    }
  }

  /** Placing another leg leaves an earlier leg settled. */
  lemma SettledStable(db: Db, accounts: Accounts, env: Env, startingCash: real, s: StrategyRequest, n: nat, i: nat,
        r: LegResult)
    requires Joined(db.orders, db.execs) && i < n < |s.legs| && s.legs[n].OrderLeg?
    requires OnPaper(accounts, s.account) && LegSettled(db, accounts, s, i, r)
    ensures LegSettled(PlaceOrder(db, accounts, env, startingCash, LegRequest(s, n)).0, accounts, s, i, r)
  {
    hide Recorded, LegRequest;
    var now := PlaceOrder(db, accounts, env, startingCash, LegRequest(s, n)).0;
    if s.legs[i].OrderLeg? && Recorded(db, LegRequest(s, i), r) {
      PlaceOrderAppends(db, accounts, env, startingCash, LegRequest(s, n));
      RecordedStable(db, now, LegRequest(s, i), r);
    } else if s.legs[i].OrderLeg? {
      assert LegRequest(s, n).account == s.account by { LegAccount(s, n); }
      assert now == db;
    }
  }

  lemma LegAccount(s: StrategyRequest, n: nat)
    requires n < |s.legs| && s.legs[n].OrderLeg?
    ensures LegRequest(s, n).account == s.account
  {
  }

  predicate SameKind(a: LegResult, b: LegResult) {
    CountsPlaced(a) == CountsPlaced(b) && CountsRejected(a) == CountsRejected(b)
  }

  lemma ReplayedLeg(db: Db, accounts: Accounts, env: Env, startingCash: real, s: StrategyRequest, i: nat, r: LegResult)
    requires Joined(db.orders, db.execs) && i < |s.legs| && s.legs[i].OrderLeg? && LegSettled(db, accounts, s, i, r)
    ensures var (now, reply) := PlaceOrder(db, accounts, env, startingCash, LegRequest(s, i));
      && now == db && !reply.Crashed?
      && (reply.Placed? ==> SameKind(Done(reply.orderId, reply.status), r))
      && (reply.Failed? ==> SameKind(Refused(reply.code), r))
  {
    hide CashFlow, EstimateCost, SubmitPaper, FindFrom, RunGates, Digits;
    LegAccount(s, i);
  }

  lemma ReplayStep(db: Db, accounts: Accounts, envs: nat -> Env, startingCash: real, s: StrategyRequest,
        xs: seq<LegResult>, n: nat, r: LegResult)
      returns (x: LegResult)
    requires Joined(db.orders, db.execs) && 0 < n <= |s.legs| && LegSettled(db, accounts, s, n - 1, r)
    requires PlaceLegs(db, accounts, envs, startingCash, s, n - 1) == (db, Results(xs))
    ensures PlaceLegs(db, accounts, envs, startingCash, s, n) == (db, Results(xs + [x])) && SameKind(x, r)
  {
    hide PlaceOrder, LegRequest, Recorded;
    if s.legs[n - 1].CashLeg? {
      x := Skipped;
    } else {
      ReplayedLeg(db, accounts, envs(n - 1), startingCash, s, n - 1, r);
      var reply := PlaceOrder(db, accounts, envs(n - 1), startingCash, LegRequest(s, n - 1)).1;
      x := if reply.Placed? then Done(reply.orderId, reply.status) else Refused(reply.code);
    }
  }

  lemma CountSnoc(rs: seq<LegResult>, r: LegResult, p: LegResult -> bool)
    ensures Count(rs + [r], p) == Count(rs, p) + (if p(r) then 1 else 0)
  {
    assert (rs + [r])[..|rs|] == rs;
  }

  lemma {:induction false} ReplayLegs(db: Db, accounts: Accounts, envs: nat -> Env, startingCash: real,
        s: StrategyRequest, rs: seq<LegResult>, n: nat)
    requires Joined(db.orders, db.execs) && n <= |s.legs| == |rs|
    requires forall i :: 0 <= i < |s.legs| ==> LegSettled(db, accounts, s, i, rs[i])
    ensures var (now, reply) := PlaceLegs(db, accounts, envs, startingCash, s, n);
      && now == db && reply.Results?
      && Count(reply.results, CountsPlaced) == Count(rs[..n], CountsPlaced)
      && Count(reply.results, CountsRejected) == Count(rs[..n], CountsRejected)
  {
    hide LegSettled, PlaceOrder;
    if n > 0 {
      ReplayLegs(db, accounts, envs, startingCash, s, rs, n - 1);
      hide PlaceLegs, Count;
      var xs := PlaceLegs(db, accounts, envs, startingCash, s, n - 1).1.results;
      var x := ReplayStep(db, accounts, envs, startingCash, s, xs, n, rs[n - 1]);
      assert rs[..n] == rs[..n - 1] + [rs[n - 1]];
      CountSnoc(xs, x, CountsPlaced);
      CountSnoc(xs, x, CountsRejected);
      CountSnoc(rs[..n - 1], rs[n - 1], CountsPlaced);
      CountSnoc(rs[..n - 1], rs[n - 1], CountsRejected);
    }
  }

  /** A paper strategy with well-formed legs never crashes, and sending it again under the same key changes
      no table and reports the same placed and rejected counts, whatever the marks are by then. */
  lemma StrategyReplay(db: Db, accounts: Accounts, envs: nat -> Env, later: nat -> Env, startingCash: real,
        s: StrategyRequest)
    requires Joined(db.orders, db.execs) && OnPaper(accounts, s.account)
    requires forall leg :: leg in s.legs ==> WellFormedLeg(leg)
    ensures var (once, first) := HandleStrategy(db, accounts, envs, startingCash, s);
      && first.Results? && Joined(once.orders, once.execs)
      && var (twice, second) := HandleStrategy(once, accounts, later, startingCash, s);
      && twice == once && second.Results?
      && Count(second.results, CountsPlaced) == Count(first.results, CountsPlaced)
      && Count(second.results, CountsRejected) == Count(first.results, CountsRejected)
  {
    hide PlaceLegs, LegRequest, Recorded, WellFormedLeg;
    LegsSettled(db, accounts, envs, startingCash, s, |s.legs|);
    var (once, first) := PlaceLegs(db, accounts, envs, startingCash, s, |s.legs|);
    ReplayLegs(once, accounts, later, startingCash, s, first.results, |s.legs|);
    assert first.results[..|s.legs|] == first.results;
  }
}
