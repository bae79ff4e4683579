/** The metered LLM budget: read the month's spend, call, record. One tenant, one calendar month. */
module LlmBudget {
  import opened Wrappers
  import opened Numbers

  datatype UsageRow = UsageRow(note: Option<nat>, purpose: string, model: string, promptTokens: nat,
        completionTokens: nat, cost: real)

  datatype ChatResult = ChatResult(model: string, promptTokens: nat, completionTokens: nat)

  /** USD per million prompt and completion tokens; unknown models are free. */
  function Rates(model: string): (real, real) {
    if model == "gpt-4o-mini" then (0.15, 0.60)
    else if model == "claude-3-5-haiku-latest" then (0.80, 4.00)
    else (0.0, 0.0)
  }

  /** Half-up to six decimals, for non-negative amounts. */
  function Quantize(x: real): real { (x * 1000000.0 + 0.5).Floor as real / 1000000.0 }

  function EstimateCost(model: string, promptTokens: nat, completionTokens: nat): real {
    Quantize(Mul(promptTokens as real / 1000000.0, Rates(model).0)
        + Mul(completionTokens as real / 1000000.0, Rates(model).1))
  }

  predicate BudgetExceeded(spent: real, cap: real) { spent >= cap }

  function Spend(rows: seq<UsageRow>): real {
    if rows == [] then 0.0 else Spend(rows[..|rows| - 1]) + rows[|rows| - 1].cost
  }

  function RowOf(note: Option<nat>, purpose: string, r: ChatResult): UsageRow {
    UsageRow(note, purpose, r.model, r.promptTokens, r.completionTokens,
        EstimateCost(r.model, r.promptTokens, r.completionTokens))
  }

  // ---- callers interleaving read, call and record ----

  /** Between its two transactions a caller is past the budget check and has spent what no one can see yet. */
  datatype Phase = Idle | Approved | Answered(row: UsageRow)

  datatype State = State(rows: seq<UsageRow>, callers: seq<Phase>)

  datatype Action =
    | Read(caller: nat)
    | Answer(caller: nat, row: UsageRow)
    | GiveUp(caller: nat)
    | Record(caller: nat)

  /** One step of one caller; a step that is not its turn changes nothing. */
  function Next(s: State, a: Action, cap: real): State {
    if a.caller >= |s.callers| then s
    else
      match (a, s.callers[a.caller])
      case (Read(i), Idle) => if BudgetExceeded(Spend(s.rows), cap) then s else s.(callers := s.callers[i := Approved])
      case (Answer(i, row), Approved) => s.(callers := s.callers[i := Answered(row)])
      case (GiveUp(i), Approved) => s.(callers := s.callers[i := Idle])
      case (Record(i), Answered(row)) => State(s.rows + [row], s.callers[i := Idle])
      case _ => s
  }

  function Run(s: State, actions: seq<Action>, cap: real): State {
    if actions == [] then s else Next(Run(s, actions[..|actions| - 1], cap), actions[|actions| - 1], cap)
  }

  predicate Cheap(a: Action, c: real) { a.Answer? ==> 0.0 <= a.row.cost <= c }

  /** Callers past the check and not yet recorded. */
  function Busy(callers: seq<Phase>): nat {
    if callers == [] then 0 else Busy(callers[..|callers| - 1]) + (if callers[|callers| - 1].Idle? then 0 else 1)
  }

  lemma {:induction false} BusyUpdate(callers: seq<Phase>, i: nat, p: Phase)
    requires i < |callers|
    ensures Busy(callers[i := p]) == Busy(callers) - (if callers[i].Idle? then 0 else 1) + (if p.Idle? then 0 else 1)
  {
    var n := |callers| - 1;
    if i < n {
      assert callers[i := p][..n] == callers[..n][i := p];
      BusyUpdate(callers[..n], i, p);
    } else {
      assert callers[i := p][..n] == callers[..n];
    }
  }

  lemma {:induction false} BusyBound(callers: seq<Phase>)
    ensures Busy(callers) <= |callers|
    ensures Busy(callers) == 0 <==> forall i :: 0 <= i < |callers| ==> callers[i].Idle?
  {
    if callers != [] { BusyBound(callers[..|callers| - 1]); }
  }

  lemma SpendSnoc(rows: seq<UsageRow>, row: UsageRow)
    ensures Spend(rows + [row]) == Spend(rows) + row.cost
  {
    assert (rows + [row])[..|rows|] == rows;
  }

  /** What is recorded, plus the most the callers in flight may still add, stays below cap + K * c. */
  ghost predicate WithinBudget(s: State, cap: real, c: real, callers: nat) {
    && |s.callers| == callers
    && (forall i :: 0 <= i < |s.callers| && s.callers[i].Answered? ==> 0.0 <= s.callers[i].row.cost <= c)
    && Spend(s.rows) + Times(Busy(s.callers), c) < cap + Times(callers, c)
  }

  /** A caller in flight moves on without finishing. */
  lemma Stay(s: State, i: nat, p: Phase, cap: real, c: real)
    requires i < |s.callers| && WithinBudget(s, cap, c, |s.callers|)
    requires !s.callers[i].Idle? && !p.Idle? && (p.Answered? ==> 0.0 <= p.row.cost <= c)
    ensures WithinBudget(s.(callers := s.callers[i := p]), cap, c, |s.callers|)
  {
    hide Times, Spend;
    BusyUpdate(s.callers, i, p);
  }

  /** A caller passes the check: at that moment the recorded spend itself is below the cap. */
  lemma Enter(s: State, i: nat, cap: real, c: real)
    requires i < |s.callers| && WithinBudget(s, cap, c, |s.callers|)
    requires s.callers[i].Idle? && Spend(s.rows) < cap && c >= 0.0
    ensures WithinBudget(s.(callers := s.callers[i := Approved]), cap, c, |s.callers|)
  {
    hide Times, Spend;
    var now := s.callers[i := Approved];
    BusyBound(now);
    TimesAdd(Busy(now), |now| - Busy(now), c);
    TimesSign(|now| - Busy(now), c);
  }

  /** A caller in flight finishes, recording at most one call's worth. */
  lemma Leave(s: State, i: nat, rows: seq<UsageRow>, cap: real, c: real)
    requires i < |s.callers| && WithinBudget(s, cap, c, |s.callers|)
    requires !s.callers[i].Idle? && Spend(rows) <= Spend(s.rows) + c && c >= 0.0
    ensures WithinBudget(State(rows, s.callers[i := Idle]), cap, c, |s.callers|)
  {
    hide Times, Spend;
    BusyUpdate(s.callers, i, Idle);
    TimesAdd(Busy(s.callers[i := Idle]), 1, c);
    TimesOne(c);
  }

  lemma NextWithinBudget(s: State, a: Action, cap: real, c: real, callers: nat)
    requires c >= 0.0 && Cheap(a, c) && WithinBudget(s, cap, c, callers)
    ensures WithinBudget(Next(s, a, cap), cap, c, callers)
  {
    hide Times, Spend, Busy;
    if a.caller < callers {
      var i := a.caller;
      match (a, s.callers[i])
      case (Read(_), Idle) =>
        if !BudgetExceeded(Spend(s.rows), cap) { Enter(s, i, cap, c); }
      case (Answer(_, row), Approved) => Stay(s, i, Answered(row), cap, c);
      case (GiveUp(_), Approved) => Leave(s, i, s.rows, cap, c);
      case (Record(_), Answered(row)) =>
        SpendSnoc(s.rows, row);
        Leave(s, i, s.rows + [row], cap, c);
      case _ =>
    }
  }

  /** Every reachable state: from below the cap, with K callers interleaved in any order and no call dearer than c,
      the recorded spend stays strictly below cap + K * c. */
  lemma {:induction false} SpendBounded(s: State, actions: seq<Action>, cap: real, c: real)
    requires c >= 0.0 && Spend(s.rows) < cap
    requires forall i :: 0 <= i < |s.callers| ==> s.callers[i].Idle?
    requires forall a :: a in actions ==> Cheap(a, c)
    ensures WithinBudget(Run(s, actions, cap), cap, c, |s.callers|)
    ensures Spend(Run(s, actions, cap).rows) < cap + Times(|s.callers|, c)
  {
    hide Times, Next, Cheap;
    if actions == [] {
      BusyBound(s.callers);
      TimesSign(|s.callers|, c);
      TimesSign(0, c);
    } else {
      SpendBounded(s, actions[..|actions| - 1], cap, c);
      assert actions[|actions| - 1] in actions;
      NextWithinBudget(Run(s, actions[..|actions| - 1], cap), actions[|actions| - 1], cap, c, |s.callers|);
    }
    TimesSign(Busy(Run(s, actions, cap).callers), c);
  }

  // ---- what one call can cost ----

  /** The price list: dollars for a million prompt and for a million completion tokens. An unlisted model is free. */
  lemma PriceList(model: string, n: nat)
    ensures EstimateCost("gpt-4o-mini", 1000000, 0) == 0.15 && EstimateCost("gpt-4o-mini", 0, 1000000) == 0.60
    ensures EstimateCost("claude-3-5-haiku-latest", 1000000, 0) == 0.80
    ensures EstimateCost("claude-3-5-haiku-latest", 0, 1000000) == 4.00
    ensures EstimateCost("stub-chat", n, n) == 0.0
    ensures model !in {"gpt-4o-mini", "claude-3-5-haiku-latest"} ==> EstimateCost(model, n, n) == 0.0
  {
    assert Quantize(0.15) == 0.15 && Quantize(0.60) == 0.60 && Quantize(0.80) == 0.80 && Quantize(4.0) == 4.0;
    assert Quantize(0.0) == 0.0;
  }

  /** A call costs what its prompt and its completion tokens cost together, in hundredths of a millionth of a dollar,
      rounded once. */
  lemma CallCost(prompt: nat, completion: nat)
    ensures EstimateCost("gpt-4o-mini", prompt, completion)
         == Quantize((15 * prompt + 60 * completion) as real / 100000000.0)
    ensures EstimateCost("claude-3-5-haiku-latest", prompt, completion)
         == Quantize((80 * prompt + 400 * completion) as real / 100000000.0)
  {
    hide Quantize;
  }

  /** Costs are rounded to the millionth of a dollar, half a millionth up. */
  lemma CostsAreRounded(x: real)
    requires x >= 0.0
    ensures Quantize(x) - 0.0000005 <= x < Quantize(x) + 0.0000005
    ensures exists n: int :: IsMillionths(Quantize(x), n)
  {
    assert IsMillionths(Quantize(x), (x * 1000000.0 + 0.5).Floor);
  }

  predicate IsMillionths(x: real, n: int) { x * 1000000.0 == n as real }

  lemma MulBounds(a: real, b: real, x: real, y: real)
    requires 0.0 <= a <= b && 0.0 <= x <= y
    ensures 0.0 <= Mul(a, x) <= Mul(b, y)
  {
    hide Mul;
    MulSign(a, x);
    MulAdd(a, b - a, x);
    MulSign(b - a, x);
    MulAdd(x, y - x, b);
    MulSign(b, y - x);
  }

  lemma QuantizeMono(x: real, y: real)
    requires 0.0 <= x <= y
    ensures 0.0 <= Quantize(x) <= Quantize(y)
  {
    FloorMono(x * 1000000.0 + 0.5, y * 1000000.0 + 0.5);
  }

  lemma FloorMono(a: real, b: real)
    requires 0.0 <= a <= b
    ensures 0 <= a.Floor <= b.Floor
  {
  }

  /** A call within P prompt and Q completion tokens costs at most what the dearest model charges for P and Q,
      whatever model answers: a bound that SpendBounded can be used with. */
  lemma CallIsCheap(caller: nat, note: Option<nat>, purpose: string, r: ChatResult, prompt: nat, completion: nat)
    requires r.promptTokens <= prompt && r.completionTokens <= completion
    ensures Cheap(Answer(caller, RowOf(note, purpose, r)), EstimateCost("claude-3-5-haiku-latest", prompt, completion))
  {
    hide Mul;
    var million := 1000000.0;
    MulBounds(r.promptTokens as real / million, prompt as real / million, Rates(r.model).0, 0.80);
    MulBounds(r.completionTokens as real / million, completion as real / million, Rates(r.model).1, 4.00);
    hide Quantize;
    QuantizeMono(Mul(r.promptTokens as real / million, Rates(r.model).0)
        + Mul(r.completionTokens as real / million, Rates(r.model).1),
                 Mul(prompt as real / million, 0.80) + Mul(completion as real / million, 4.00));
  }

  // ---- the bound is exact: K callers can all read before any records ----

  function Reads(k: nat): seq<Action> { seq(k, (i: nat) => Read(i)) }

  function Answers(k: nat, row: UsageRow): seq<Action> { seq(k, (i: nat) => Answer(i, row)) }

  function Records(k: nat): seq<Action> { seq(k, (i: nat) => Record(i)) }

  function Callers(k: nat, done: nat, was: Phase, now: Phase): seq<Phase> {
    seq(k, i => if i < done then now else was)
  }

  lemma RunAppend(s: State, xs: seq<Action>, a: Action, cap: real)
    ensures Run(s, xs + [a], cap) == Next(Run(s, xs, cap), a, cap)
  {
    assert (xs + [a])[..|xs|] == xs;
  }

  lemma {:induction false} RunConcat(s: State, xs: seq<Action>, ys: seq<Action>, cap: real)
    ensures Run(s, xs + ys, cap) == Run(Run(s, xs, cap), ys, cap)
  {
    hide Next;
    if ys == [] {
      assert xs + ys == xs;
    } else {
      var n := |ys| - 1;
      RunConcat(s, xs, ys[..n], cap);
      assert xs + ys == (xs + ys[..n]) + [ys[n]];
      RunAppend(s, xs + ys[..n], ys[n], cap);
    }
  }

  lemma {:induction false} AllRead(rows: seq<UsageRow>, k: nat, n: nat, cap: real)
    requires n <= k && Spend(rows) < cap
    ensures Run(State(rows, Callers(k, 0, Idle, Approved)), Reads(n), cap) == State(rows, Callers(k, n, Idle, Approved))
  {
    if n > 0 {
      AllRead(rows, k, n - 1, cap);
      assert Reads(n) == Reads(n - 1) + [Read(n - 1)];
      RunAppend(State(rows, Callers(k, 0, Idle, Approved)), Reads(n - 1), Read(n - 1), cap);
      assert Callers(k, n - 1, Idle, Approved)[n - 1 := Approved] == Callers(k, n, Idle, Approved);
    }
  }

  lemma {:induction false} AllAnswer(rows: seq<UsageRow>, k: nat, n: nat, row: UsageRow, cap: real)
    requires n <= k
    ensures Run(State(rows, Callers(k, 0, Approved, Answered(row))), Answers(n, row), cap)
         == State(rows, Callers(k, n, Approved, Answered(row)))
  {
    hide Spend;
    if n > 0 {
      AllAnswer(rows, k, n - 1, row, cap);
      assert Answers(n, row) == Answers(n - 1, row) + [Answer(n - 1, row)];
      RunAppend(State(rows, Callers(k, 0, Approved, Answered(row))), Answers(n - 1, row), Answer(n - 1, row), cap);
      assert Callers(k, n - 1, Approved, Answered(row))[n - 1 := Answered(row)]
        == Callers(k, n, Approved, Answered(row));
    }
  }

  lemma {:induction false} AllRecord(rows: seq<UsageRow>, k: nat, n: nat, row: UsageRow, cap: real)
    requires n <= k
    ensures var s := Run(State(rows, Callers(k, 0, Answered(row), Idle)), Records(n), cap);
      s.callers == Callers(k, n, Answered(row), Idle) && Spend(s.rows) == Spend(rows) + Times(n, row.cost)
  {
    hide Times, Spend;
    if n == 0 {
      TimesAdd(0, 0, row.cost);
    } else {
      AllRecord(rows, k, n - 1, row, cap);
      var was := Run(State(rows, Callers(k, 0, Answered(row), Idle)), Records(n - 1), cap);
      RecordOne(was, k, n, row, cap);
      assert Records(n) == Records(n - 1) + [Record(n - 1)];
      RunAppend(State(rows, Callers(k, 0, Answered(row), Idle)), Records(n - 1), Record(n - 1), cap);
      TimesAdd(n - 1, 1, row.cost);
    }
  }

  lemma RecordOne(s: State, k: nat, n: nat, row: UsageRow, cap: real)
    requires 0 < n <= k && s.callers == Callers(k, n - 1, Answered(row), Idle)
    ensures var now := Next(s, Record(n - 1), cap);
      now.callers == Callers(k, n, Answered(row), Idle) && Spend(now.rows) == Spend(s.rows) + Times(1, row.cost)
  {
    hide Times, Spend;
    SpendSnoc(s.rows, row);
    TimesOne(row.cost);
    assert s.callers[n - 1 := Idle] == Callers(k, n, Answered(row), Idle);
  }

  /** No smaller bound holds: when K callers all read before any records, the spend ends at its starting value,
      which may be as near the cap as one likes, plus K full calls. */
  lemma BoundIsReached(rows: seq<UsageRow>, k: nat, row: UsageRow, cap: real)
    requires Spend(rows) < cap && row.cost >= 0.0
    ensures var actions := Reads(k) + Answers(k, row) + Records(k);
      && (forall a :: a in actions ==> Cheap(a, row.cost))
      && Spend(Run(State(rows, Callers(k, 0, Idle, Approved)), actions, cap).rows) == Spend(rows) + Times(k, row.cost)
  {
    hide Times, Next;
    var s := State(rows, Callers(k, 0, Idle, Approved));
    RunConcat(s, Reads(k) + Answers(k, row), Records(k), cap);
    RunConcat(s, Reads(k), Answers(k, row), cap);
    AllRead(rows, k, k, cap);
    assert Callers(k, k, Idle, Approved) == Callers(k, 0, Approved, Answered(row));
    AllAnswer(rows, k, k, row, cap);
    assert Callers(k, k, Approved, Answered(row)) == Callers(k, 0, Answered(row), Idle);
    AllRecord(rows, k, k, row, cap);
  }

  // ---- one research note ----

  const ROLES := ["fundamentals", "sentiment", "technical", "risk", "trader", "pm"]

  datatype GraphError = OverBudget | ChatFailed

  datatype Totals = Totals(promptTokens: nat, completionTokens: nat, cost: real)

  function NoteTotals(rows: seq<UsageRow>, note: nat): Totals {
    if rows == [] then Totals(0, 0, 0.0)
    else
      var t, r := NoteTotals(rows[..|rows| - 1], note), rows[|rows| - 1];
      if r.note == Some(note)
        then Totals(t.promptTokens + r.promptTokens, t.completionTokens + r.completionTokens, t.cost + r.cost)
      else t
  }

  /** Rows of other notes, as other callers record them meanwhile. */
  predicate Foreign(rows: seq<UsageRow>, note: nat) { forall r :: r in rows ==> r.note != Some(note) }

  lemma {:induction false} ForeignRows(rows: seq<UsageRow>, more: seq<UsageRow>, note: nat)
    requires Foreign(more, note)
    ensures NoteTotals(rows + more, note) == NoteTotals(rows, note)
  {
    if more == [] {
      assert rows + more == rows;
    } else {
      var n := |more| - 1;
      assert (rows + more)[..|rows| + n] == rows + more[..n];
      ForeignRows(rows, more[..n], note);
    }
  }

  class UsageLedger {
    var rows: seq<UsageRow>

    /** metered_complete. Other callers may record rows before its read and again during its call. */
    method MeteredComplete(cap: real, purpose: string, note: nat, answer: Option<ChatResult>,
                           beforeRead: seq<UsageRow>, duringCall: seq<UsageRow>)
        returns (r: Result<UsageRow, GraphError>)
      modifies this
      ensures var seen := old(rows) + beforeRead;
        if BudgetExceeded(Spend(seen), cap) then r == Err(OverBudget) && rows == seen
        else if answer.None? then r == Err(ChatFailed) && rows == seen + duringCall
        else r == Ok(RowOf(Some(note), purpose, answer.value)) && rows == seen + duringCall + [r.value]
      ensures r.Ok? ==>
        && r.value.note == Some(note) && r.value.purpose == purpose && r.value.model == answer.value.model
        && r.value.promptTokens == answer.value.promptTokens
           && r.value.completionTokens == answer.value.completionTokens
    {
      rows := rows + beforeRead;
      if BudgetExceeded(Spend(rows), cap) { return Err(OverBudget); }
      rows := rows + duringCall;
      if answer.None? { return Err(ChatFailed); }
      var row := RowOf(Some(note), purpose, answer.value);
      rows := rows + [row];
      r := Ok(row);
    }

    /** run_agent_graph: four analysts, the trader, the portfolio manager. The totals it reports are exactly those of
        the rows this attempt added for the note; an attempt that stops early keeps the rows it recorded. */
    method RunAgentGraph(cap: real, note: nat, answers: nat -> Option<ChatResult>,
                         before: nat -> seq<UsageRow>, during: nat -> seq<UsageRow>)
        returns (r: Result<Totals, GraphError>, ghost calls: nat)
      requires forall i :: Foreign(before(i), note) && Foreign(during(i), note)
      modifies this
      ensures old(rows) <= rows && calls <= |ROLES|
      ensures r.Ok? ==> r.value == NoteTotals(rows[|old(rows)|..], note) && calls == |ROLES|
      ensures r.Err? ==> calls < |ROLES|
      ensures NoteRows(rows[|old(rows)|..], note) == RowsOfCalls(note, answers, calls)
      ensures |NoteRows(rows[|old(rows)|..], note)| == calls
    {
      hide NoteTotals, NoteRows, RowOf, Spend, BudgetExceeded;
      NothingYet(note);
      var totals := Totals(0, 0, 0.0);
      calls := 0;
      ghost var start := |rows|;
      assert rows[start..] == [];
      for i := 0 to |ROLES|
        invariant old(rows) <= rows && start == |old(rows)| && calls == i
        invariant totals == NoteTotals(rows[start..], note)
        invariant NoteRows(rows[start..], note) == RowsOfCalls(note, answers, calls)
        invariant |NoteRows(rows[start..], note)| == calls
      {
        ghost var was := rows[start..];
        var reply := MeteredComplete(cap, "research_agent:" + ROLES[i], note, answers(i), before(i), during(i));
        OthersAdd(was, before(i), during(i), note);
        if reply.Err? {
          assert rows[start..] == was + before(i) || rows[start..] == was + before(i) + during(i);
          return Err(reply.error), calls;
        }
        assert rows[start..] == (was + before(i) + during(i)) + [reply.value];
        OwnRow(was + before(i) + during(i), reply.value, note, "research_agent:" + ROLES[i], answers(i).value);
        CallRow(note, answers, i);
        totals := Totals(totals.promptTokens + reply.value.promptTokens,
                         totals.completionTokens + reply.value.completionTokens, totals.cost + reply.value.cost);
        calls := calls + 1;
      }
      r := Ok(totals);
    }
  }

  /** The note's own rows, in order. */
  function NoteRows(rows: seq<UsageRow>, note: nat): seq<UsageRow> {
    if rows == [] then []
    else
      NoteRows(rows[..|rows| - 1], note) + (if rows[|rows| - 1].note == Some(note) then [rows[|rows| - 1]] else [])
  }

  /** The rows the first n calls leave: one each, with the role's purpose and the answer's model, tokens and cost. */
  function RowsOfCalls(note: nat, answers: nat -> Option<ChatResult>, n: nat): seq<UsageRow>
    requires n <= |ROLES|
  {
    if n == 0 then []
    else
      RowsOfCalls(note, answers, n - 1)
      + (match answers(n - 1)
         case Some(a) =>
           [UsageRow(Some(note), "research_agent:" + ROLES[n - 1], a.model, a.promptTokens, a.completionTokens,
                     EstimateCost(a.model, a.promptTokens, a.completionTokens))]
         case None => [])
  }

  lemma CallRow(note: nat, answers: nat -> Option<ChatResult>, i: nat)
    requires i < |ROLES| && answers(i).Some?
    ensures RowsOfCalls(note, answers, i + 1)
         == RowsOfCalls(note, answers, i) + [RowOf(Some(note), "research_agent:" + ROLES[i], answers(i).value)]
  {
    hide EstimateCost;
  }

  lemma {:induction false} ForeignNoteRows(rows: seq<UsageRow>, more: seq<UsageRow>, note: nat)
    requires Foreign(more, note)
    ensures NoteRows(rows + more, note) == NoteRows(rows, note)
  {
    if more == [] {
      assert rows + more == rows;
    } else {
      var n := |more| - 1;
      assert (rows + more)[..|rows| + n] == rows + more[..n];
      ForeignNoteRows(rows, more[..n], note);
    }
  }

  lemma NothingYet(note: nat)
    ensures NoteTotals([], note) == Totals(0, 0, 0.0) && NoteRows([], note) == []
  {
  }

  lemma OwnRow(rows: seq<UsageRow>, row: UsageRow, note: nat, purpose: string, answer: ChatResult)
    requires row == RowOf(Some(note), purpose, answer)
    ensures var t := NoteTotals(rows, note);
      NoteTotals(rows + [row], note)
          == Totals(t.promptTokens + row.promptTokens, t.completionTokens + row.completionTokens, t.cost + row.cost)
    ensures NoteRows(rows + [row], note) == NoteRows(rows, note) + [row]
  {
    hide EstimateCost;
    assert (rows + [row])[..|rows|] == rows;
  }

  lemma OthersAdd(rows: seq<UsageRow>, before: seq<UsageRow>, during: seq<UsageRow>, note: nat)
    requires Foreign(before, note) && Foreign(during, note)
    ensures NoteTotals(rows + before, note) == NoteTotals(rows + before + during, note) == NoteTotals(rows, note)
    ensures NoteRows(rows + before, note) == NoteRows(rows + before + during, note) == NoteRows(rows, note)
  {
    ForeignRows(rows, before, note);
    ForeignRows(rows + before, during, note);
    ForeignNoteRows(rows, before, note);
    ForeignNoteRows(rows + before, during, note);
  }
}
