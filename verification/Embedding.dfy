/** Calls that run one at a time are an interleaving: the concurrent model contains every sequential
    run, and more, since there a finished record can fall back to RETRYING. */
module Embedding {
  import opened Domain
  import opened Health
  import opened Ledger
  import opened Adaptive
  import Selection
  import opened World
  import opened RetryEngine
  import opened Invariant
  import opened Interleaving

  function Of(e: Engine, threads: map<nat, Thread>): Sys {
    Sys(e.store, e.windows, e.weights, threads)
  }

  function At(now: int): Choice {
    Choice(now, now, false, Healthy, p => Selection.Reading(p, Healthy, 0.0, 0.5))
  }

  /** The reading taken of a processor. */
  function Find(readings: seq<Selection.Reading>, p: Processor): Selection.Reading {
    if readings == [] then Selection.Reading(p, Healthy, 0.0, 0.5)
    else
      var last := readings[|readings| - 1];
      if last.name == p then last else Find(readings[..|readings| - 1], p)
  }

  lemma {:induction false} FindFinds(readings: seq<Selection.Reading>, k: nat)
    requires k < |readings|
    requires forall i, j :: 0 <= i < j < |readings| ==> readings[i].name != readings[j].name
    ensures Find(readings, readings[k].name) == readings[k]
  {
    if k < |readings| - 1 {
      FindFinds(readings[..|readings| - 1], k);
    }
  }

  /** What planning chooses when nothing else happens in between. */
  function Planning(cat: Catalog, o: Oracle, e: Engine, tx: Tx): Choice {
    var readings := Alternatives(cat, o, e, tx.event);
    var plan := PlanRetry(cat, o, e, tx.event, tx.classification.strategy);
    Choice(o.clock(plan.tick + 1), o.clock(e.tick), o.coin(e.flip), OriginState(o, e, tx.event), p => Find(readings, p))
  }

  lemma RoutesAlike(cat: Catalog, o: Oracle, e: Engine, tx: Tx)
    requires Usable(cat)
    ensures RouteTo(cat, tx, Planning(cat, o, e, tx)) ==
        PlanRetry(cat, o, e, tx.event, tx.classification.strategy).target
  {
    var readings, c := Alternatives(cat, o, e, tx.event), Planning(cat, o, e, tx);
    AlternativesOk(cat, o, e, tx.event);
    forall k | 0 <= k < |readings| ensures Viewed(cat, tx.event.processor, c.view)[k] == readings[k] {
      FindFinds(readings, k);
    }
    assert Viewed(cat, tx.event.processor, c.view) == readings;
  }

  lemma TryAlone(cat: Catalog, o: Oracle, e: Engine, tx: Tx, threads: map<nat, Thread>, t: nat)
    requires Usable(cat) && tx.classification.strategy != DoNotRetry && tx.retryCount < MAX_RETRIES
    requires t in threads && threads[t] == Looping(tx)
    ensures var plan := PlanRetry(cat, o, e, tx.event, tx.classification.strategy);
            && plan.target.Some?
            && var tx1 := TryOnce(cat, o, e, tx, plan).1;
               Next(cat, Of(e, threads), Act(t, Planning(cat, o, e, tx))) == Of(e, threads[t := Attempted(tx1)])
  {
    PlanAlwaysRoutes(cat, o, e, tx.event, tx.classification.strategy);
    RoutesAlike(cat, o, e, tx);
  }

  /** What is left of a turn once the attempt is in the private record. */
  lemma RestOfTurn(cat: Catalog, e: Engine, tx: Tx, threads: map<nat, Thread>, t: nat, noted: int, closed: int)
    requires tx.attempts != [] && t in threads && threads[t] == Attempted(tx)
    ensures var a := Last(tx);
            var e1 := e.(windows := Record(e.windows, a.processor, a.success, a.timestamp, noted),
                         weights := Learn(e.weights, tx.event.code, a.processor, a.success),
                         store := Log(e.store, DecisionOf(tx, a)));
            Next(cat, Next(cat, Next(cat, Of(e, threads), Act(t, At(noted))), Act(t, At(0))), Act(t, At(closed))) ==
            Of(e1, threads[t := if a.success then Closing(Close(tx, true, closed)) else Looping(tx)])
  {
    hide Record, Learn, Log, Close;
    var a, s := Last(tx), Of(e, threads);
    var s1 := Put(s.(windows := Record(s.windows, a.processor, a.success, a.timestamp, noted)), t, HealthNoted(tx));
    assert Next(cat, s, Act(t, At(noted))) == s1;
    var s2 := Put(s1.(weights := Learn(s.weights, tx.event.code, a.processor, a.success)), t, Learned(tx));
    assert Next(cat, s1, Act(t, At(0))) == s2;
  }

  lemma TwoActions(cat: Catalog, s: Sys, a: Action, b: Action)
    ensures After(cat, s, [a, b]) == Next(cat, Next(cat, s, a), b)
  {
    hide Next;
    AfterOneMore(cat, s, [], a);
    AfterOneMore(cat, s, [a], b);
    assert [] + [a] == [a] && [a] + [b] == [a, b];
  }

  lemma FourActions(cat: Catalog, s: Sys, a: Action, b: Action, c: Action, d: Action)
    ensures After(cat, s, [a, b, c, d]) == Next(cat, Next(cat, Next(cat, Next(cat, s, a), b), c), d)
  {
    hide Next;
    TwoActions(cat, s, a, b);
    TwoActions(cat, Next(cat, Next(cat, s, a), b), c, d);
    AfterBoth(cat, s, [a, b], [c, d]);
    assert [a, b] + [c, d] == [a, b, c, d];
  }

  /** One turn of the loop is four steps. */
  lemma TurnAlone(cat: Catalog, o: Oracle, e: Engine, tx: Tx, threads: map<nat, Thread>, t: nat)
      returns (schedule: seq<Action>)
    requires Usable(cat) && tx.classification.strategy != DoNotRetry && tx.retryCount < MAX_RETRIES
    requires t in threads && threads[t] == Looping(tx)
    ensures var plan := PlanRetry(cat, o, e, tx.event, tx.classification.strategy);
            && plan.target.Some?
            && var (e1, tx1) := TryOnce(cat, o, e, tx, plan);
               After(cat, Of(e, threads), schedule) ==
               Of(e1, threads[t := if o.coin(e.flip) then Closing(Close(tx1, true, o.clock(e1.tick)))
                              else Looping(tx1)])
  {
    hide Next, After, Close, Planning, TryOnce, PlanRetry, Record, Learn, Log;
    TryAlone(cat, o, e, tx, threads, t);
    var s, plan := Of(e, threads), PlanRetry(cat, o, e, tx.event, tx.classification.strategy);
    var (e1, tx1) := TryOnce(cat, o, e, tx, plan);
    var threads1, noted, closed := threads[t := Attempted(tx1)], o.clock(plan.tick + 2), o.clock(e1.tick);
    var first, second, third, fourth := Act(t, Planning(cat, o, e, tx)), Act(t, At(noted)), Act(t, At(0)),
        Act(t, At(closed));
    schedule := [first, second, third, fourth];
    FourActions(cat, s, first, second, third, fourth);
    TryIsLast(cat, o, e, tx, plan, noted);
    RestOfTurn(cat, e, tx1, threads1, t, noted, closed);
    var th := if o.coin(e.flip) then Closing(Close(tx1, true, closed)) else Looping(tx1);
    assert threads1[t := th] == threads[t := th];
  }

  lemma TryIsLast(cat: Catalog, o: Oracle, e: Engine, tx: Tx, plan: Plan, noted: int)
    requires plan.target.Some? && noted == o.clock(plan.tick + 2)
    ensures var (e1, tx1) := TryOnce(cat, o, e, tx, plan);
            && tx1.attempts != []
            && var a := Last(tx1);
               && a.success == o.coin(e.flip)
               && e1.windows == Record(e.windows, a.processor, a.success, a.timestamp, noted)
               && e1.weights == Learn(e.weights, tx1.event.code, a.processor, a.success)
               && e1.store == Log(e.store, DecisionOf(tx1, a))
  {
    hide Record, Learn, Log;
  }

  /** The final update is one more step. */
  lemma CloseAlone(cat: Catalog, s: Sys, schedule: seq<Action>, e: Engine, tx: Tx, threads: map<nat, Thread>, t: nat)
    requires After(cat, s, schedule) == Of(e, threads) && t in threads && threads[t] == Closing(tx)
    ensures After(cat, s, schedule + [Act(t, At(0))]) == Of(e.(store := Update(e.store, tx)), threads[t := Done])
  {
    AfterOneMore(cat, s, schedule, Act(t, At(0)));
  }

  lemma {:induction false} ChainAlone(cat: Catalog, o: Oracle, e: Engine, tx: Tx, threads: map<nat, Thread>, t: nat)
      returns (schedule: seq<Action>)
    requires Usable(cat) && tx.classification.strategy != DoNotRetry && t in threads && threads[t] == Looping(tx)
    ensures After(cat, Of(e, threads), schedule) == Of(Chain(cat, o, e, tx).0, threads[t := Done])
    decreases MAX_RETRIES - tx.retryCount
  {
    hide PlanRetry, TryOnce, Update;
    var s := Of(e, threads);
    if tx.retryCount >= MAX_RETRIES {
      var closed := Close(tx, false, o.clock(e.tick));
      schedule := [Act(t, At(o.clock(e.tick)))];
      AfterOneMore(cat, s, [], schedule[0]);
      CloseAlone(cat, s, schedule, e, closed, threads[t := Closing(closed)], t);
      schedule := schedule + [Act(t, At(0))];
      assert threads[t := Closing(closed)][t := Done] == threads[t := Done];
    } else {
      schedule := TurnAlone(cat, o, e, tx, threads, t);
      var (e1, tx1) := TryOnce(cat, o, e, tx, PlanRetry(cat, o, e, tx.event, tx.classification.strategy));
      FailedTryCounts(cat, o, e, tx);
      if o.coin(e.flip) {
        var closed := Close(tx1, true, o.clock(e1.tick));
        CloseAlone(cat, s, schedule, e1, closed, threads[t := Closing(closed)], t);
        schedule := schedule + [Act(t, At(0))];
        assert threads[t := Closing(closed)][t := Done] == threads[t := Done];
      } else {
        var threads1 := threads[t := Looping(tx1)];
        var rest := ChainAlone(cat, o, e1, tx1, threads1, t);
        AfterBoth(cat, s, schedule, rest);
        schedule := schedule + rest;
        assert threads1[t := Done] == threads[t := Done];
      }
    }
  }

  lemma FailedTryCounts(cat: Catalog, o: Oracle, e: Engine, tx: Tx)
    requires PlanRetry(cat, o, e, tx.event, tx.classification.strategy).target.Some?
    ensures var tx1 := TryOnce(cat, o, e, tx, PlanRetry(cat, o, e, tx.event, tx.classification.strategy)).1;
            tx1.retryCount == tx.retryCount + 1 && tx1.classification == tx.classification
  {
  }

  /** The first three steps of a submission: arrive, note the failure, save. */
  lemma ArriveAlone(cat: Catalog, o: Oracle, e: Engine, event: FailureEvent, threads: map<nat, Thread>, t: nat)
      returns (schedule: seq<Action>)
    requires t !in threads
    ensures var tx, e1 := NewTx(event), NoteFailure(o, e, event);
            var th := if event.id in e.store.txs || tx.classification.decline == HardDecline then Done else Looping(tx);
            After(cat, Of(e, threads), schedule) == Of(e1.(store := Save(e1.store, tx)), threads[t := th])
  {
    hide Record, NewTx, Save;
    var s, tx, now := Of(e, threads), NewTx(event), o.clock(e.tick);
    var e1 := NoteFailure(o, e, event);
    var th := if event.id in e.store.txs || tx.classification.decline == HardDecline then Done else Looping(tx);
    var arriving, noted := threads[t := Arriving(event)], threads[t := Noted(event)];
    assert arriving[t := Noted(event)] == noted && noted[t := th] == threads[t := th];
    var first, second, third := Submitting(t, event), Act(t, At(now)), Act(t, At(0));
    assert Next(cat, s, first) == Of(e, arriving);
    assert Next(cat, Of(e, arriving), second) == Of(e1, noted);
    assert Next(cat, Of(e1, noted), third) == Of(e1.(store := Save(e1.store, tx)), threads[t := th]);
    hide Next, NoteFailure, After;
    TwoActions(cat, s, first, second);
    AfterOneMore(cat, s, [first, second], third);
    schedule := [first, second] + [third];
  }

  lemma ProcessAlone(cat: Catalog, o: Oracle, e: Engine, event: FailureEvent, threads: map<nat, Thread>, t: nat)
      returns (schedule: seq<Action>)
    requires Usable(cat) && t !in threads
    ensures After(cat, Of(e, threads), schedule) == Of(Process(cat, o, e, event).0, threads[t := Done])
  {
    hide Chain, Record, After;
    schedule := ArriveAlone(cat, o, e, event, threads, t);
    var tx, e1 := NewTx(event), NoteFailure(o, e, event);
    if event.id !in e.store.txs && tx.classification.decline == SoftDecline {
      var looping := threads[t := Looping(tx)];
      var rest := ChainAlone(cat, o, e1.(store := Save(e1.store, tx)), tx, looping, t);
      AfterBoth(cat, Of(e, threads), schedule, rest);
      schedule := schedule + rest;
      assert looping[t := Done] == threads[t := Done];
    }
  }

  /** A report that has fetched its copy. */
  lemma ReportOnAlone(cat: Catalog, o: Oracle, e: Engine, tx: Tx, p: Processor, success: bool,
                      threads: map<nat, Thread>, t: nat)
      returns (schedule: seq<Action>)
    requires t in threads && threads[t] == Fetched(tx, p, success)
    ensures After(cat, Of(e, threads), schedule) == Of(ReportOn(o, e, tx, p, success).0, threads[t := Done])
  {
    hide Record, Learn, Reported, Update;
    var s, now, noted := Of(e, threads), o.clock(e.tick), o.clock(e.tick + 1);
    var e1 := e.(windows := Record(e.windows, p, success, now, noted));
    var e2 := e1.(weights := Learn(e.weights, tx.event.code, p, success));
    var copy := Reported(tx, success, now);
    var reporting, writing := threads[t := Reporting(tx, p, success)], threads[t := Writing(copy)];
    assert reporting[t := Writing(copy)] == writing && writing[t := Done] == threads[t := Done];
    var first, second, third := Act(t, At(noted).(stamp := now)), Act(t, At(now)), Act(t, At(0));
    assert Next(cat, s, first) == Of(e1, reporting);
    assert Next(cat, Of(e1, reporting), second) == Of(e2, writing);
    assert Next(cat, Of(e2, writing), third) == Of(e2.(store := Update(e.store, copy)), threads[t := Done]);
    hide Next, After;
    TwoActions(cat, s, first, second);
    AfterOneMore(cat, s, [first, second], third);
    schedule := [first, second] + [third];
  }

  lemma ReportAlone(cat: Catalog, o: Oracle, e: Engine, id: Id, p: Processor, success: bool,
                    threads: map<nat, Thread>, t: nat)
      returns (schedule: seq<Action>)
    requires t !in threads
    ensures After(cat, Of(e, threads), schedule) == Of(Report(o, e, id, p, success).0, threads[t := Done])
  {
    var s, ask := Of(e, threads), Confirming(t, id, p, success);
    TwoActions(cat, s, ask, Act(t, At(0)));
    hide Record, Learn, After, Reported;
    if id !in e.store.txs {
      schedule := [ask, Act(t, At(0))];
      assert threads[t := Asking(id, p, success)][t := Done] == threads[t := Done];
    } else {
      var tx, noted := e.store.txs[id], Act(t, At(o.clock(e.tick + 1)).(stamp := o.clock(e.tick)));
      var fetched := threads[t := Asking(id, p, success)][t := Fetched(tx, p, success)];
      assert After(cat, s, [ask, Act(t, At(0))]) == Of(e, fetched);
      var rest := ReportOnAlone(cat, o, e, tx, p, success, fetched, t);
      AfterBoth(cat, s, [ask, Act(t, At(0))], rest);
      schedule := [ask, Act(t, At(0))] + rest;
      assert fetched[t := Done] == threads[t := Done];
    }
  }

  lemma StepAlone(cat: Catalog, o: Oracle, e: Engine, op: Op, threads: map<nat, Thread>, t: nat)
      returns (schedule: seq<Action>, after: map<nat, Thread>)
    requires Usable(cat) && t !in threads && forall u <- threads :: threads[u] == Done
    ensures After(cat, Of(e, threads), schedule) == Of(Step(cat, o, e, op), after)
    ensures after == threads || after == threads[t := Done]
  {
    hide Process, Report;
    match op
    case Submit(event) =>
      schedule := ProcessAlone(cat, o, e, event, threads, t);
      after := threads[t := Done];
    case ReportOutcome(id, p, success) =>
      schedule := ReportAlone(cat, o, e, id, p, success, threads, t);
      after := threads[t := Done];
    case Query(_) =>
      schedule, after := [], threads;
    case ResetAll =>
      schedule, after := [Clearing], threads;
      AfterOneMore(cat, Of(e, threads), [], Clearing);
      assert [] + [Clearing] == [Clearing];
  }

  /** Every sequence of completed calls, resets included, is one of the interleavings: the same store, the
      same windows and the same learned data. */
  lemma {:induction false} RunsAreInterleavings(cat: Catalog, o: Oracle, ops: seq<Op>)
      returns (schedule: seq<Action>, threads: map<nat, Thread>)
    requires Usable(cat)
    ensures After(cat, EMPTY_SYS, schedule) == Of(Run(cat, o, INITIAL, ops), threads)
    ensures forall t <- threads :: t < |ops| && threads[t] == Done
  {
    if ops == [] {
      schedule, threads := [], map[];
    } else {
      var before, others := RunsAreInterleavings(cat, o, ops[..|ops| - 1]);
      var call: seq<Action>;
      call, threads := StepAlone(cat, o, Run(cat, o, INITIAL, ops[..|ops| - 1]), ops[|ops| - 1], others, |ops| - 1);
      AfterBoth(cat, EMPTY_SYS, before, call);
      schedule := before + call;
    }
  }

  // ---------- and there is more ----------

  lemma FetchAlone(cat: Catalog, e: Engine, id: Id, p: Processor, success: bool, threads: map<nat, Thread>, t: nat)
      returns (schedule: seq<Action>)
    requires t !in threads && id in e.store.txs
    ensures After(cat, Of(e, threads), schedule) == Of(e, threads[t := Fetched(e.store.txs[id], p, success)])
  {
    var ask := Confirming(t, id, p, success);
    TwoActions(cat, Of(e, threads), ask, Act(t, At(0)));
    schedule := [ask, Act(t, At(0))];
    assert threads[t := Asking(id, p, success)][t := Fetched(e.store.txs[id], p, success)] ==
           threads[t := Fetched(e.store.txs[id], p, success)];
  }

  /** What no sequential run shows: whatever the chain of a soft decline does, a failure report that
      fetched its copy before the chain began can put the record back to RETRYING with no attempts
      after the chain has ended, with the chain's decisions logged and nothing left to run. */
  lemma StaleReportUndoesChain(cat: Catalog, o: Oracle, event: FailureEvent, p: Processor)
      returns (schedule: seq<Action>)
    requires Usable(cat) && Classify(event).decline == SoftDecline
    ensures var s := After(cat, EMPTY_SYS, schedule);
            && event.id in s.store.txs && s.store.txs[event.id] == NewTx(event)
            && s.store.txs[event.id].status == Retrying && LogOf(s.store, event.id) != []
            && forall t <- s.threads :: s.threads[t] == Done
  {
    hide After, Chain, Record, Learn;
    var tx, e1 := NewTx(event), NoteFailure(o, INITIAL, event);
    var arrive := ArriveAlone(cat, o, INITIAL, event, map[], 0);
    var e2 := e1.(store := Save(EMPTY, tx));
    assert LogOf(e2.store, tx.id) == [] == Audit(tx);
    var fetch := FetchAlone(cat, e2, event.id, p, false, map[0 := Looping(tx)], 1);
    var chain := ChainAlone(cat, o, e2, tx, map[0 := Looping(tx)][1 := Fetched(tx, p, false)], 0);
    ChainSettles(cat, o, e2, tx);
    var (e3, done) := Chain(cat, o, e2, tx);
    var threads := map[0 := Looping(tx)][1 := Fetched(tx, p, false)][0 := Done];
    var write := ReportOnAlone(cat, o, e3, tx, p, false, threads, 1);
    AfterBoth(cat, EMPTY_SYS, arrive, fetch);
    AfterBoth(cat, EMPTY_SYS, arrive + fetch, chain);
    AfterBoth(cat, EMPTY_SYS, arrive + fetch + chain, write);
    schedule := arrive + fetch + chain + write;
  }
}
