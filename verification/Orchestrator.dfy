/** The orchestrator: the methods that drive tracker, store and learning, each proved to take the
    step of the engine that it stands for. */
module Orchestration {
  import opened Domain
  import opened Health
  import HealthTracking
  import opened Ledger
  import opened Storage
  import opened Adaptive
  import opened Selection
  import World
  import opened RetryEngine
  import opened Invariant

  // ---------- readings one by one ----------

  lemma ReadAllAppend(o: World.Oracle, e: Engine, code: Code, others: seq<Processor>, p: Processor, tick: nat)
    ensures ReadAll(o, e, code, others + [p], tick) ==
            ReadAll(o, e, code, others, tick) + [ReadOne(o, e, code, p, tick + |others|)]
  {
  }

  lemma NothingCollected(cat: Catalog, o: World.Oracle, e: Engine, exclude: Processor, code: Code, tick: nat)
    ensures Others(cat.names[..0], exclude) == [] && ReadAll(o, e, code, [], tick) == [] && Eligible(cat, []) == []
  {
  }

  /** Reading one more processor, unless it is the excluded one. */
  lemma CollectOne(cat: Catalog, o: World.Oracle, e: Engine, exclude: Processor, code: Code, tick: nat, i: nat,
                   others: seq<Processor>, readings: seq<Reading>)
    requires i < |cat.names| && others == Others(cat.names[..i], exclude)
    requires readings == ReadAll(o, e, code, others, tick)
    ensures var p := cat.names[i];
            if p == exclude then Others(cat.names[..i + 1], exclude) == others
            else
              var h := SnapshotOf(e.windows, p, o.clock(tick + |others|));
              var r := Reading(p, h.state, h.failureRate, Rate(e.weights, code, p));
              && Others(cat.names[..i + 1], exclude) == others + [p]
              && ReadAll(o, e, code, others + [p], tick) == readings + [r]
              && Eligible(cat, readings + [r]) ==
                 Eligible(cat, readings) + if r.state == Down then [] else [CandidateOf(cat, r)]
  {
    hide SnapshotOf, Rate;
    var p := cat.names[i];
    OthersAppend(cat.names, i, exclude);
    if p != exclude {
      ReadAllAppend(o, e, code, others, p, tick);
      EligibleAppend(cat, readings, ReadOne(o, e, code, p, tick + |others|));
    }
  }

  lemma EligibleAppend(cat: Catalog, readings: seq<Reading>, r: Reading)
    ensures Eligible(cat, readings + [r]) ==
            Eligible(cat, readings) + if r.state == Down then [] else [CandidateOf(cat, r)]
    ensures Cheapest(cat, readings + [r]) ==
            var best := Cheapest(cat, readings);
            if cat.Cost(r.name) < (if best.None? then COST_SENTINEL else cat.Cost(best.value))
            then Some(r.name) else best
  {
    assert (readings + [r])[..|readings|] == readings;
  }

  lemma OthersAppend(names: seq<Processor>, i: nat, exclude: Processor)
    requires i < |names|
    ensures Others(names[..i + 1], exclude) ==
            if names[i] == exclude then Others(names[..i], exclude) else Others(names[..i], exclude) + [names[i]]
  {
    assert names[..i + 1][..i] == names[..i];
  }

  lemma {:induction false} OthersPrefix(names: seq<Processor>, i: nat, exclude: Processor)
    requires i <= |names|
    ensures Others(names[..i], exclude) <= Others(names, exclude)
    decreases |names| - i
  {
    if i == |names| {
      assert names[..i] == names;
    } else {
      OthersPrefix(names, i + 1, exclude);
      OthersAppend(names, i, exclude);
    }
  }

  /** The i-th name, unless excluded, is the next one among the others. */
  lemma NextOther(names: seq<Processor>, i: nat, exclude: Processor)
    requires i < |names|
    ensures var n, others := |Others(names[..i], exclude)|, Others(names, exclude);
            && |Others(names[..i + 1], exclude)| == (if names[i] == exclude then n else n + 1) <= |others|
            && (names[i] != exclude ==> others[n] == names[i])
  {
    OthersAppend(names, i, exclude);
    OthersPrefix(names, i + 1, exclude);
  }

  class Orchestrator {
    const cat: Catalog
    const world: World.Environment
    const tracker: HealthTracking.HealthTracker
    const store: MemoryStore
    var weights: Weights

    ghost predicate Valid()
      reads store, store.records, store.arrays
    {
      && Usable(cat) && tracker.world == world
      && store.Valid() && store.Isolated()
    }

    ghost function State(): Engine
      reads this, world, tracker, store
    {
      Engine(tracker.windows, store.View(), weights, world.tick, world.flip)
    }

    constructor (cat: Catalog, tracker: HealthTracking.HealthTracker, store: MemoryStore)
      requires Usable(cat) && store.Valid() && store.Isolated()
      ensures Valid() && weights == map[]
      ensures this.cat == cat && this.tracker == tracker && this.store == store && world == tracker.world
    {
      this.cat, this.world, this.tracker, this.store := cat, tracker.world, tracker, store;
      weights := map[];
    }

    /** The best alternative that is not DOWN, or else the cheapest one. */
    method SelectBestAlternative(exclude: Processor, code: Code, ghost e: Engine) returns (best: Option<Processor>)
      requires cat.Ok() && tracker.world == world
      requires e.windows == tracker.windows && e.weights == weights
      modifies world`tick
      ensures var readings := ReadAll(world.oracle, e, code, Others(cat.names, exclude), old(world.tick));
              best == Choose(cat, readings) && world.tick == old(world.tick) + |readings|
    {
      ghost var o, t := world.oracle, world.tick;
      var candidates := CollectCandidates(exclude, code, e);
      ghost var readings := ReadAll(o, e, code, Others(cat.names, exclude), t);
      if candidates == [] {
        best := FindCheapest(exclude, readings);
      } else {
        var a := new Candidate[|candidates|](i requires 0 <= i < |candidates| => candidates[i]);
        assert a[..] == candidates;
        SortSlice(a);
        assert CostsDiffer(candidates) by {
          OthersReadOk(o, e, exclude, code, t);
          EligibleCostsDiffer(cat, readings);
        }
        AnySortPutsBestFirst(a[..], candidates);
        best := Some(a[0].name);
      }
    }

    lemma OthersReadOk(o: World.Oracle, e: Engine, exclude: Processor, code: Code, tick: nat)
      requires cat.Ok()
      ensures ReadingsOk(cat, ReadAll(o, e, code, Others(cat.names, exclude), tick))
    {
      OthersAre(cat.names, exclude);
    }

    method CollectCandidates(exclude: Processor, code: Code, ghost e: Engine) returns (candidates: seq<Candidate>)
      requires tracker.world == world
      requires e.windows == tracker.windows && e.weights == weights
      modifies world`tick
      ensures var readings := ReadAll(world.oracle, e, code, Others(cat.names, exclude), old(world.tick));
              candidates == Eligible(cat, readings) && world.tick == old(world.tick) + |readings|
    {
      hide SnapshotOf, Rate, Others, ReadAll, Eligible;
      ghost var o, t := world.oracle, world.tick;
      candidates := [];
      ghost var others, readings := [], [];
      NothingCollected(cat, o, e, exclude, code, t);
      for i := 0 to |cat.names|
        invariant others == Others(cat.names[..i], exclude) && readings == ReadAll(o, e, code, others, t)
        invariant candidates == Eligible(cat, readings) && world.tick == t + |others| && |readings| == |others|
      {
        var p := cat.names[i];
        CollectOne(cat, o, e, exclude, code, t, i, others, readings);
        if p == exclude {
          continue;
        }
        var h := tracker.GetHealth(p);
        others := others + [p];
        readings := readings + [Reading(p, h.state, h.failureRate, Rate(e.weights, code, p))];
        if h.state == Down {
          continue;
        }
        var rate := GetAdaptiveRate(code, p);
        candidates := candidates + [Candidate(p, cat.Cost(p), h.failureRate, rate)];
      }
      assert cat.names[..|cat.names|] == cat.names;
    }

    /** The fallback: the cheapest processor other than the excluded one, even if it is DOWN. */
    method FindCheapest(exclude: Processor, ghost readings: seq<Reading>) returns (best: Option<Processor>)
      requires |readings| == |Others(cat.names, exclude)|
      requires forall i :: 0 <= i < |readings| ==> readings[i].name == Others(cat.names, exclude)[i]
      ensures best == Cheapest(cat, readings)
    {
      best := None;
      var bestCost := COST_SENTINEL;
      ghost var n := 0;
      for i := 0 to |cat.names|
        invariant n == |Others(cat.names[..i], exclude)| <= |readings|
        invariant best == Cheapest(cat, readings[..n])
        invariant bestCost == if best.None? then COST_SENTINEL else cat.Cost(best.value)
      {
        var p := cat.names[i];
        NextOther(cat.names, i, exclude);
        if p == exclude {
          continue;
        }
        assert readings[..n + 1] == readings[..n] + [readings[n]];
        EligibleAppend(cat, readings[..n], readings[n]);
        n := n + 1;
        if cat.Cost(p) < bestCost {
          bestCost := cat.Cost(p);
          best := Some(p);
        }
      }
      assert cat.names[..|cat.names|] == cat.names;
      assert readings[..n] == readings;
    }

    method GetAdaptiveRate(code: Code, p: Processor) returns (rate: real)
      ensures rate == Rate(weights, code, p)
    {
      if code !in weights {
        return 0.5;
      }
      if p !in weights[code] || weights[code][p].total == 0 {
        return 0.5;
      }
      var rec := weights[code][p];
      rate := rec.successes as real / rec.total as real;
    }

    method RecordAdaptive(code: Code, p: Processor, success: bool)
      requires Valid()
      modifies `weights
      ensures Valid() && State() == old(State()).(weights := weights)
      ensures weights == Learn(old(weights), code, p, success)
    {
      ghost var row, before := if code in weights then weights[code] else map[], RecordOf(weights, code, p);
      if code !in weights {
        weights := weights[code := map[]];
      }
      if p !in weights[code] {
        weights := weights[code := weights[code][p := AdaptiveRecord(0, 0)]];
      }
      var rec := weights[code][p];
      assert rec == before;
      rec := rec.(total := rec.total + 1);
      if success {
        rec := rec.(successes := rec.successes + 1);
      }
      weights := weights[code := weights[code][p := rec]];
      assert weights[code] == row[p := rec];
      assert weights == old(weights)[code := row[p := rec]];
    }

    /** Selects an alternative and reads its health once more for the record. */
    method Reroute(event: FailureEvent, ghost e: Engine) returns (alt: Option<Processor>)
      requires cat.Ok() && tracker.world == world
      requires e.windows == tracker.windows && e.weights == weights && world.tick == e.tick + 2
      modifies world`tick
      ensures var readings := Alternatives(cat, world.oracle, e, event);
              && alt == Choose(cat, readings)
              && world.tick == e.tick + 2 + |readings| + if alt.Some? then 1 else 0
    {
      alt := SelectBestAlternative(event.processor, event.code, e);
      if alt.Some? {
        var altHealth := tracker.GetHealth(alt.value);
      }
    }

    /** Plans the next attempt, or none when there is no processor to send it to. */
    method PlanRetryAttempt(tx: Transaction, event: FailureEvent, classification: Classification)
      returns (attempt: Option<RetryAttempt>)
      requires Valid() && tx.event == event && tx.classification == classification
      modifies world`tick
      ensures var plan := PlanRetry(cat, world.oracle, old(State()), event, classification.strategy);
              && world.tick == plan.tick
              && attempt == (if plan.target.None? then None
                             else Some(AttemptOf(cat, tx.Value(), plan, plan.target.value, false)))
    {
      ghost var e := State();
      var strategy := classification.strategy;
      var now := world.Now();
      var originalHealth := tracker.GetHealth(event.processor);
      var target, delay := Some(OtherProcessor("")), 0;
      match strategy {
        case Immediate =>
          if originalHealth.state == Down {
            target := Reroute(event, e);
          } else {
            target := Some(event.processor);
          }
        case Delayed =>
          delay := DELAY_SECONDS;
          if originalHealth.state == Down {
            target := Reroute(event, e);
          } else {
            target := Some(event.processor);
          }
        case AlternativeProcessor =>
          target := Reroute(event, e);
        case DoNotRetry =>
      }
      if target == None {
        return None;
      }
      attempt := Some(RetryAttempt(tx.retryCount + 1, target.value, strategy, false, cat.Cost(target.value), delay,
                                   now));
    }

    /** The outcome is the environment's; health is only read. */
    method SimulateOutcome(p: Processor) returns (success: bool)
      requires Valid()
      modifies world
      ensures Valid() && success == world.oracle.coin(old(world.flip))
      ensures State() == old(State()).(flip := old(world.flip) + 1, tick := old(world.tick) + 1)
    {
      var h := tracker.GetHealth(p);
      success := world.Flip();
    }

    /** A record that is not reachable from the store. */
    ghost predicate Private(tx: Transaction)
      reads store, tx
    {
      tx !in store.records && tx.attempts !in store.arrays
    }

    // Single mutations, each with its effect on the engine state.

    method ReadClock() returns (now: int)
      requires Valid()
      modifies world`tick
      ensures Valid() && now == world.oracle.clock(old(world.tick))
      ensures State() == old(State()).(tick := old(world.tick) + 1)
    {
      now := world.Now();
    }

    method RecordHealth(p: Processor, success: bool, ts: int)
      requires Valid()
      modifies tracker, world`tick
      ensures Valid()
      ensures var e := old(State());
              State() == e.(windows := Record(e.windows, p, success, ts, world.oracle.clock(e.tick)),
                            tick := e.tick + 1)
    {
      hide Record, Enumerated;
      tracker.RecordOutcome(p, success, ts);
    }

    /** Records the outcome with the tracker and learns from it. */
    method Absorb(code: Code, p: Processor, success: bool, ts: int)
      requires Valid()
      modifies `weights, tracker, world`tick
      ensures Valid()
      ensures var e := old(State());
              State() == e.(windows := Record(e.windows, p, success, ts, world.oracle.clock(e.tick)),
                            weights := Learn(e.weights, code, p, success), tick := e.tick + 1)
    {
      RecordHealth(p, success, ts);
      RecordAdaptive(code, p, success);
    }

    method LogDecision(d: Decision)
      requires Valid()
      modifies store`decisions
      ensures Valid() && State() == old(State()).(store := Log(old(State()).store, d))
      ensures store.records == old(store.records) && store.arrays == old(store.arrays)
    {
      store.SaveDecisionLog(d);
    }

    method AppendAttempt(tx: Transaction, a: RetryAttempt, now: int)
      requires Valid() && Private(tx)
      modifies tx
      ensures Valid() && Private(tx) && State() == old(State())
      ensures tx.Value() == WithAttempt(old(tx.Value()), a, now)
    {
      tx.Append(a, now);
    }

    method MarkClosed(tx: Transaction, recovered: bool, now: int)
      requires Valid() && Private(tx)
      modifies tx
      ensures Valid() && Private(tx) && State() == old(State())
      ensures tx.Value() == Close(old(tx.Value()), recovered, now)
    {
      if recovered {
        tx.status, tx.recoveredAt := Recovered, Some(now);
      } else {
        tx.status := Exhausted;
      }
      tx.updatedAt := now;
    }

    method Commit(tx: Transaction) returns (ok: bool)
      requires Valid() && Private(tx)
      modifies store
      ensures Valid() && Private(tx)
      ensures ok <==> tx.id in old(State()).store.txs
      ensures State() == old(State()).(store := Update(old(State()).store, tx.Value()))
    {
      hide Enumerated;
      ok := store.UpdateTransaction(tx);
    }

    method Perform(p: Processor) returns (success: bool, now: int)
      requires Valid()
      modifies world
      ensures Valid() && success == world.oracle.coin(old(world.flip)) && now == world.oracle.clock(old(world.tick) + 1)
      ensures State() == old(State()).(flip := old(world.flip) + 1, tick := old(world.tick) + 2)
    {
      success := SimulateOutcome(p);
      now := ReadClock();
    }

    method LearnAndLog(tx: Transaction, event: FailureEvent, a: RetryAttempt)
      requires Valid() && Private(tx) && tx.event == event
      modifies `weights, tracker, world`tick, store`decisions
      ensures Valid() && Private(tx) && tx.Value() == old(tx.Value())
      ensures var e := old(State());
              State() == Engine(Record(e.windows, a.processor, a.success, a.timestamp, world.oracle.clock(e.tick)),
                                Log(e.store, DecisionOf(tx.Value(), a)),
                                Learn(e.weights, event.code, a.processor, a.success), e.tick + 1, e.flip)
    {
      ghost var value := tx.Value();
      Absorb(event.code, a.processor, a.success, a.timestamp);
      assert tx.Value() == value;
      LogDecision(Decision(tx.id, a.number, event.processor, a.processor, a.strategy, a.delay, a.timestamp));
    }

    method NoteAttempt(tx: Transaction, event: FailureEvent, a: RetryAttempt, now: int)
      requires Valid() && Private(tx) && tx.event == event
      modifies `weights, tracker, world`tick, store`decisions, tx
      ensures Valid() && Private(tx) && tx.Value() == WithAttempt(old(tx.Value()), a, now)
      ensures var e := old(State());
              State() == Engine(Record(e.windows, a.processor, a.success, a.timestamp, world.oracle.clock(e.tick)),
                                Log(e.store, DecisionOf(old(tx.Value()), a)),
                                Learn(e.weights, event.code, a.processor, a.success), e.tick + 1, e.flip)
    {
      AppendAttempt(tx, a, now);
      LearnAndLog(tx, event, a);
    }

    /** Simulates the planned attempt, adds it to the private record, records its outcome and logs it. */
    method RunAttempt(tx: Transaction, event: FailureEvent, planned: RetryAttempt, ghost plan: Plan)
        returns (success: bool)
      requires Valid() && Private(tx) && tx.event == event
      requires plan.target.Some? && world.tick == plan.tick
      requires planned == AttemptOf(cat, tx.Value(), plan, plan.target.value, false)
      modifies this, world, tracker, store`decisions, tx
      ensures Valid() && Private(tx)
      ensures success == world.oracle.coin(old(world.flip))
      ensures (State(), tx.Value()) == TryOnce(cat, world.oracle, old(State()), old(tx.Value()), plan)
    {
      hide PlanRetry, Record, Learn, Log;
      var now;
      success, now := Perform(planned.processor);
      var attempt := planned.(success := success);
      NoteAttempt(tx, event, attempt, now);
    }

    method Conclude(tx: Transaction, recovered: bool)
      requires Valid() && Private(tx)
      modifies world`tick, store, tx
      ensures Valid() && Private(tx)
      ensures (State(), tx.Value()) == Finish(world.oracle, old(State()), old(tx.Value()), recovered)
    {
      var now := ReadClock();
      MarkClosed(tx, recovered, now);
      var ok := Commit(tx);
    }

    method RecordRetryOutcome(id: Id, p: Processor, success: bool) returns (result: Result<()>)
      requires Valid()
      modifies this, world, tracker, store
      ensures Valid()
      ensures (State(), result) == Report(world.oracle, old(State()), id, p, success)
    {
      var tx := Fetch(id);
      if tx == null {
        return Err(NotFound);
      }
      result := ReportOnCopy(tx, p, success);
    }

    method ReportOnCopy(tx: Transaction, p: Processor, success: bool) returns (result: Result<()>)
      requires Valid() && Private(tx)
      modifies `weights, tracker, world`tick, store, tx
      ensures Valid()
      ensures (State(), result) == ReportOn(world.oracle, old(State()), old(tx.Value()), p, success)
    {
      ghost var t := tx.Value();
      var now := NoteReport(tx.event.code, p, success);
      assert tx.Value() == t;
      result := ApplyReport(tx, success, now);
    }

    method NoteReport(code: Code, p: Processor, success: bool) returns (now: int)
      requires Valid()
      modifies `weights, tracker, world`tick
      ensures Valid()
      ensures var e := old(State());
              && now == world.oracle.clock(e.tick)
              && State() == e.(windows := Record(e.windows, p, success, now, world.oracle.clock(e.tick + 1)),
                               weights := Learn(e.weights, code, p, success), tick := e.tick + 2)
    {
      now := ReadClock();
      Absorb(code, p, success, now);
    }

    method ApplyReport(tx: Transaction, success: bool, now: int) returns (result: Result<()>)
      requires Valid() && Private(tx)
      modifies tx, store
      ensures Valid()
      ensures var e, t := old(State()), Reported(old(tx.Value()), success, now);
              && State() == e.(store := Update(e.store, t))
              && result == if t.id in e.store.txs then Ok(()) else Err(NotFound)
    {
      if success && (tx.status == Retrying || tx.status == Exhausted) {
        MarkClosed(tx, true, now);
      }
      var ok := Commit(tx);
      result := if ok then Ok(()) else Err(NotFound);
    }

    method Fetch(id: Id) returns (tx: Transaction?)
      requires Valid()
      modifies store`shared
      ensures Valid() && State() == old(State())
      ensures tx == null <==> id !in State().store.txs
      ensures tx != null ==> fresh(tx) && fresh(tx.attempts) && Private(tx) && tx.Value() == State().store.txs[id]
    {
      hide Enumerated;
      tx := store.GetTransaction(id);
    }

    /** One turn of the retry loop; `done` when the record was closed. */
    method Turn(tx: Transaction, event: FailureEvent, classification: Classification) returns (done: bool)
      requires Valid() && Private(tx) && tx.event == event && tx.classification == classification
      requires tx.retryCount < MAX_RETRIES
      modifies this, world, tracker, store, tx
      ensures Valid() && Private(tx)
      ensures var e, t := old(State()), old(tx.Value());
              if done then (State(), tx.Value()) == Chain(cat, world.oracle, e, t)
              else Chain(cat, world.oracle, State(), tx.Value()) == Chain(cat, world.oracle, e, t)
      ensures !done ==>
                tx.event == event && tx.classification == classification && tx.retryCount == old(tx.retryCount) + 1
    {
      hide PlanRetry, Finish, Record, Learn;
      ghost var e, t := State(), tx.Value();
      ghost var plan := PlanRetry(cat, world.oracle, e, event, classification.strategy);
      var attempt := PlanRetryAttempt(tx, event, classification);
      assert State() == e.(tick := plan.tick) && tx.Value() == t;
      if attempt == None {
        Conclude(tx, false);
        return true;
      }
      var success := RunAttempt(tx, event, attempt.value, plan);
      assert (State(), tx.Value()) == TryOnce(cat, world.oracle, e, t, plan);
      if success {
        Conclude(tx, true);
      }
      done := success;
    }

    method ExecuteRetryChain(tx: Transaction, event: FailureEvent, classification: Classification)
      requires Valid() && Private(tx) && tx.event == event && tx.classification == classification
      modifies this, world, tracker, store, tx
      ensures Valid()
      ensures (State(), tx.Value()) == Chain(cat, world.oracle, old(State()), old(tx.Value()))
    {
      ghost var goal := Chain(cat, world.oracle, State(), tx.Value());
      while tx.retryCount < MAX_RETRIES
        invariant Valid() && Private(tx) && tx.event == event && tx.classification == classification
        invariant Chain(cat, world.oracle, State(), tx.Value()) == goal
        decreases MAX_RETRIES - tx.retryCount
      {
        var done := Turn(tx, event, classification);
        if done {
          return;
        }
      }
      Conclude(tx, false);
    }

    method Open(event: FailureEvent, classification: Classification, status: Status) returns (tx: Transaction, ok: bool)
      requires Valid()
      modifies store
      ensures Valid() && fresh(tx) && Private(tx) && fresh(tx.attempts)
      ensures tx.Value() == Tx(event.id, event, classification, status, 0, MAX_RETRIES, [], 0,
                               event.timestamp, event.timestamp, None)
      ensures ok <==> event.id !in old(State()).store.txs
      ensures State() == old(State()).(store := Save(old(State()).store, tx.Value()))
    {
      tx := new Transaction(event, classification, status);
      ok := store.SaveTransaction(tx);
    }

    method AdmitHard(event: FailureEvent, classification: Classification) returns (result: Result<Processed>)
      requires Valid() && classification == Classify(event) && classification.decline == HardDecline
      modifies store
      ensures Valid() && (State(), result) == Admit(cat, world.oracle, old(State()), event)
    {
      var tx, ok := Open(event, classification, HardDeclined);
      if !ok {
        return Err(DuplicateId);
      }
      result := Ok(Processed(event.id, classification, false, [], HardDeclined, 0));
    }

    method AdmitSoft(event: FailureEvent, classification: Classification) returns (result: Result<Processed>)
      requires Valid() && classification == Classify(event) && classification.decline == SoftDecline
      modifies this, world, tracker, store
      ensures Valid() && (State(), result) == Admit(cat, world.oracle, old(State()), event)
    {
      ghost var e := State();
      var tx, ok := Open(event, classification, Retrying);
      assert tx.Value() == NewTx(event);
      if !ok {
        return Err(DuplicateId);
      }
      ExecuteRetryChain(tx, event, classification);
      assert tx.Value().attempts == tx.attempts[..];
      result := Ok(Processed(event.id, classification, true, tx.attempts[..], tx.status, tx.totalCost));
    }

    method ProcessFailure(event: FailureEvent) returns (result: Result<Processed>)
      requires Valid()
      modifies this, world, tracker, store
      ensures Valid()
      ensures (State(), result) == Process(cat, world.oracle, old(State()), event)
    {
      RecordHealth(event.processor, false, event.timestamp);
      var classification := Classify(event);
      if classification.decline == HardDecline {
        result := AdmitHard(event, classification);
      } else {
        result := AdmitSoft(event, classification);
      }
    }

    /** The learned ratios, one entry per code that has any record, in no particular order. */
    method GetAdaptiveWeights() returns (report: seq<AdaptiveWeight>)
      ensures forall w <- report :: w.code in weights && Describes(w, weights, w.code)
      ensures forall i, j :: 0 <= i < j < |report| ==> report[i].code != report[j].code
      ensures |report| == |weights|
    {
      report := [];
      var remaining := weights.Keys;
      while remaining != {}
        invariant remaining <= weights.Keys && |report| + |remaining| == |weights.Keys|
        invariant forall w <- report :: w.code in weights && w.code !in remaining && Describes(w, weights, w.code)
        invariant forall i, j :: 0 <= i < j < |report| ==> report[i].code != report[j].code
      {
        var code :| code in remaining;
        var row := weights[code];
        var rates := map p | p in row && row[p].total > 0 :: row[p].successes as real / row[p].total as real;
        var samples := map p | p in row && row[p].total > 0 :: row[p].total;
        report := report + [AdaptiveWeight(code, rates, samples)];
        remaining := remaining - {code};
      }
      assert |weights.Keys| == |weights|;
    }
  }

  datatype AdaptiveWeight = AdaptiveWeight(code: Code, rates: map<Processor, real>, samples: map<Processor, nat>)

  /** The entry shows exactly the processors with records, each with its sample count and its share of
      successes, which is the rate that selection uses. */
  ghost predicate Describes(w: AdaptiveWeight, a: Weights, c: Code) {
    && (forall p :: p in w.rates <==> RecordOf(a, c, p).total > 0)
    && (forall p :: p in w.samples <==> RecordOf(a, c, p).total > 0)
    && (forall p <- w.samples :: w.samples[p] == RecordOf(a, c, p).total)
    && (forall p <- w.rates ::
          w.rates[p] == Rate(a, c, p) && IsShare(w.rates[p], RecordOf(a, c, p).successes, RecordOf(a, c, p).total))
  }
}
