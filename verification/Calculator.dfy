/** The metrics calculator: loops over the copies that the store hands out, proved to compute the
    reports as folds over the stored records. */
module Calculation {
  import opened Domain
  import Health
  import HealthTracking
  import Ledger
  import opened Storage
  import Tallies
  import opened Conservation
  import opened Metrics
  import opened Reports

  /** Adds one record to the totals of those before it. */
  method AddRecord(tx: Transaction, m: RecoveryMetrics, ghost front: seq<Tx>) returns (r: RecoveryMetrics)
    requires m == Totals(front, m.start, m.end)
    ensures r == Totals(front + [tx.Value()], m.start, m.end)
  {
    ghost var v := tx.Value();
    assert (front + [v])[..|front|] == front;
    var c := tx.event.code;
    r := m.(total := m.total + 1,
            breakdown := m.breakdown[c := (if c in m.breakdown then m.breakdown[c] else 0) + 1]);
    match tx.classification.decline {
      case HardDecline => r := r.(hard := r.hard + 1);
      case SoftDecline => r := r.(soft := r.soft + 1, atRisk := r.atRisk + tx.event.amount);
    }
    match tx.status {
      case Recovered => r := r.(recovered := r.recovered + 1, revenue := r.revenue + tx.event.amount);
      case Exhausted => r := r.(exhausted := r.exhausted + 1);
      case _ =>
    }
    r := r.(cost := r.cost + tx.totalCost, retries := r.retries + tx.attempts.Length);
    var waited := AddDelays(tx, r.latency);
    r := r.(latency := waited);
  }

  method AddDelays(tx: Transaction, before: real) returns (after: real)
    ensures after == before + Waited(tx.Value()) as real
  {
    after := before;
    for j := 0 to tx.attempts.Length
      invariant after == before + Wait(tx.attempts[..j]) as real
    {
      assert tx.attempts[..j + 1][..j] == tx.attempts[..j];
      after := after + tx.attempts[j].delay as real;
    }
    assert tx.attempts[..tx.attempts.Length] == tx.attempts[..] == tx.Value().attempts;
  }

  /** The totals of one processor over whole records and the first attempts of the next. */
  ghost function Partial(front: seq<Tx>, attempts: seq<RetryAttempt>, p: Processor,
                         health: Snapshot): ProcessorMetrics {
    var m := TotalsOn(front, p, health);
    m.(attempts := m.attempts + Uses(attempts, p, {true, false}),
       successes := m.successes + Uses(attempts, p, {true}),
       failures := m.failures + Uses(attempts, p, {false}),
       cost := m.cost + Price(attempts, p))
  }

  lemma WholeRecord(front: seq<Tx>, tx: Tx, p: Processor, health: Snapshot)
    ensures Partial(front, tx.attempts, p, health) == TotalsOn(front + [tx], p, health)
  {
    Tallies.SumAppend(front, tx, UsesOf(p, {true, false}));
    Tallies.SumAppend(front, tx, UsesOf(p, {true}));
    Tallies.SumAppend(front, tx, UsesOf(p, {false}));
    Tallies.SumAppend(front, tx, PriceOf(p));
  }

  method AddAttempts(tx: Transaction, pms: map<Processor, ProcessorMetrics>,
                     ghost front: seq<Tx>, ghost health: map<Processor, Snapshot>)
    returns (result: map<Processor, ProcessorMetrics>)
    requires pms.Keys == health.Keys && forall p <- pms :: pms[p] == TotalsOn(front, p, health[p])
    ensures result.Keys == health.Keys
    ensures forall p <- result :: result[p] == TotalsOn(front + [tx.Value()], p, health[p])
  {
    result := pms;
    for j := 0 to tx.attempts.Length
      invariant result.Keys == health.Keys
      invariant forall p <- result :: result[p] == Partial(front, tx.attempts[..j], p, health[p])
    {
      var a := tx.attempts[j];
      assert tx.attempts[..j + 1][..j] == tx.attempts[..j];
      if a.processor !in result {
        continue;
      }
      var pm := result[a.processor];
      pm := pm.(attempts := pm.attempts + 1, cost := pm.cost + a.cost);
      if a.success {
        pm := pm.(successes := pm.successes + 1);
      } else {
        pm := pm.(failures := pm.failures + 1);
      }
      result := result[a.processor := pm];
    }
    ghost var v := tx.Value();
    assert tx.attempts[..tx.attempts.Length] == tx.attempts[..] == v.attempts;
    forall p <- result ensures result[p] == TotalsOn(front + [v], p, health[p]) {
      WholeRecord(front, v, p, health[p]);
    }
  }

  /** Takes the quotient of every entry; the entries are visited in any order. */
  method FillRates(pms: map<Processor, ProcessorMetrics>) returns (result: map<Processor, ProcessorMetrics>)
    ensures result.Keys == pms.Keys
    ensures forall p <- result :: result[p] == WithRate(pms[p])
  {
    result := pms;
    var remaining := pms.Keys;
    while remaining != {}
      invariant remaining <= pms.Keys && result.Keys == pms.Keys
      invariant forall p <- result :: result[p] == if p in remaining then pms[p] else WithRate(pms[p])
    {
      var p :| p in remaining;
      var pm := result[p];
      if pm.attempts > 0 {
        pm := pm.(successRate := pm.successes as real / pm.attempts as real);
      }
      result := result[p := pm];
      remaining := remaining - {p};
    }
  }

  method AddAll(txns: seq<Transaction>, start: int, end: int, ghost values: seq<Tx>) returns (m: RecoveryMetrics)
    requires Copies(txns, values)
    ensures m == Totals(values, start, end)
  {
    m := RecoveryMetrics(start, end, 0, 0, 0, 0, 0, 0.0, 0, 0, 0, 0, 0.0, map[]);
    for i := 0 to |txns|
      invariant m == Totals(values[..i], start, end)
    {
      assert values[..i + 1] == values[..i] + [values[i]];
      m := AddRecord(txns[i], m, values[..i]);
    }
    assert values[..|txns|] == values;
  }

  method AddAllAttempts(txns: seq<Transaction>, blank: map<Processor, ProcessorMetrics>, ghost values: seq<Tx>)
    returns (result: map<Processor, ProcessorMetrics>)
    requires Copies(txns, values)
    requires forall p <- blank :: blank[p] == Blank(p, blank[p].health)
    ensures result.Keys == blank.Keys
    ensures forall p <- result :: result[p] == ProcessorOf(values, p, blank[p].health)
  {
    result := blank;
    ghost var health := map p | p in blank :: blank[p].health;
    for i := 0 to |txns|
      invariant result.Keys == health.Keys
      invariant forall p <- result :: result[p] == TotalsOn(values[..i], p, health[p])
    {
      assert values[..i + 1] == values[..i] + [values[i]];
      result := AddAttempts(txns[i], result, values[..i], health);
    }
    assert values[..|txns|] == values;
    result := FillRates(result);
  }

  function Blank(p: Processor, health: Snapshot): ProcessorMetrics {
    ProcessorMetrics(p, 0, 0, 0, 0.0, 0, health)
  }

  class Calculator {
    const store: MemoryStore
    const tracker: HealthTracking.HealthTracker

    constructor (store: MemoryStore, tracker: HealthTracking.HealthTracker)
      ensures this.store == store && this.tracker == tracker
    {
      this.store, this.tracker := store, tracker;
    }

    method GetRecoveryMetrics(start: int, end: int) returns (m: RecoveryMetrics)
      requires store.Valid()
      modifies store`shared
      ensures store.Valid() && forall id <- store.View().order :: id in store.View().txs
      ensures m == RecoveryOf(Ledger.InRange(store.View(), start, end), start, end)
    {
      var txns, given := store.GetAllTransactionsInRange(start, end);
      m := AddAll(txns, start, end, Ledger.InRange(store.View(), start, end));
      if m.soft > 0 {
        m := m.(recoveryRate := m.recovered as real / m.soft as real);
      }
      if m.retries > 0 {
        m := m.(latency := m.latency / m.retries as real);
      }
    }

    /** One blank entry per processor, each with its health at its own clock reading. */
    method ReadHealth(names: seq<Processor>) returns (pms: map<Processor, ProcessorMetrics>)
      requires forall i, j :: 0 <= i < j < |names| ==> names[i] != names[j]
      modifies tracker.world`tick
      ensures pms.Keys == (set p | p in names) && forall p <- pms :: pms[p] == Blank(p, pms[p].health)
      ensures forall i :: 0 <= i < |names| ==>
                pms[names[i]] == Blank(names[i], HealthAt(names[i], old(tracker.world.tick) + i))
    {
      pms := map[];
      for i := 0 to |names|
        invariant pms.Keys == set p | p in names[..i]
        invariant tracker.world.tick == old(tracker.world.tick) + i
        invariant forall p <- pms :: pms[p] == Blank(p, pms[p].health)
        invariant forall k :: 0 <= k < i ==>
                    pms[names[k]] == Blank(names[k], HealthAt(names[k], old(tracker.world.tick) + k))
      {
        var p := names[i];
        var snap := tracker.GetHealth(p);
        pms := pms[p := ProcessorMetrics(p, 0, 0, 0, 0.0, 0, snap)];
        assert names[..i + 1] == names[..i] + [p];
      }
      assert names[..|names|] == names;
    }

    method ReportPerProcessor(names: seq<Processor>, txns: seq<Transaction>, ghost values: seq<Tx>)
      returns (result: map<Processor, ProcessorMetrics>)
      requires forall i, j :: 0 <= i < j < |names| ==> names[i] != names[j]
      requires Copies(txns, values)
      modifies tracker.world`tick
      ensures result.Keys == set p | p in names
      ensures forall i :: 0 <= i < |names| ==>
                result[names[i]] == ProcessorOf(values, names[i], HealthAt(names[i], old(tracker.world.tick) + i))
    {
      var blank := ReadHealth(names);
      assert Copies(txns, values);
      result := AddAllAttempts(txns, blank, values);
    }

    ghost function HealthAt(p: Processor, tick: nat): Snapshot
      reads tracker
    {
      Health.SnapshotOf(tracker.windows, p, tracker.world.oracle.clock(tick))
    }

    /** One entry per catalogue processor; attempts on others are skipped. */
    method GetProcessorMetrics(cat: Catalog, start: int, end: int) returns (result: map<Processor, ProcessorMetrics>)
      requires store.Valid() && cat.Ok()
      modifies store`shared, tracker.world`tick
      ensures store.Valid() && forall id <- store.View().order :: id in store.View().txs
      ensures result.Keys == set p | p in cat.names
      ensures forall i :: 0 <= i < |cat.names| ==>
                result[cat.names[i]] == ProcessorOf(Ledger.InRange(store.View(), start, end), cat.names[i],
                                                    HealthAt(cat.names[i], old(tracker.world.tick) + i))
    {
      hide ProcessorOf, HealthAt;
      var txns, given := store.GetAllTransactionsInRange(start, end);
      ghost var values := Ledger.InRange(store.View(), start, end);
      result := ReportPerProcessor(cat.names, txns, values);
      assert Ledger.InRange(store.View(), start, end) == values;
    }
  }
}
