/** The processor report, and both reports on every store the engine can reach. */
module Reports {
  import opened Domain
  import opened Ledger
  import opened Adaptive
  import opened World
  import opened RetryEngine
  import opened Invariant
  import Reachable
  import opened Tallies
  import opened Conservation
  import opened Metrics

  datatype ProcessorMetrics = ProcessorMetrics(
    processor: Processor, attempts: int, successes: int, failures: int,
    successRate: real, cost: int, health: Snapshot)

  /** What the attempts on one processor cost. */
  function Price(attempts: seq<RetryAttempt>, p: Processor): int {
    if attempts == [] then 0
    else
      var a := attempts[|attempts| - 1];
      Price(attempts[..|attempts| - 1], p) + if a.processor == p then a.cost else 0
  }

  function PriceOf(p: Processor): Tx -> int {
    (tx: Tx) => Price(tx.attempts, p)
  }

  /** The report on one processor before its quotient is taken. */
  function TotalsOn(txs: seq<Tx>, p: Processor, health: Snapshot): ProcessorMetrics {
    ProcessorMetrics(p, Sum(txs, UsesOf(p, {true, false})), Sum(txs, UsesOf(p, {true})), Sum(txs, UsesOf(p, {false})),
                     0.0, Sum(txs, PriceOf(p)), health)
  }

  function WithRate(m: ProcessorMetrics): ProcessorMetrics {
    m.(successRate := if m.attempts > 0 then m.successes as real / m.attempts as real else m.successRate)
  }

  function ProcessorOf(txs: seq<Tx>, p: Processor, health: Snapshot): ProcessorMetrics {
    WithRate(TotalsOn(txs, p, health))
  }

  // ---------- sums over processors ----------

  function Over(names: seq<Processor>, f: Processor -> int): int {
    if names == [] then 0 else Over(names[..|names| - 1], f) + f(names[|names| - 1])
  }

  lemma {:induction false} OverAdds(names: seq<Processor>, f: Processor -> int, g: Processor -> int,
                                    h: Processor -> int)
    requires forall p :: f(p) == g(p) + h(p)
    ensures Over(names, f) == Over(names, g) + Over(names, h)
  {
    if names != [] {
      OverAdds(names[..|names| - 1], f, g, h);
    }
  }

  lemma {:induction false} OverZero(names: seq<Processor>, f: Processor -> int)
    requires forall p <- names :: f(p) == 0
    ensures Over(names, f) == 0
  {
    if names != [] {
      OverZero(names[..|names| - 1], f);
    }
  }

  /** A measure that vanishes on all names but one sums to its value there. */
  lemma {:induction false} OverOne(names: seq<Processor>, f: Processor -> int, q: Processor)
    requires forall i, j :: 0 <= i < j < |names| ==> names[i] != names[j]
    requires q in names && forall p :: p != q ==> f(p) == 0
    ensures Over(names, f) == f(q)
  {
    var front, last := names[..|names| - 1], names[|names| - 1];
    assert names == front + [last];
    if last == q {
      assert forall i :: 0 <= i < |front| ==> front[i] == names[i] && names[i] != q;
      OverZero(front, f);
    } else {
      OverOne(front, f, q);
    }
  }

  ghost predicate OnKnownProcessors(cat: Catalog, attempts: seq<RetryAttempt>) {
    forall a <- attempts :: a.processor in cat.names
  }

  lemma {:induction false} UsesAddUp(cat: Catalog, attempts: seq<RetryAttempt>)
    requires cat.Ok() && OnKnownProcessors(cat, attempts)
    ensures Over(cat.names, p => Uses(attempts, p, {true, false})) == |attempts|
  {
    var f := p => Uses(attempts, p, {true, false});
    if attempts == [] {
      OverZero(cat.names, f);
    } else {
      var front, a := attempts[..|attempts| - 1], attempts[|attempts| - 1];
      var g := p => Uses(front, p, {true, false});
      var h := p => if a.processor == p then 1 else 0;
      assert attempts == front + [a];
      UsesAddUp(cat, front);
      OverOne(cat.names, h, a.processor);
      OverAdds(cat.names, f, g, h);
    }
  }

  lemma {:induction false} PricesAddUp(cat: Catalog, attempts: seq<RetryAttempt>)
    requires cat.Ok() && OnKnownProcessors(cat, attempts)
    ensures Over(cat.names, p => Price(attempts, p)) == CostOf(attempts)
  {
    var f := p => Price(attempts, p);
    if attempts == [] {
      OverZero(cat.names, f);
    } else {
      var front, a := attempts[..|attempts| - 1], attempts[|attempts| - 1];
      var g := p => Price(front, p);
      var h := p => if a.processor == p then a.cost else 0;
      assert attempts == front + [a];
      PricesAddUp(cat, front);
      OverOne(cat.names, h, a.processor);
      OverAdds(cat.names, f, g, h);
    }
  }

  /** Records whose original processor is in the catalogue. */
  ghost predicate Routable(cat: Catalog, txs: seq<Tx>) {
    AllBooked(cat, txs) && forall tx <- txs :: tx.event.processor in cat.names
  }

  lemma RoutableAttempts(cat: Catalog, tx: Tx)
    requires Booked(cat, tx) && tx.event.processor in cat.names
    ensures OnKnownProcessors(cat, tx.attempts)
  {
    forall a <- tx.attempts ensures a.processor in cat.names {
      var i :| 0 <= i < |tx.attempts| && tx.attempts[i] == a;
      assert AttemptOk(cat, tx, i);
    }
  }

  lemma {:induction false} AttemptsAddUp(cat: Catalog, txs: seq<Tx>)
    requires cat.Ok() && Routable(cat, txs)
    ensures Over(cat.names, p => Sum(txs, UsesOf(p, {true, false}))) == Sum(txs, Tries)
  {
    var f := p => Sum(txs, UsesOf(p, {true, false}));
    if txs == [] {
      OverZero(cat.names, f);
    } else {
      var front, tx := txs[..|txs| - 1], txs[|txs| - 1];
      AttemptsAddUp(cat, front);
      RoutableAttempts(cat, tx);
      UsesAddUp(cat, tx.attempts);
      OverAdds(cat.names, f, p => Sum(front, UsesOf(p, {true, false})), p => Uses(tx.attempts, p, {true, false}));
    }
  }

  lemma {:induction false} CostsAddUp(cat: Catalog, txs: seq<Tx>)
    requires cat.Ok() && Routable(cat, txs)
    ensures Over(cat.names, p => Sum(txs, PriceOf(p))) == Sum(txs, Spent)
  {
    var f := p => Sum(txs, PriceOf(p));
    if txs == [] {
      OverZero(cat.names, f);
    } else {
      var front, tx := txs[..|txs| - 1], txs[|txs| - 1];
      CostsAddUp(cat, front);
      RoutableAttempts(cat, tx);
      PricesAddUp(cat, tx.attempts);
      OverAdds(cat.names, f, p => Sum(front, PriceOf(p)), p => Price(tx.attempts, p));
    }
  }

  lemma {:induction false} UsesSplit(attempts: seq<RetryAttempt>, p: Processor)
    ensures Uses(attempts, p, {true, false}) == Uses(attempts, p, {true}) + Uses(attempts, p, {false})
  {
    if attempts != [] {
      UsesSplit(attempts[..|attempts| - 1], p);
    }
  }

  /** The processor report of any list of records: every attempt is a success or a failure. */
  lemma ProcessorCountsSplit(txs: seq<Tx>, p: Processor, health: Snapshot)
    ensures var m := ProcessorOf(txs, p, health); m.successes + m.failures == m.attempts && 0.0 <= m.successRate <= 1.0
  {
    forall tx <- txs ensures UsesOf(p, {true, false})(tx) == UsesOf(p, {true})(tx) + UsesOf(p, {false})(tx) {
      UsesSplit(tx.attempts, p);
    }
    SumSplits(txs, UsesOf(p, {true, false}), UsesOf(p, {true}), UsesOf(p, {false}));
    SumNonNegative(txs, UsesOf(p, {true}));
    SumNonNegative(txs, UsesOf(p, {false}));
    var m := TotalsOn(txs, p, health);
    if m.attempts > 0 {
      QuotientInRange(m.successes, m.attempts, 1);
    }
  }

  lemma {:induction false} CostIsBounded(cat: Catalog, tx: Tx, most: nat, n: nat)
    requires Booked(cat, tx) && n <= |tx.attempts| && forall p :: cat.Cost(p) <= most
    ensures CostOf(tx.attempts[..n]) <= most * n
  {
    if n > 0 {
      CostIsBounded(cat, tx, most, n - 1);
      assert tx.attempts[..n][..n - 1] == tx.attempts[..n - 1];
      assert AttemptOk(cat, tx, n - 1);
      assert most * n == most * (n - 1) + most;
    }
  }

  /** The two reports reconcile: attempts and costs per processor add up to the totals of the recovery
      report, and no more than three attempts at the highest price are paid per soft decline. */
  lemma ReportsReconcile(cat: Catalog, txs: seq<Tx>, start: int, end: int, most: nat, health: Processor -> Snapshot)
    requires cat.Ok() && Routable(cat, txs) && forall p :: cat.Cost(p) <= most
    ensures var m := RecoveryOf(txs, start, end);
            && Over(cat.names, p => ProcessorOf(txs, p, health(p)).attempts) == m.retries
            && Over(cat.names, p => ProcessorOf(txs, p, health(p)).cost) == m.cost
            && m.cost <= 3 * most * m.soft
  {
    AttemptsAddUp(cat, txs);
    CostsAddUp(cat, txs);
    var attempts, uses := p => ProcessorOf(txs, p, health(p)).attempts, p => Sum(txs, UsesOf(p, {true, false}));
    forall p ensures attempts(p) == uses(p) {
      assert ProcessorOf(txs, p, health(p)).attempts == Sum(txs, UsesOf(p, {true, false}));
    }
    OverSame(cat.names, attempts, uses);
    var costs, prices := p => ProcessorOf(txs, p, health(p)).cost, p => Sum(txs, PriceOf(p));
    forall p ensures costs(p) == prices(p) {
      assert ProcessorOf(txs, p, health(p)).cost == Sum(txs, PriceOf(p));
    }
    OverSame(cat.names, costs, prices);
    forall tx <- txs ensures Spent(tx) <= 3 * most * Soft(tx) {
      SpentIsBounded(cat, tx, most);
    }
    SumScaled(txs, Spent, 3 * most, Soft);
  }

  lemma SpentIsBounded(cat: Catalog, tx: Tx, most: nat)
    requires Booked(cat, tx) && forall p :: cat.Cost(p) <= most
    ensures Spent(tx) <= 3 * most * Soft(tx)
  {
    CostIsBounded(cat, tx, most, |tx.attempts|);
    assert tx.attempts[..|tx.attempts|] == tx.attempts;
    var n := |tx.attempts|;
    assert most * n <= 3 * most;
  }

  lemma {:induction false} OverSame(names: seq<Processor>, f: Processor -> int, g: Processor -> int)
    requires forall p :: f(p) == g(p)
    ensures Over(names, f) == Over(names, g)
  {
    if names != [] {
      OverSame(names[..|names| - 1], f, g);
    }
  }

  // ---------- on every reachable store ----------

  /** Every stored record comes from an event that was submitted. */
  lemma {:induction false} RecordsWereSubmitted(cat: Catalog, o: Oracle, ops: seq<Op>, id: Id)
    requires Usable(cat) && id in Run(cat, o, INITIAL, ops).store.txs
    ensures Submit(Run(cat, o, INITIAL, ops).store.txs[id].event) in ops
    decreases |ops|
  {
    var front, last := ops[..|ops| - 1], ops[|ops| - 1];
    var e := Run(cat, o, INITIAL, front);
    assert ops == front + [last];
    Reachable.ReachableStoresAreOk(cat, o, front);
    if id in e.store.txs {
      Reachable.StepEvolves(cat, o, e, last, id);
      RecordsWereSubmitted(cat, o, front, id);
    } else {
      var tx := Reachable.ProcessAccepts(cat, o, e, last.event);
    }
  }

  lemma {:induction false} SelectedAreListed(s: seq<Tx>, keep: Tx -> bool, tx: Tx)
    requires tx in Select(s, keep)
    ensures tx in s
  {
    var front, last := s[..|s| - 1], s[|s| - 1];
    assert s == front + [last];
    if tx in Select(front, keep) {
      SelectedAreListed(front, keep, tx);
    }
  }

  /** Whatever holds of all submitted events holds of the events behind any reported range. */
  lemma ReportedRecords(cat: Catalog, o: Oracle, ops: seq<Op>, start: int, end: int)
    requires Usable(cat)
    ensures var s := Run(cat, o, INITIAL, ops).store;
            Listed(s) && forall tx <- InRange(s, start, end) :: Settled(cat, tx) && Submit(tx.event) in ops
  {
    var s := Run(cat, o, INITIAL, ops).store;
    Reachable.ReachableStoresAreOk(cat, o, ops);
    EnumeratedMeans(s);
    forall tx <- InRange(s, start, end) ensures Settled(cat, tx) && Submit(tx.event) in ops {
      SelectedAreListed(All(s), Within(start, end), tx);
      var i :| 0 <= i < |s.order| && All(s)[i] == tx;
      assert RecordOk(cat, s, s.order[i]);
      RecordsWereSubmitted(cat, o, ops, s.order[i]);
    }
  }

  /** Recovery metrics on every reachable store and for any time range, if only positive amounts were
      submitted: the counts partition, the rate is a ratio, revenue stays within what was at risk, the
      breakdown adds up and the average delay is at most 30 seconds. */
  lemma ReachableRecoveryMetrics(cat: Catalog, o: Oracle, ops: seq<Op>, start: int, end: int)
    requires Usable(cat) && forall op <- ops :: op.Submit? ==> op.event.amount > 0
    ensures Listed(Run(cat, o, INITIAL, ops).store)
    ensures var m := RecoveryOf(InRange(Run(cat, o, INITIAL, ops).store, start, end), start, end);
            && m.hard + m.soft == m.total
            && m.recovered + m.exhausted == m.soft
            && 0.0 <= m.recoveryRate <= 1.0
            && 0 <= m.revenue <= m.atRisk
            && TotalOf(m.breakdown) == m.total
            && 0.0 <= m.latency <= 30.0
  {
    ReportedRecords(cat, o, ops, start, end);
    RecoveryIdentities(cat, InRange(Run(cat, o, INITIAL, ops).store, start, end), start, end);
  }

  /** Both reports on every reachable store of the real catalogue, if every event named one of its
      processors: they agree, and at most 90 cents are spent per soft decline. */
  lemma ReachableReportsReconcile(o: Oracle, ops: seq<Op>, start: int, end: int, health: Processor -> Snapshot)
    requires forall op <- ops :: op.Submit? ==> op.event.processor in REAL_CATALOG.names
    ensures Listed(Run(REAL_CATALOG, o, INITIAL, ops).store)
    ensures var txs := InRange(Run(REAL_CATALOG, o, INITIAL, ops).store, start, end);
            var m := RecoveryOf(txs, start, end);
            && Over(REAL_CATALOG.names, p => ProcessorOf(txs, p, health(p)).attempts) == m.retries
            && Over(REAL_CATALOG.names, p => ProcessorOf(txs, p, health(p)).cost) == m.cost
            && m.cost <= 90 * m.soft
  {
    RealCatalogOk();
    ReportedRecords(REAL_CATALOG, o, ops, start, end);
    var txs := InRange(Run(REAL_CATALOG, o, INITIAL, ops).store, start, end);
    assert forall p :: REAL_CATALOG.Cost(p) <= 30;
    ReportsReconcile(REAL_CATALOG, txs, start, end, 30, health);
  }

  lemma {:induction false} SelectAll(s: seq<Tx>, keep: Tx -> bool)
    requires forall tx <- s :: keep(tx)
    ensures Select(s, keep) == s
  {
    if s != [] {
      SelectAll(s[..|s| - 1], keep);
    }
  }

  /** The learned record of a processor, summed over the codes that are ever retried. */
  function LearnedOn(a: Weights, p: Processor): AdaptiveRecord {
    var r1, r2, r3, r4, r5 := RecordOf(a, ProcessorTimeout, p), RecordOf(a, NetworkError, p),
                              RecordOf(a, IssuerUnavailable, p), RecordOf(a, DoNotHonor, p),
                                  RecordOf(a, RateLimitExceeded, p);
    AdaptiveRecord(r1.successes + r2.successes + r3.successes + r4.successes + r5.successes,
                   r1.total + r2.total + r3.total + r4.total + r5.total)
  }

  lemma LearnedOnIsConserved(cat: Catalog, o: Oracle, ops: seq<Op>, p: Processor)
    requires Usable(cat)
    ensures var chains, reports := FromChains(cat, o, ops), FromReports(cat, o, ops);
            LearnedOn(Run(cat, o, INITIAL, ops).weights, p) ==
            AdaptiveRecord(OverSoftCodes(chains, p, {true}) + OverSoftCodes(reports, p, {true}),
                           OverSoftCodes(chains, p, {true, false}) + OverSoftCodes(reports, p, {true, false}))
  {
    WeightsAreConserved(cat, o, ops, ProcessorTimeout, p);
    WeightsAreConserved(cat, o, ops, NetworkError, p);
    WeightsAreConserved(cat, o, ops, IssuerUnavailable, p);
    WeightsAreConserved(cat, o, ops, DoNotHonor, p);
    WeightsAreConserved(cat, o, ops, RateLimitExceeded, p);
  }

  /** A range that covers every submitted timestamp holds every record. */
  lemma RangeCovers(cat: Catalog, o: Oracle, ops: seq<Op>, start: int, end: int)
    requires Usable(cat) && forall op <- ops :: op.Submit? ==> start <= op.event.timestamp <= end
    ensures var s := Run(cat, o, INITIAL, ops).store; Listed(s) && InRange(s, start, end) == All(s)
  {
    var s := Run(cat, o, INITIAL, ops).store;
    Reachable.ReachableStoresAreOk(cat, o, ops);
    EnumeratedMeans(s);
    forall tx <- All(s) ensures Within(start, end)(tx) {
      var i :| 0 <= i < |s.order| && All(s)[i] == tx;
      assert RecordOk(cat, s, s.order[i]);
      RecordsWereSubmitted(cat, o, ops, s.order[i]);
    }
    SelectAll(All(s), Within(start, end));
  }

  /** Without a reset and over a range that covers every record, the attempts and the successes that the
      processor report shows are the learned totals and successes summed over the codes, less what was
      reported from outside; and so are the failures, with the learned failures. */
  lemma ReportMatchesWeights(cat: Catalog, o: Oracle, ops: seq<Op>, start: int, end: int, p: Processor,
                             health: Snapshot)
    requires Usable(cat) && ResetAll !in ops
    requires forall op <- ops :: op.Submit? ==> start <= op.event.timestamp <= end
    ensures Listed(Run(cat, o, INITIAL, ops).store)
    ensures var e, reports := Run(cat, o, INITIAL, ops), FromReports(cat, o, ops);
            var m, learned := ProcessorOf(InRange(e.store, start, end), p, health), LearnedOn(e.weights, p);
            && m.attempts == learned.total - OverSoftCodes(reports, p, {true, false})
            && m.successes == learned.successes - OverSoftCodes(reports, p, {true})
            && m.failures == m.attempts - m.successes
  {
    RangeCovers(cat, o, ops, start, end);
    StoreHoldsChainAttempts(cat, o, ops, p, {true, false});
    StoreHoldsChainAttempts(cat, o, ops, p, {true});
    LearnedOnIsConserved(cat, o, ops, p);
    ProcessorCountsSplit(InRange(Run(cat, o, INITIAL, ops).store, start, end), p, health);
  }
}
