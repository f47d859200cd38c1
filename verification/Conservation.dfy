/** Conservation across modules: what the engine has learned, what its callers were told, and what the
    store holds are the same attempts. */
module Conservation {
  import opened Domain
  import opened Ledger
  import opened Adaptive
  import opened World
  import opened RetryEngine
  import opened Invariant
  import opened Reachable
  import opened Tallies

  /** The attempts of the chain that a call ran, as reported in its result. */
  function ChainLessons(cat: Catalog, o: Oracle, e: Engine, op: Op): seq<Lesson> {
    if op.Submit? then
      match Process(cat, o, e, op.event).1
      case Ok(r) => Lessons(op.event.code, r.attempts)
      case Err(_) => []
    else []
  }

  /** The outcome that a call reported from outside, if the record existed. */
  function ReportLessons(e: Engine, op: Op): seq<Lesson> {
    if op.ReportOutcome? && op.id in e.store.txs
    then [Lesson(e.store.txs[op.id].event.code, op.processor, op.success)] else []
  }

  function FromChains(cat: Catalog, o: Oracle, ops: seq<Op>): seq<Lesson> {
    if ops == [] then []
    else
      var front := ops[..|ops| - 1];
      FromChains(cat, o, front) + ChainLessons(cat, o, Run(cat, o, INITIAL, front), ops[|ops| - 1])
  }

  function FromReports(cat: Catalog, o: Oracle, ops: seq<Op>): seq<Lesson> {
    if ops == [] then []
    else
      var front := ops[..|ops| - 1];
      FromReports(cat, o, front) + ReportLessons(Run(cat, o, INITIAL, front), ops[|ops| - 1])
  }

  lemma SubmitLearns(cat: Catalog, o: Oracle, e: Engine, event: FailureEvent)
    requires Usable(cat) && StoreOk(cat, e.store)
    ensures Process(cat, o, e, event).0.weights == LearnAll(e.weights, ChainLessons(cat, o, e, Submit(event)))
  {
    if event.id !in e.store.txs {
      var tx := ProcessAccepts(cat, o, e, event);
    }
  }

  lemma ReportLearns(o: Oracle, e: Engine, id: Id, p: Processor, success: bool)
    ensures Report(o, e, id, p, success).0.weights ==
            LearnAll(e.weights, ReportLessons(e, ReportOutcome(id, p, success)))
  {
    if id in e.store.txs {
      LearnOne(e.weights, Lesson(e.store.txs[id].event.code, p, success));
    }
  }

  lemma StepLearns(cat: Catalog, o: Oracle, e: Engine, op: Op)
    requires Usable(cat) && StoreOk(cat, e.store)
    ensures Step(cat, o, e, op).weights == LearnAll(e.weights, ChainLessons(cat, o, e, op) + ReportLessons(e, op))
  {
    var chain, report := ChainLessons(cat, o, e, op), ReportLessons(e, op);
    assert chain == [] ==> chain + report == report;
    assert report == [] ==> chain + report == chain;
    if op.Submit? {
      SubmitLearns(cat, o, e, op.event);
    } else if op.ReportOutcome? {
      ReportLearns(o, e, op.id, op.processor, op.success);
    }
  }

  /** For every code and processor, the adaptive total and successes are exactly the attempts, and the
      successful attempts, ever made on it by chains with that code plus the external reports for it.
      Resets do not matter: what was learned stays. */
  lemma {:induction false} WeightsAreConserved(cat: Catalog, o: Oracle, ops: seq<Op>, c: Code, p: Processor)
    requires Usable(cat)
    ensures var chains, reports := FromChains(cat, o, ops), FromReports(cat, o, ops);
            RecordOf(Run(cat, o, INITIAL, ops).weights, c, p) ==
            AdaptiveRecord(Count(chains, c, p, {true}) + Count(reports, c, p, {true}),
                           Count(chains, c, p, {true, false}) + Count(reports, c, p, {true, false}))
  {
    if ops != [] {
      var front, last := ops[..|ops| - 1], ops[|ops| - 1];
      var e := Run(cat, o, INITIAL, front);
      WeightsAreConserved(cat, o, front, c, p);
      ReachableStoresAreOk(cat, o, front);
      StepLearns(cat, o, e, last);
      var chain, report := ChainLessons(cat, o, e, last), ReportLessons(e, last);
      WeightsCountLessons(e.weights, chain + report, c, p);
      CountsAdd(FromChains(cat, o, front), FromReports(cat, o, front), chain, report, c, p, {true});
      CountsAdd(FromChains(cat, o, front), FromReports(cat, o, front), chain, report, c, p, {true, false});
    }
  }

  lemma CountsAdd(xs: seq<Lesson>, ys: seq<Lesson>, x: seq<Lesson>, y: seq<Lesson>, c: Code, p: Processor,
                  outcomes: set<bool>)
    ensures Count(x + y, c, p, outcomes) == Count(x, c, p, outcomes) + Count(y, c, p, outcomes)
    ensures Count(xs + x, c, p, outcomes) == Count(xs, c, p, outcomes) + Count(x, c, p, outcomes)
    ensures Count(ys + y, c, p, outcomes) == Count(ys, c, p, outcomes) + Count(y, c, p, outcomes)
  {
    CountConcat(x, y, c, p, outcomes);
    CountConcat(xs, x, c, p, outcomes);
    CountConcat(ys, y, c, p, outcomes);
  }

  /** Learned ratios are ratios: no record has more successes than outcomes. */
  lemma WeightsAreSound(cat: Catalog, o: Oracle, ops: seq<Op>, c: Code, p: Processor)
    requires Usable(cat)
    ensures var rec := RecordOf(Run(cat, o, INITIAL, ops).weights, c, p); rec.successes <= rec.total
    ensures 0.0 <= Rate(Run(cat, o, INITIAL, ops).weights, c, p) <= 1.0
  {
    WeightsAreConserved(cat, o, ops, c, p);
    SuccessesWithinTotal(FromChains(cat, o, ops), c, p);
    SuccessesWithinTotal(FromReports(cat, o, ops), c, p);
    var rec := RecordOf(Run(cat, o, INITIAL, ops).weights, c, p);
    if rec.total > 0 {
      RatioSteps(rec.successes, rec.total);
    }
  }

  /** On every run the rate that selection uses is the share of successes among all that was learned for
      the pair, from chains and from reports, and neutral if that is nothing. */
  lemma RatesAreShares(cat: Catalog, o: Oracle, ops: seq<Op>, c: Code, p: Processor)
    requires Usable(cat)
    ensures var chains, reports := FromChains(cat, o, ops), FromReports(cat, o, ops);
            var successes := Count(chains, c, p, {true}) + Count(reports, c, p, {true});
            var outcomes := Count(chains, c, p, {true, false}) + Count(reports, c, p, {true, false});
            IsShare(Rate(Run(cat, o, INITIAL, ops).weights, c, p), successes, outcomes)
  {
    hide Rate, Run, Count, RecordOf, IsShare;
    WeightsAreConserved(cat, o, ops, c, p);
    RateIsShare(Run(cat, o, INITIAL, ops).weights, c, p);
  }

  // ---------- what a reset clears ----------

  lemma {:induction false} NothingLearned(cat: Catalog, o: Oracle, ops: seq<Op>)
    requires Usable(cat) && FromChains(cat, o, ops) == [] && FromReports(cat, o, ops) == []
    ensures Run(cat, o, INITIAL, ops).weights == map[]
  {
    if ops != [] {
      var front := ops[..|ops| - 1];
      NothingLearned(cat, o, front);
      ReachableStoresAreOk(cat, o, front);
      StepLearns(cat, o, Run(cat, o, INITIAL, front), ops[|ops| - 1]);
    }
  }

  lemma LastCounts(lessons: seq<Lesson>)
    requires lessons != []
    ensures var l := lessons[|lessons| - 1]; Count(lessons, l.code, l.processor, {true, false}) > 0
  {
  }

  /** The reset endpoint promises to clear all data. It does so, after any run, exactly when there is
      nothing that was learned: no attempt was ever made and no outcome of a stored ID ever reported.
      (How often the clock was read does not count as data.) */
  lemma ResetClearsAllIff(cat: Catalog, o: Oracle, ops: seq<Op>)
    requires Usable(cat)
    ensures Reset(Run(cat, o, INITIAL, ops)).(tick := 0, flip := 0) == INITIAL <==>
              FromChains(cat, o, ops) == [] && FromReports(cat, o, ops) == []
  {
    var chains, reports := FromChains(cat, o, ops), FromReports(cat, o, ops);
    if chains == [] && reports == [] {
      NothingLearned(cat, o, ops);
    } else {
      var l := if chains != [] then chains[|chains| - 1] else reports[|reports| - 1];
      LastCounts(if chains != [] then chains else reports);
      WeightsAreConserved(cat, o, ops, l.code, l.processor);
    }
  }

  /** The failing case: after a single accepted soft decline, what its attempts taught outlives the
      reset. */
  lemma ResetLeavesLessons(cat: Catalog, o: Oracle, event: FailureEvent)
    requires Usable(cat) && Classify(event).decline == SoftDecline
    ensures Reset(Run(cat, o, INITIAL, [Submit(event)])).weights != map[]
  {
    var ops := [Submit(event)];
    assert ops[..0] == [] && Run(cat, o, INITIAL, ops) == Step(cat, o, INITIAL, ops[0]);
    var tx := ProcessAccepts(cat, o, INITIAL, event);
    var lessons := Lessons(event.code, tx.attempts);
    assert FromChains(cat, o, ops) == [] + lessons;
    ResetClearsAllIff(cat, o, ops);
  }

  // ---------- the store's side ----------

  /** How many attempts used this processor, of those with the given outcomes. */
  function Uses(attempts: seq<RetryAttempt>, p: Processor, outcomes: set<bool>): nat {
    if attempts == [] then 0
    else
      var a := attempts[|attempts| - 1];
      Uses(attempts[..|attempts| - 1], p, outcomes) + if a.processor == p && a.success in outcomes then 1 else 0
  }

  function UsesOf(p: Processor, outcomes: set<bool>): Tx -> int {
    (tx: Tx) => Uses(tx.attempts, p, outcomes)
  }

  /** The count summed over all codes that are ever retried. */
  function OverSoftCodes(lessons: seq<Lesson>, p: Processor, outcomes: set<bool>): nat {
    Count(lessons, ProcessorTimeout, p, outcomes) + Count(lessons, NetworkError, p, outcomes)
    + Count(lessons, IssuerUnavailable, p, outcomes) + Count(lessons, DoNotHonor, p, outcomes)
    + Count(lessons, RateLimitExceeded, p, outcomes)
  }

  lemma {:induction false} LessonsAreUses(code: Code, attempts: seq<RetryAttempt>, c: Code, p: Processor,
                                          outcomes: set<bool>)
    ensures Count(Lessons(code, attempts), c, p, outcomes) == if c == code then Uses(attempts, p, outcomes) else 0
  {
    if attempts != [] {
      var front := attempts[..|attempts| - 1];
      LessonsAreUses(code, front, c, p, outcomes);
      assert Lessons(code, attempts)[..|attempts| - 1] == Lessons(code, front);
    }
  }

  lemma SoftLessonsAreUses(event: FailureEvent, attempts: seq<RetryAttempt>, p: Processor, outcomes: set<bool>)
    requires Classify(event).decline == HardDecline ==> attempts == []
    ensures OverSoftCodes(Lessons(event.code, attempts), p, outcomes) == Uses(attempts, p, outcomes)
  {
    LessonsAreUses(event.code, attempts, ProcessorTimeout, p, outcomes);
    LessonsAreUses(event.code, attempts, NetworkError, p, outcomes);
    LessonsAreUses(event.code, attempts, IssuerUnavailable, p, outcomes);
    LessonsAreUses(event.code, attempts, DoNotHonor, p, outcomes);
    LessonsAreUses(event.code, attempts, RateLimitExceeded, p, outcomes);
  }

  lemma OverSoftCodesConcat(xs: seq<Lesson>, ys: seq<Lesson>, p: Processor, outcomes: set<bool>)
    ensures OverSoftCodes(xs + ys, p, outcomes) == OverSoftCodes(xs, p, outcomes) + OverSoftCodes(ys, p, outcomes)
  {
    CountConcat(xs, ys, ProcessorTimeout, p, outcomes);
    CountConcat(xs, ys, NetworkError, p, outcomes);
    CountConcat(xs, ys, IssuerUnavailable, p, outcomes);
    CountConcat(xs, ys, DoNotHonor, p, outcomes);
    CountConcat(xs, ys, RateLimitExceeded, p, outcomes);
  }

  ghost predicate Listed(s: Store) {
    forall id <- s.order :: id in s.txs
  }

  lemma AcceptedStoresUses(cat: Catalog, o: Oracle, e: Engine, event: FailureEvent, p: Processor, outcomes: set<bool>)
    requires Usable(cat) && StoreOk(cat, e.store) && Listed(e.store) && event.id !in e.store.txs
    ensures var s' := Process(cat, o, e, event).0.store;
            && Listed(s')
            && Sum(All(s'), UsesOf(p, outcomes)) ==
               Sum(All(e.store), UsesOf(p, outcomes))
                   + OverSoftCodes(ChainLessons(cat, o, e, Submit(event)), p, outcomes)
  {
    var s' := Process(cat, o, e, event).0.store;
    var tx := ProcessAccepts(cat, o, e, event);
    SaveAppends(e.store, tx);
    assert All(s') == All(Save(e.store, tx));
    SumAppend(All(e.store), tx, UsesOf(p, outcomes));
    SoftLessonsAreUses(event, tx.attempts, p, outcomes);
  }

  /** Records that only evolved still hold the same attempts. */
  lemma EvolvedKeepsUses(s: Store, s': Store, p: Processor, outcomes: set<bool>)
    requires Listed(s) && Listed(s') && s'.order == s.order
    requires forall id <- s.txs :: id in s'.txs && Evolves(s.txs[id], s'.txs[id])
    ensures Sum(All(s'), UsesOf(p, outcomes)) == Sum(All(s), UsesOf(p, outcomes))
  {
    SumSame(All(s'), All(s), UsesOf(p, outcomes), UsesOf(p, outcomes));
  }

  /** What one call adds to the attempts in the store. */
  lemma StepStoresUses(cat: Catalog, o: Oracle, e: Engine, op: Op, p: Processor, outcomes: set<bool>)
    requires Usable(cat) && StoreOk(cat, e.store) && Listed(e.store) && op != ResetAll
    ensures var s' := Step(cat, o, e, op).store;
            && Listed(s')
            && Sum(All(s'), UsesOf(p, outcomes)) ==
               Sum(All(e.store), UsesOf(p, outcomes)) + OverSoftCodes(ChainLessons(cat, o, e, op), p, outcomes)
  {
    if op.Submit? && op.event.id !in e.store.txs {
      AcceptedStoresUses(cat, o, e, op.event, p, outcomes);
    } else {
      var s' := Step(cat, o, e, op).store;
      forall id <- e.store.txs ensures id in s'.txs && Evolves(e.store.txs[id], s'.txs[id]) {
        StepEvolves(cat, o, e, op, id);
      }
      EvolvedKeepsUses(e.store, s', p, outcomes);
    }
  }

  /** Without a reset, the attempts on each processor held by the store are exactly those that chains
      made, summed over the codes. */
  lemma {:induction false} StoreHoldsChainAttempts(cat: Catalog, o: Oracle, ops: seq<Op>, p: Processor,
                                                   outcomes: set<bool>)
    requires Usable(cat) && ResetAll !in ops
    ensures var s := Run(cat, o, INITIAL, ops).store;
            && Listed(s)
            && Sum(All(s), UsesOf(p, outcomes)) == OverSoftCodes(FromChains(cat, o, ops), p, outcomes)
  {
    if ops != [] {
      var front, last := ops[..|ops| - 1], ops[|ops| - 1];
      var e := Run(cat, o, INITIAL, front);
      StoreHoldsChainAttempts(cat, o, front, p, outcomes);
      ReachableStoresAreOk(cat, o, front);
      StepStoresUses(cat, o, e, last, p, outcomes);
      OverSoftCodesConcat(FromChains(cat, o, front), ChainLessons(cat, o, e, last), p, outcomes);
    }
  }
}
