/** How a chain that keeps failing explores the alternatives. */
module Exploration {
  import opened Domain
  import opened Health
  import Ledger
  import opened Adaptive
  import opened Selection
  import opened World
  import opened RetryEngine
  import opened Invariant

  /** No alternative is read as DOWN when this plan is made. */
  ghost predicate AllUp(cat: Catalog, o: Oracle, e: Engine, event: FailureEvent) {
    forall r <- Alternatives(cat, o, e, event) :: r.state != Down
  }

  /** The source and exactly two alternatives, the first one cheaper. */
  ghost predicate TwoAlternatives(cat: Catalog, source: Processor, cheap: Processor, dear: Processor) {
    && Usable(cat) && |cat.names| == 3 && source in cat.names
    && cheap in cat.names && dear in cat.names
    && cheap != source && dear != source
    && cat.Cost(cheap) < cat.Cost(dear)
  }

  /** Between two alternatives that are up, the dearer one needs a strictly higher rate. */
  lemma ChoiceOfTwo(cat: Catalog, o: Oracle, e: Engine, event: FailureEvent, cheap: Processor, dear: Processor)
    requires TwoAlternatives(cat, event.processor, cheap, dear) && AllUp(cat, o, e, event)
    ensures PlanRetry(cat, o, e, event, AlternativeProcessor).target ==
            Some(if Rate(e.weights, event.code, dear) > Rate(e.weights, event.code, cheap) then dear else cheap)
  {
    var readings := Alternatives(cat, o, e, event);
    AlternativesOk(cat, o, e, event);
    assert |readings| == 2 by {
      OthersAre(cat.names, event.processor);
    }
    var i := AlternativeIsRead(cat, o, e, event, cheap);
    var j := AlternativeIsRead(cat, o, e, event, dear);
    var (k, l) := if Rate(e.weights, event.code, dear) > Rate(e.weights, event.code, cheap) then (j, i) else (i, j);
    assert readings[k] in readings && readings[l] in readings;
    assert Outranks(cat, readings[k], readings[l]);
    ChooseIsTheChoice(cat, readings, k);
  }

  /** A failed attempt: the chain goes on from the state and the record it leaves. */
  lemma FailedTry(cat: Catalog, o: Oracle, e: Engine, tx: Tx) returns (e1: Engine, tx1: Tx)
    requires Usable(cat) && Open(cat, tx) && tx.retryCount < MAX_RETRIES && !o.coin(e.flip)
    ensures Open(cat, tx1) && Chain(cat, o, e, tx) == Chain(cat, o, e1, tx1)
    ensures var plan := PlanRetry(cat, o, e, tx.event, tx.classification.strategy);
            && plan.target.Some? && (e1, tx1) == TryOnce(cat, o, e, tx, plan)
            && tx1.attempts == tx.attempts + [tx1.attempts[|tx.attempts|]]
            && tx1.attempts[|tx.attempts|].processor == plan.target.value
            && e1.weights == Learn(e.weights, tx.event.code, plan.target.value, false)
    ensures e1.flip == e.flip + 1 && tx1.event == tx.event && tx1.classification == tx.classification
  {
    hide PlanRetry, Record, Learn, Audit, Bookkeeping;
    TryKeepsOpen(cat, o, e, tx);
    var plan := PlanRetry(cat, o, e, tx.event, tx.classification.strategy);
    var next := TryOnce(cat, o, e, tx, plan);
    e1, tx1 := next.0, next.1;
  }

  ghost function Rivals(cat: Catalog, source: Processor): set<Processor> {
    set p | p in cat.names && p != source
  }

  // ---------- the next target ----------

  ghost predicate CheapestOf(cat: Catalog, p: Processor, among: set<Processor>) {
    p in among && forall q <- among :: q != p ==> cat.Cost(p) < cat.Cost(q)
  }

  /** The rivals not tried yet, or all of them once all have been. */
  ghost function Pool(rivals: set<Processor>, tried: set<Processor>): set<Processor> {
    if rivals <= tried then rivals else rivals - tried
  }

  /** The rivals have only failed so far, and exactly those that were tried. */
  ghost predicate OnlyFailed(a: Weights, c: Code, rivals: set<Processor>, tried: set<Processor>) {
    forall p <- rivals :: RecordOf(a, c, p).successes == 0 && (RecordOf(a, c, p).total > 0 <==> p in tried)
  }

  lemma OnlyFailedRate(a: Weights, c: Code, rivals: set<Processor>, tried: set<Processor>, p: Processor)
    requires OnlyFailed(a, c, rivals, tried) && p in rivals
    ensures Rate(a, c, p) == if p in tried then 0.0 else 0.5
  {
  }

  /** What the choice is among readings that are all up, with such rates. */
  lemma ChoiceBeats(cat: Catalog, readings: seq<Reading>, k: nat, j: nat, tried: set<Processor>)
    requires k < |readings| && j < |readings| && j != k && IsChoice(cat, readings, k)
    requires forall r <- readings :: r.state != Down && r.adaptiveRate == if r.name in tried then 0.0 else 0.5
    ensures readings[k].name !in tried || readings[j].name in tried
    ensures (readings[k].name in tried <==> readings[j].name in tried) ==>
        cat.Cost(readings[k].name) < cat.Cost(readings[j].name)
  {
    assert Outranks(cat, readings[k], readings[j]) && readings[k] in readings && readings[j] in readings;
  }

  lemma NextTarget(cat: Catalog, o: Oracle, e: Engine, event: FailureEvent, tried: set<Processor>)
    requires Usable(cat) && AllUp(cat, o, e, event)
    requires OnlyFailed(e.weights, event.code, Rivals(cat, event.processor), tried)
    ensures var target := PlanRetry(cat, o, e, event, AlternativeProcessor).target;
            target.Some? && CheapestOf(cat, target.value, Pool(Rivals(cat, event.processor), tried))
  {
    PlanAlwaysRoutes(cat, o, e, event, AlternativeProcessor);
    var readings, rivals := Alternatives(cat, o, e, event), Rivals(cat, event.processor);
    var target := PlanRetry(cat, o, e, event, AlternativeProcessor).target.value;
    var k :| 0 <= k < |readings| && readings[k].name == target && IsChoice(cat, readings, k);
    RivalsAreRead(cat, o, e, event, tried);
    hide PlanRetry, Alternatives, OnlyFailed, IsChoice;
    forall q <- rivals | q != target
      ensures target !in tried || q in tried
      ensures (target in tried <==> q in tried) ==> cat.Cost(target) < cat.Cost(q)
    {
      var j := AlternativeIsRead(cat, o, e, event, q);
      ChoiceBeats(cat, readings, k, j, tried);
    }
  }

  lemma RivalsAreRead(cat: Catalog, o: Oracle, e: Engine, event: FailureEvent, tried: set<Processor>)
    requires Usable(cat) && AllUp(cat, o, e, event)
    requires OnlyFailed(e.weights, event.code, Rivals(cat, event.processor), tried)
    ensures forall r <- Alternatives(cat, o, e, event) ::
              r.state != Down && r.adaptiveRate == if r.name in tried then 0.0 else 0.5
  {
    AlternativesOk(cat, o, e, event);
    var readings := Alternatives(cat, o, e, event);
    hide OnlyFailed, SnapshotOf;
    forall r <- readings ensures r.adaptiveRate == if r.name in tried then 0.0 else 0.5 {
      var k :| 0 <= k < |readings| && readings[k] == r;
      OnlyFailedRate(e.weights, event.code, Rivals(cat, event.processor), tried, r.name);
    }
  }

  lemma FailureIsTried(a: Weights, c: Code, rivals: set<Processor>, tried: set<Processor>, p: Processor)
    requires OnlyFailed(a, c, rivals, tried)
    ensures OnlyFailed(Learn(a, c, p, false), c, rivals, tried + {p})
  {
    forall q <- rivals
      ensures RecordOf(Learn(a, c, p, false), c, q).successes == 0
      ensures RecordOf(Learn(a, c, p, false), c, q).total > 0 <==> q in tried + {p}
    {
      LearnChangesOneRecord(a, c, p, false, c, q);
    }
  }

  // ---------- the chain ----------

  /** No rival is read as DOWN when any attempt of the chain is planned. */
  ghost predicate UpThroughout(cat: Catalog, o: Oracle, e: Engine, tx: Tx)
    decreases MAX_RETRIES - tx.retryCount
  {
    tx.retryCount < MAX_RETRIES ==>
      && AllUp(cat, o, e, tx.event)
      && var plan := PlanRetry(cat, o, e, tx.event, tx.classification.strategy);
         plan.target.Some? ==> var (e1, tx1) := TryOnce(cat, o, e, tx, plan); UpThroughout(cat, o, e1, tx1)
  }

  /** Every attempt goes to the cheapest rival not tried before, starting over once all were. */
  ghost predicate TriesInOrder(cat: Catalog, rivals: set<Processor>, tried: set<Processor>, attempts: seq<RetryAttempt>)
    decreases |attempts|
  {
    attempts == [] ||
    (CheapestOf(cat, attempts[0].processor, Pool(rivals, tried))
     && TriesInOrder(cat, rivals, tried + {attempts[0].processor}, attempts[1..]))
  }

  lemma {:induction false} FailingChainInOrder(cat: Catalog, o: Oracle, e: Engine, tx: Tx, tried: set<Processor>)
    requires Usable(cat) && Open(cat, tx) && tx.classification.strategy == AlternativeProcessor
    requires UpThroughout(cat, o, e, tx)
    requires OnlyFailed(e.weights, tx.event.code, Rivals(cat, tx.event.processor), tried)
    requires forall i :: e.flip <= i < e.flip + MAX_RETRIES - tx.retryCount ==> !o.coin(i)
    ensures var done := Chain(cat, o, e, tx).1;
            && done.status == Exhausted && |done.attempts| == MAX_RETRIES && tx.attempts <= done.attempts
            && TriesInOrder(cat, Rivals(cat, tx.event.processor), tried, done.attempts[|tx.attempts|..])
    decreases MAX_RETRIES - tx.retryCount
  {
    var rivals := Rivals(cat, tx.event.processor);
    if tx.retryCount < MAX_RETRIES {
      hide AllUp, Rivals, OnlyFailed, CheapestOf, PlanRetry, Bookkeeping, Learn;
      NextTarget(cat, o, e, tx.event, tried);
      var e1, tx1 := FailedTry(cat, o, e, tx);
      var plan := PlanRetry(cat, o, e, tx.event, tx.classification.strategy);
      FailureIsTried(e.weights, tx.event.code, rivals, tried, plan.target.value);
      assert tx1.retryCount == tx.retryCount + 1 by { TryCounts(cat, o, e, tx, plan); }
      FailingChainInOrder(cat, o, e1, tx1, tried + {plan.target.value});
      InOrder(cat, rivals, tried, tx.attempts, tx1.attempts, Chain(cat, o, e1, tx1).1.attempts);
    }
  }

  lemma TryCounts(cat: Catalog, o: Oracle, e: Engine, tx: Tx, plan: Plan)
    requires plan.target.Some?
    ensures TryOnce(cat, o, e, tx, plan).1.retryCount == tx.retryCount + 1
  {
  }

  lemma InOrder(cat: Catalog, rivals: set<Processor>, tried: set<Processor>,
                before: seq<RetryAttempt>, between: seq<RetryAttempt>, after: seq<RetryAttempt>)
    requires |between| == |before| + 1 && before <= between <= after
    requires CheapestOf(cat, between[|before|].processor, Pool(rivals, tried))
    requires TriesInOrder(cat, rivals, tried + {between[|before|].processor}, after[|between|..])
    ensures TriesInOrder(cat, rivals, tried, after[|before|..])
  {
    assert after[|before|..][0] == between[|before|];
    assert after[|before|..][1..] == after[|between|..];
  }

  /** The state in which the chain of a new event begins. */
  function Entered(o: Oracle, e: Engine, event: FailureEvent): Engine {
    var e1 := NoteFailure(o, e, event);
    e1.(store := Ledger.Save(e1.store, NewTx(event)))
  }

  /** The attempts of the result go to the cheapest rival, to the cheapest of the rest, and to the cheapest
      of what then is left, starting over when none is. */
  ghost predicate Explores(cat: Catalog, source: Processor, r: Result<Processed>) {
    && r.Ok? && r.value.finalStatus == Exhausted && |r.value.attempts| == 3
    && var rivals := Rivals(cat, source);
       var first, second, third :=
         r.value.attempts[0].processor, r.value.attempts[1].processor, r.value.attempts[2].processor;
       && CheapestOf(cat, first, rivals)
       && CheapestOf(cat, second, Pool(rivals, {first}))
       && CheapestOf(cat, third, Pool(rivals, {first, second}))
  }

  ghost predicate NoHistory(cat: Catalog, a: Weights, event: FailureEvent) {
    forall p <- Rivals(cat, event.processor) :: RecordOf(a, event.code, p) == AdaptiveRecord(0, 0)
  }

  predicate NextFail(o: Oracle, flip: nat) {
    !o.coin(flip) && !o.coin(flip + 1) && !o.coin(flip + 2)
  }

  /** Exploration: a new ALTERNATIVE_PROCESSOR event whose code has no history on the rivals of its
      processor. If none of them is read as DOWN at any planning point and all attempts fail, they explore
      the rivals in the order of price. */
  lemma FailingChainExplores(cat: Catalog, o: Oracle, e: Engine, event: FailureEvent)
    requires Usable(cat) && event.id !in e.store.txs && Classify(event).strategy == AlternativeProcessor
    requires UpThroughout(cat, o, Entered(o, e, event), NewTx(event))
    requires NoHistory(cat, e.weights, event) && NextFail(o, e.flip)
    ensures Explores(cat, event.processor, Process(cat, o, e, event).1)
  {
    hide UpThroughout, Chain, Process, Entered, NewTx, OnlyFailed, NoHistory, TriesInOrder, Explores, Open, Rivals;
    NothingTried(cat, e.weights, event);
    SubmissionRunsChain(cat, o, e, event);
    var e2, tx := Entered(o, e, event), NewTx(event);
    FailingChainInOrder(cat, o, e2, tx, {});
    var done := Chain(cat, o, e2, tx).1;
    assert done.attempts[0..] == done.attempts;
    InOrderExplores(cat, event.processor, Process(cat, o, e, event).1);
  }

  lemma NothingTried(cat: Catalog, a: Weights, event: FailureEvent)
    requires NoHistory(cat, a, event)
    ensures OnlyFailed(a, event.code, Rivals(cat, event.processor), {})
  {
  }

  /** What a submission that is retried comes to. */
  lemma SubmissionRunsChain(cat: Catalog, o: Oracle, e: Engine, event: FailureEvent)
    requires event.id !in e.store.txs && Classify(event).strategy == AlternativeProcessor
    ensures var e2, tx, r := Entered(o, e, event), NewTx(event), Process(cat, o, e, event).1;
            && e2.weights == e.weights && e2.flip == e.flip
            && Open(cat, tx) && tx.event == event && tx.classification.strategy == AlternativeProcessor
            && tx.attempts == [] && tx.retryCount == 0
            && var done := Chain(cat, o, e2, tx).1;
               r.Ok? && r.value.finalStatus == done.status && r.value.attempts == done.attempts
  {
    hide Chain, Record;
  }

  lemma InOrderExplores(cat: Catalog, source: Processor, r: Result<Processed>)
    requires r.Ok? && r.value.finalStatus == Exhausted && |r.value.attempts| == 3
    requires TriesInOrder(cat, Rivals(cat, source), {}, r.value.attempts)
    ensures Explores(cat, source, r)
  {
    hide CheapestOf, Rivals;
    var rivals, attempts := Rivals(cat, source), r.value.attempts;
    var first, second := attempts[0].processor, attempts[1].processor;
    var rest, last := attempts[1..], attempts[1..][1..];
    assert rivals - {} == rivals && {} + {first} == {first} && {first} + {second} == {first, second};
    assert rest[0] == attempts[1] && last[0] == attempts[2];
    assert TriesInOrder(cat, rivals, {first}, rest) && TriesInOrder(cat, rivals, {first, second}, last);
  }

  // ---------- by the number of rivals ----------

  /** With two rivals, as in the real table: the cheaper, the dearer, the cheaper again. */
  lemma TwoRivals(cat: Catalog, cheap: Processor, dear: Processor, first: Processor, second: Processor,
                  third: Processor)
    requires cat.Cost(cheap) < cat.Cost(dear)
    requires var rivals := {cheap, dear};
             && CheapestOf(cat, first, rivals) && CheapestOf(cat, second, Pool(rivals, {first}))
             && CheapestOf(cat, third, Pool(rivals, {first, second}))
    ensures first == cheap && second == dear && third == cheap
  {
    assert {cheap, dear} - {cheap} == {dear};
    assert first == cheap;
    assert dear in Pool({cheap, dear}, {first});
  }

  /** With three or more: the cheapest, the second and the third cheapest, all different. */
  lemma ThreeRivals(cat: Catalog, rivals: set<Processor>, first: Processor, second: Processor, third: Processor)
    requires |rivals| >= 3
    requires CheapestOf(cat, first, rivals) && CheapestOf(cat, second, Pool(rivals, {first}))
    requires CheapestOf(cat, third, Pool(rivals, {first, second}))
    ensures first in rivals && second in rivals && third in rivals
    ensures cat.Cost(first) < cat.Cost(second) < cat.Cost(third)
    ensures forall q <- rivals :: q != first && q != second && q != third ==> cat.Cost(third) < cat.Cost(q)
  {
    if rivals <= {first, second} {
      SubsetIsSmaller(rivals, {first, second});
    }
    assert !(rivals <= {first});
  }

  lemma {:induction false} SubsetIsSmaller(a: set<Processor>, b: set<Processor>)
    requires a <= b
    ensures |a| <= |b|
  {
    assert b == a + (b - a);
  }

  // ---------- what can be known before the call ----------

  /** No rival shows more than n events in its window. */
  ghost predicate Quiet(cat: Catalog, e: Engine, source: Processor, now: int, n: nat) {
    forall p <- Rivals(cat, source) :: SnapshotOf(e.windows, p, now).total <= n
  }

  lemma SeenAfterRecord(w: Windows, p: Processor, success: bool, ts: int, now: int, q: Processor, early: int, late: int)
    requires early <= now <= late
    ensures SnapshotOf(Record(w, p, success, ts, now), q, late).total <= SnapshotOf(w, q, early).total + 1
    ensures q != p ==> SnapshotOf(Record(w, p, success, ts, now), q, late).total <= SnapshotOf(w, q, early).total
  {
    HealthDecays(w, q, early, now);
    RecordIsCounted(w, p, success, ts, now, q);
    HealthDecays(Record(w, p, success, ts, now), q, now, late);
  }

  /** Per rival: up to n events, and one more once it was tried. */
  ghost predicate Sparse(cat: Catalog, e: Engine, source: Processor, now: int, n: nat, tried: set<Processor>) {
    forall p <- Rivals(cat, source) :: SnapshotOf(e.windows, p, now).total <= n + if p in tried then 1 else 0
  }

  /** With fewer than five events no processor is DOWN, now or later. */
  lemma FewEventsAreUp(w: Windows, p: Processor, now: int, later: int)
    requires now <= later && SnapshotOf(w, p, now).total <= 4
    ensures SnapshotOf(w, p, later).state != Down
  {
    HealthDecays(w, p, now, later);
  }

  lemma QuietIsUp(cat: Catalog, o: Oracle, e: Engine, event: FailureEvent)
    requires Usable(cat) && ClockAdvances(o) && Quiet(cat, e, event.processor, o.clock(e.tick), 4)
    ensures AllUp(cat, o, e, event)
  {
    var others := Others(cat.names, event.processor);
    OthersAre(cat.names, event.processor);
    hide SnapshotOf, Others;
    forall r <- Alternatives(cat, o, e, event) ensures r.state != Down {
      var k :| 0 <= k < |others| && Alternatives(cat, o, e, event)[k] == r;
      assert others[k] in others;
      FewEventsAreUp(e.windows, others[k], o.clock(e.tick), o.clock(e.tick + 2 + k));
    }
  }

  lemma TryStaysQuiet(cat: Catalog, o: Oracle, e: Engine, tx: Tx, plan: Plan, n: nat)
    requires ClockAdvances(o) && plan.target.Some? && e.tick <= plan.tick
    requires Quiet(cat, e, tx.event.processor, o.clock(e.tick), n)
    ensures var e1 := TryOnce(cat, o, e, tx, plan).0; Quiet(cat, e1, tx.event.processor, o.clock(e1.tick), n + 1)
  {
    hide Record, SnapshotOf, Learn, Ledger.Log;
    var e1 := TryOnce(cat, o, e, tx, plan).0;
    forall p <- Rivals(cat, tx.event.processor) ensures SnapshotOf(e1.windows, p, o.clock(e1.tick)).total <= n + 1 {
      SeenAfterRecord(e.windows, plan.target.value, o.coin(e.flip), plan.stamp, o.clock(plan.tick + 2), p,
                      o.clock(e.tick), o.clock(e1.tick));
    }
  }

  lemma PlanTakesTime(cat: Catalog, o: Oracle, e: Engine, event: FailureEvent, strategy: Strategy)
    ensures e.tick <= PlanRetry(cat, o, e, event, strategy).tick
  {
  }

  /** Noting the failure does not touch the rivals. */
  lemma NoteStaysQuiet(cat: Catalog, o: Oracle, e: Engine, event: FailureEvent, n: nat)
    requires ClockAdvances(o) && Quiet(cat, e, event.processor, o.clock(e.tick), n)
    ensures var e1 := NoteFailure(o, e, event); Quiet(cat, e1, event.processor, o.clock(e1.tick), n)
  {
    hide Record, SnapshotOf;
    var e1 := NoteFailure(o, e, event);
    forall p <- Rivals(cat, event.processor) ensures SnapshotOf(e1.windows, p, o.clock(e1.tick)).total <= n {
      SeenAfterRecord(e.windows, event.processor, false, event.timestamp, o.clock(e.tick), p, o.clock(e.tick),
                      o.clock(e1.tick));
    }
  }

  /** At most two events in the window of each rival are few enough, whatever the attempts do. */
  lemma {:induction false} QuietIsUpThroughout(cat: Catalog, o: Oracle, e: Engine, tx: Tx, n: nat)
    requires Usable(cat) && ClockAdvances(o) && n + MAX_RETRIES - tx.retryCount <= 5
    requires Quiet(cat, e, tx.event.processor, o.clock(e.tick), n)
    ensures UpThroughout(cat, o, e, tx)
    decreases MAX_RETRIES - tx.retryCount
  {
    if tx.retryCount < MAX_RETRIES {
      hide SnapshotOf, Rivals, PlanRetry, AllUp;
      QuietIsUp(cat, o, e, tx.event);
      var plan := PlanRetry(cat, o, e, tx.event, tx.classification.strategy);
      if plan.target.Some? {
        PlanTakesTime(cat, o, e, tx.event, tx.classification.strategy);
        TryStaysQuiet(cat, o, e, tx, plan, n);
        TryCounts(cat, o, e, tx, plan);
        var (e1, tx1) := TryOnce(cat, o, e, tx, plan);
        QuietIsUpThroughout(cat, o, e1, tx1, n + 1);
      }
    }
  }

  lemma TryStaysSparse(cat: Catalog, o: Oracle, e: Engine, tx: Tx, plan: Plan, n: nat, tried: set<Processor>)
    requires ClockAdvances(o) && plan.target.Some? && e.tick <= plan.tick && plan.target.value !in tried
    requires Sparse(cat, e, tx.event.processor, o.clock(e.tick), n, tried)
    ensures var e1 := TryOnce(cat, o, e, tx, plan).0;
            Sparse(cat, e1, tx.event.processor, o.clock(e1.tick), n, tried + {plan.target.value})
  {
    hide Record, SnapshotOf, Learn;
    var e1 := TryOnce(cat, o, e, tx, plan).0;
    forall p <- Rivals(cat, tx.event.processor)
      ensures SnapshotOf(e1.windows, p, o.clock(e1.tick)).total <= n + if p in tried + {plan.target.value} then 1 else 0
    {
      SeenAfterRecord(e.windows, plan.target.value, o.coin(e.flip), plan.stamp, o.clock(plan.tick + 2), p,
                      o.clock(e.tick), o.clock(e1.tick));
    }
  }

  /** With at least two rivals none is tried twice before the third plan, so even three events each are
      few enough. */
  lemma {:induction false} SparseIsUpThroughout(cat: Catalog, o: Oracle, e: Engine, tx: Tx, tried: set<Processor>)
    requires Usable(cat) && ClockAdvances(o) && Open(cat, tx) && tx.classification.strategy == AlternativeProcessor
    requires |Rivals(cat, tx.event.processor)| >= 2 && |tried| <= tx.retryCount
    requires Sparse(cat, e, tx.event.processor, o.clock(e.tick), 3, tried)
    requires OnlyFailed(e.weights, tx.event.code, Rivals(cat, tx.event.processor), tried)
    requires forall i :: e.flip <= i < e.flip + MAX_RETRIES - tx.retryCount ==> !o.coin(i)
    ensures UpThroughout(cat, o, e, tx)
    decreases MAX_RETRIES - tx.retryCount
  {
    hide SnapshotOf, Rivals, PlanRetry, AllUp, OnlyFailed, Bookkeeping, Learn, CheapestOf, TryOnce, Chain;
    if tx.retryCount < MAX_RETRIES {
      var rivals := Rivals(cat, tx.event.processor);
      QuietIsUp(cat, o, e, tx.event);
      NextTarget(cat, o, e, tx.event, tried);
      var e1, tx1 := FailedTry(cat, o, e, tx);
      var plan := PlanRetry(cat, o, e, tx.event, tx.classification.strategy);
      TryCounts(cat, o, e, tx, plan);
      if tx.retryCount < 2 {
        if rivals <= tried {
          SubsetIsSmaller(rivals, tried);
        }
        assert plan.target.value !in tried by { TargetInPool(cat, plan.target.value, rivals, tried); }
        PlanTakesTime(cat, o, e, tx.event, tx.classification.strategy);
        TryStaysSparse(cat, o, e, tx, plan, 3, tried);
        FailureIsTried(e.weights, tx.event.code, rivals, tried, plan.target.value);
        SparseIsUpThroughout(cat, o, e1, tx1, tried + {plan.target.value});
      }
    }
  }

  lemma TargetInPool(cat: Catalog, p: Processor, rivals: set<Processor>, tried: set<Processor>)
    requires CheapestOf(cat, p, Pool(rivals, tried)) && !(rivals <= tried)
    ensures p !in tried
  {
  }

  /** The same from what is known before the call, under a clock that does not go back: at most two events
      in the window of each rival, or three if there are at least two rivals. */
  lemma QuietRivalsAreExplored(cat: Catalog, o: Oracle, e: Engine, event: FailureEvent)
    requires Usable(cat) && event.id !in e.store.txs && Classify(event).strategy == AlternativeProcessor
    requires ClockAdvances(o)
    requires Quiet(cat, e, event.processor, o.clock(e.tick), if |Rivals(cat, event.processor)| >= 2 then 3 else 2)
    requires NoHistory(cat, e.weights, event) && NextFail(o, e.flip)
    ensures Explores(cat, event.processor, Process(cat, o, e, event).1)
  {
    var e2, tx, rivals := Entered(o, e, event), NewTx(event), Rivals(cat, event.processor);
    NoteStaysQuiet(cat, o, e, event, if |rivals| >= 2 then 3 else 2);
    assert OnlyFailed(e2.weights, event.code, rivals, {});
    assert Open(cat, tx);
    hide Record, SnapshotOf, Rivals, UpThroughout, Explores, OnlyFailed, Bookkeeping;
    if |rivals| >= 2 {
      SparseIsUpThroughout(cat, o, e2, tx, {});
    } else {
      QuietIsUpThroughout(cat, o, e2, tx, 2);
    }
    FailingChainExplores(cat, o, e, event);
  }

  // ---------- the real table ----------

  /** The cheaper and the dearer rival in the real table. */
  function RealRivals(source: Processor): (Processor, Processor) {
    match source
    case ProcessorA => (ProcessorC, ProcessorB)
    case ProcessorB => (ProcessorC, ProcessorA)
    case _ => (ProcessorB, ProcessorA)
  }

  lemma RealRivalsAre(source: Processor)
    requires source in REAL_CATALOG.names
    ensures var (cheap, dear) := RealRivals(source);
            && Rivals(REAL_CATALOG, source) == {cheap, dear}
            && REAL_CATALOG.Cost(cheap) < REAL_CATALOG.Cost(dear)
  {
  }

  /** The real table: A's declines go to C, B, C; B's to C, A, C; C's to B, A, B. */
  lemma RealTableExplores(o: Oracle, e: Engine, event: FailureEvent)
    requires event.id !in e.store.txs && event.processor in REAL_CATALOG.names
    requires Classify(event).strategy == AlternativeProcessor
    requires UpThroughout(REAL_CATALOG, o, Entered(o, e, event), NewTx(event))
    requires NoHistory(REAL_CATALOG, e.weights, event) && NextFail(o, e.flip)
    ensures var (cheap, dear) := RealRivals(event.processor);
            var r := Process(REAL_CATALOG, o, e, event).1;
            && r.Ok? && |r.value.attempts| == 3
            && r.value.attempts[0].processor == cheap
            && r.value.attempts[1].processor == dear
            && r.value.attempts[2].processor == cheap
  {
    RealCatalogOk();
    RealRivalsAre(event.processor);
    hide Process, UpThroughout, CheapestOf, Rivals, RealRivals, NoHistory, Pool, Classify;
    FailingChainExplores(REAL_CATALOG, o, e, event);
    var attempts := Process(REAL_CATALOG, o, e, event).1.value.attempts;
    var (cheap, dear) := RealRivals(event.processor);
    TwoRivals(REAL_CATALOG, cheap, dear, attempts[0].processor, attempts[1].processor, attempts[2].processor);
  }
}
