/** What every record looks like between calls, after any sequence of them. */
module Invariant {
  import opened Domain
  import opened Health
  import opened Ledger
  import opened Adaptive
  import opened Selection
  import opened World
  import opened RetryEngine

  /** A catalogue that leaves an alternative to every processor. */
  ghost predicate Usable(cat: Catalog) {
    cat.Ok() && |cat.names| >= 2
  }

  function CostOf(attempts: seq<RetryAttempt>): int {
    if attempts == [] then 0
    else CostOf(attempts[..|attempts| - 1]) + attempts[|attempts| - 1].cost
  }

  /** The decision log that the attempts of a record call for, one entry each. */
  function Audit(tx: Tx): seq<Decision> {
    seq(|tx.attempts|, i requires 0 <= i < |tx.attempts| => DecisionOf(tx, tx.attempts[i]))
  }

  ghost predicate AttemptOk(cat: Catalog, tx: Tx, i: nat)
    requires i < |tx.attempts|
  {
    var a := tx.attempts[i];
    && a.number == i + 1
    && a.cost == cat.Cost(a.processor)
    && a.strategy == tx.classification.strategy
    && a.delay == DelayOf(a.strategy)
    && (i < |tx.attempts| - 1 ==> !a.success)
    && (a.processor == tx.event.processor || a.processor in cat.names)
    && (a.strategy == AlternativeProcessor ==> a.processor != tx.event.processor)
  }

  ghost predicate Bookkeeping(cat: Catalog, tx: Tx) {
    && tx.id == tx.event.id
    && tx.classification == Classify(tx.event)
    && tx.maxRetries == MAX_RETRIES
    && tx.createdAt == tx.event.timestamp
    && tx.retryCount == |tx.attempts| <= MAX_RETRIES
    && tx.totalCost == CostOf(tx.attempts)
    && forall i :: 0 <= i < |tx.attempts| ==> AttemptOk(cat, tx, i)
  }

  ghost predicate LastSucceeded(tx: Tx) {
    tx.attempts != [] && tx.attempts[|tx.attempts| - 1].success
  }

  /** A record that a chain is still working on. */
  ghost predicate Open(cat: Catalog, tx: Tx) {
    && Bookkeeping(cat, tx)
    && tx.classification.decline == SoftDecline
    && tx.status == Retrying && tx.recoveredAt == None
    && !LastSucceeded(tx)
  }

  /** A record between calls: hard-declined exactly for hard codes and then untouched; otherwise
      exhausted after three failures, or recovered by its last attempt or from exhaustion. */
  ghost predicate Settled(cat: Catalog, tx: Tx) {
    && Bookkeeping(cat, tx)
    && (tx.status == HardDeclined <==> tx.classification.decline == HardDecline)
    && match tx.status
       case HardDeclined => tx.attempts == [] && tx.totalCost == 0 && tx.recoveredAt == None
       case Exhausted => |tx.attempts| == MAX_RETRIES && !LastSucceeded(tx) && tx.recoveredAt == None
       case Recovered => (LastSucceeded(tx) || |tx.attempts| == MAX_RETRIES) && tx.recoveredAt.Some?
       case _ => false
  }

  /** What every stored record is, with calls in flight or not. */
  ghost predicate Booked(cat: Catalog, tx: Tx) {
    && Bookkeeping(cat, tx)
    && (tx.status == HardDeclined <==> tx.classification.decline == HardDecline)
    && (tx.status == HardDeclined ==> tx.attempts == [])
  }

  ghost predicate StoreOk(cat: Catalog, s: Store) {
    && Enumerated(s)
    && s.logs.Keys <= s.txs.Keys
    && forall id <- s.txs :: RecordOk(cat, s, id)
  }

  ghost predicate RecordOk(cat: Catalog, s: Store, id: Id)
    requires id in s.txs
  {
    s.txs[id].id == id && Settled(cat, s.txs[id]) && LogOf(s, id) == Audit(s.txs[id])
  }

  // ---------- planning never gives up ----------

  lemma {:induction false} OthersAre(names: seq<Processor>, exclude: Processor)
    ensures forall p :: p in Others(names, exclude) <==> p in names && p != exclude
    ensures (forall i, j :: 0 <= i < j < |names| ==> names[i] != names[j]) ==>
              var others := Others(names, exclude);
              && (forall i, j :: 0 <= i < j < |others| ==> others[i] != others[j])
              && |others| == |names| - if exclude in names then 1 else 0
  {
    if names != [] {
      var front, last := names[..|names| - 1], names[|names| - 1];
      OthersAre(front, exclude);
      assert names == front + [last];
      if forall i, j :: 0 <= i < j < |names| ==> names[i] != names[j] {
        assert forall i :: 0 <= i < |front| ==> front[i] == names[i] && names[i] != last;
        assert last !in front;
      }
    }
  }

  lemma AlternativesOk(cat: Catalog, o: Oracle, e: Engine, event: FailureEvent)
    requires Usable(cat)
    ensures var readings := Alternatives(cat, o, e, event);
            && readings != [] && ReadingsOk(cat, readings)
            && forall i :: 0 <= i < |readings| ==> readings[i].name != event.processor
  {
    OthersAre(cat.names, event.processor);
    var others, readings := Others(cat.names, event.processor), Alternatives(cat, o, e, event);
    assert forall i :: 0 <= i < |readings| ==> readings[i].name == others[i] && others[i] in others;
  }

  lemma AlternativeIsRead(cat: Catalog, o: Oracle, e: Engine, event: FailureEvent, p: Processor) returns (k: nat)
    requires Usable(cat) && p in cat.names && p != event.processor
    ensures k < |Alternatives(cat, o, e, event)| && Alternatives(cat, o, e, event)[k].name == p
  {
    OthersAre(cat.names, event.processor);
    var others := Others(cat.names, event.processor);
    k :| 0 <= k < |others| && others[k] == p;
  }

  /** What planning reads of the k-th alternative: its health at a clock reading of its own, and its
      learned rate as of now. */
  lemma AlternativesAreRead(cat: Catalog, o: Oracle, e: Engine, event: FailureEvent, k: nat)
    requires k < |Others(cat.names, event.processor)|
    ensures k < |Alternatives(cat, o, e, event)|
    ensures var r, p := Alternatives(cat, o, e, event)[k], Others(cat.names, event.processor)[k];
            && r.name == p
            && r.state == SnapshotOf(e.windows, p, o.clock(e.tick + 2 + k)).state
            && r.failureRate == SnapshotOf(e.windows, p, o.clock(e.tick + 2 + k)).failureRate
            && r.adaptiveRate == Rate(e.weights, event.code, p)
  {
  }

  /** Routing: a plan always has a target. With an alternative asked for, or the original DOWN when it is
      read, the target is another processor of the catalogue, chosen from what is read of them; otherwise
      it is the original. */
  lemma PlanAlwaysRoutes(cat: Catalog, o: Oracle, e: Engine, event: FailureEvent, strategy: Strategy)
    requires Usable(cat) && strategy != DoNotRetry
    ensures var plan := PlanRetry(cat, o, e, event, strategy);
            plan.target.Some? &&
            if strategy == AlternativeProcessor
               || SnapshotOf(e.windows, event.processor, o.clock(e.tick + 1)).state == Down
            then
              var readings := Alternatives(cat, o, e, event);
              && plan.target.value in cat.names && plan.target.value != event.processor
              && exists k :: 0 <= k < |readings| && readings[k].name == plan.target.value
                             && IsChoice(cat, readings, k)
            else plan.target.value == event.processor
  {
    AlternativesOk(cat, o, e, event);
    var k := ChoiceExists(cat, Alternatives(cat, o, e, event));
  }

  /** The k-th other processor is better than the j-th, by health and learned success as planning finds
      them: both are read at clock readings of their own. */
  ghost predicate Preferred(cat: Catalog, o: Oracle, e: Engine, event: FailureEvent, k: nat, j: nat)
    requires k < |Others(cat.names, event.processor)| && j < |Others(cat.names, event.processor)|
  {
    var others, code := Others(cat.names, event.processor), event.code;
    var p, q := others[k], others[j];
    var cheaper := cat.Cost(p) < cat.Cost(q);
    var qDown := SnapshotOf(e.windows, q, o.clock(e.tick + 2 + j)).state == Down;
    if SnapshotOf(e.windows, p, o.clock(e.tick + 2 + k)).state == Down then qDown && cheaper
    else qDown || Rate(e.weights, code, p) > Rate(e.weights, code, q)
         || (Rate(e.weights, code, p) == Rate(e.weights, code, q) && cheaper)
  }

  /** Routing by health: when an alternative is needed the target is the one processor that is preferred
      to all others but the original. */
  lemma RoutesByHealth(cat: Catalog, o: Oracle, e: Engine, event: FailureEvent, strategy: Strategy, k: nat)
    requires Usable(cat) && strategy != DoNotRetry && k < |Others(cat.names, event.processor)|
    requires strategy == AlternativeProcessor
             || SnapshotOf(e.windows, event.processor, o.clock(e.tick + 1)).state == Down
    ensures PlanRetry(cat, o, e, event, strategy).target == Some(Others(cat.names, event.processor)[k]) <==>
              forall j :: 0 <= j < |Others(cat.names, event.processor)| && j != k ==> Preferred(cat, o, e, event, k, j)
  {
    hide SnapshotOf, Choose, Others, Rate;
    AlternativesOk(cat, o, e, event);
    var readings, others := Alternatives(cat, o, e, event), Others(cat.names, event.processor);
    assert |readings| == |others|;
    assert PlanRetry(cat, o, e, event, strategy).target == Choose(cat, readings);
    ChooseIsTheChoice(cat, readings, k);
    AlternativesAreRead(cat, o, e, event, k);
    hide PlanRetry, Alternatives;
    forall j | 0 <= j < |others|
      ensures Outranks(cat, readings[k], readings[j]) <==> Preferred(cat, o, e, event, k, j)
    {
      AlternativesAreRead(cat, o, e, event, j);
    }
  }

  lemma DownTargetMeansAllDown(cat: Catalog, o: Oracle, e: Engine, event: FailureEvent, strategy: Strategy, r: Reading)
    requires Usable(cat) && strategy != DoNotRetry
    requires r in Alternatives(cat, o, e, event) && r.state == Down
    requires strategy == AlternativeProcessor
             || SnapshotOf(e.windows, event.processor, o.clock(e.tick + 1)).state == Down
    ensures PlanRetry(cat, o, e, event, strategy).target == Some(r.name) <==>
              forall s <- Alternatives(cat, o, e, event) ::
                s.state == Down && (s.name == r.name || cat.Cost(r.name) < cat.Cost(s.name))
  {
    AlternativesOk(cat, o, e, event);
    var readings := Alternatives(cat, o, e, event);
    var k :| 0 <= k < |readings| && readings[k] == r;
    ChooseIsTheChoice(cat, readings, k);
    if IsChoice(cat, readings, k) {
      forall s <- readings ensures s.state == Down && (s.name == r.name || cat.Cost(r.name) < cat.Cost(s.name)) {
        var j :| 0 <= j < |readings| && readings[j] == s;
        assert j == k || Outranks(cat, r, readings[j]);
      }
    }
  }

  // ---------- the chain ----------

  /** Adding an attempt that was planned for this record keeps its books. */
  lemma AttemptKeepsBooks(cat: Catalog, tx: Tx, plan: Plan, target: Processor, success: bool, now: int)
    requires Bookkeeping(cat, tx) && tx.retryCount < MAX_RETRIES && !LastSucceeded(tx)
    requires plan.delay == DelayOf(tx.classification.strategy)
    requires target == tx.event.processor || target in cat.names
    requires tx.classification.strategy == AlternativeProcessor ==> target != tx.event.processor
    ensures var a := AttemptOf(cat, tx, plan, target, success);
            var tx1 := WithAttempt(tx, a, now);
            Bookkeeping(cat, tx1) && Audit(tx1) == Audit(tx) + [DecisionOf(tx, a)]
  {
    var tx1 := WithAttempt(tx, AttemptOf(cat, tx, plan, target, success), now);
    assert tx1.attempts[..|tx1.attempts| - 1] == tx.attempts;
    forall i | 0 <= i < |tx1.attempts| ensures AttemptOk(cat, tx1, i) {
      if i < |tx.attempts| {
        assert AttemptOk(cat, tx, i);
      }
    }
  }

  lemma TryKeepsOpen(cat: Catalog, o: Oracle, e: Engine, tx: Tx)
    requires Usable(cat) && Open(cat, tx) && tx.retryCount < MAX_RETRIES
    ensures var plan := PlanRetry(cat, o, e, tx.event, tx.classification.strategy);
            && plan.target.Some?
            && var (e1, tx1) := TryOnce(cat, o, e, tx, plan);
               && Bookkeeping(cat, tx1)
               && Audit(tx1) == Audit(tx) + [DecisionOf(tx, tx1.attempts[tx.retryCount])]
               && tx1.attempts == tx.attempts + [tx1.attempts[tx.retryCount]]
               && tx1.attempts[tx.retryCount].success == o.coin(e.flip)
  {
    PlanAlwaysRoutes(cat, o, e, tx.event, tx.classification.strategy);
    hide Choose, Alternatives, OriginState, Record, Learn, AttemptOk, CostOf;
    var plan := PlanRetry(cat, o, e, tx.event, tx.classification.strategy);
    AttemptKeepsBooks(cat, tx, plan, plan.target.value, o.coin(e.flip), o.clock(plan.tick + 1));
  }

  /** What a chain leaves behind: only its own record and log change, the record is settled, its
      attempts extend those it started with, the log mirrors them, and RECOVERED means that the last
      attempt succeeded. */
  ghost predicate ChainLeaves(cat: Catalog, e: Engine, tx: Tx, e': Engine, tx': Tx) {
    && Settled(cat, tx') && tx'.event == tx.event && tx'.id == tx.id
    && tx.attempts <= tx'.attempts && tx'.attempts != []
    && (tx'.status == Recovered <==> LastSucceeded(tx'))
    && e'.store == Store(e.store.txs[tx.id := tx'], e.store.logs[tx.id := Audit(tx')], e.store.order)
    && e'.weights == LearnAll(e.weights, Lessons(tx.event.code, tx'.attempts[|tx.attempts|..]))
  }

  function Lessons(code: Code, attempts: seq<RetryAttempt>): seq<Lesson> {
    seq(|attempts|, i requires 0 <= i < |attempts| => Lesson(code, attempts[i].processor, attempts[i].success))
  }

  lemma CloseKeepsBooks(cat: Catalog, tx: Tx, recovered: bool, now: int)
    requires Bookkeeping(cat, tx)
    ensures var closed := Close(tx, recovered, now);
            Bookkeeping(cat, closed) && Audit(closed) == Audit(tx)
  {
    var closed := Close(tx, recovered, now);
    forall i | 0 <= i < |closed.attempts| ensures AttemptOk(cat, closed, i) {
      assert AttemptOk(cat, tx, i);
    }
    assert Audit(closed) == Audit(tx);
  }

  lemma FinishLeaves(cat: Catalog, o: Oracle, e: Engine, tx: Tx, recovered: bool)
    requires Bookkeeping(cat, tx) && tx.classification.decline == SoftDecline && tx.recoveredAt == None
    requires tx.attempts != [] && (recovered <==> LastSucceeded(tx))
    requires !recovered ==> |tx.attempts| == MAX_RETRIES
    requires tx.id in e.store.txs && LogOf(e.store, tx.id) == Audit(tx)
    ensures var (e', tx') := Finish(o, e, tx, recovered); ChainLeaves(cat, e, tx, e', tx')
  {
    CloseKeepsBooks(cat, tx, recovered, o.clock(e.tick));
    var (e', tx') := Finish(o, e, tx, recovered);
    assert tx.id in e.store.logs;
    assert e.store.logs == e.store.logs[tx.id := Audit(tx')];
    assert tx'.attempts[|tx.attempts|..] == [];
  }

  /** What a chain leaves when its first attempt is followed by one that leaves this. */
  lemma AttemptThenLeaves(cat: Catalog, o: Oracle, e: Engine, tx: Tx, plan: Plan, e': Engine, tx': Tx)
    requires plan.target.Some? && tx.retryCount == |tx.attempts|
    requires var (e1, tx1) := TryOnce(cat, o, e, tx, plan); ChainLeaves(cat, e1, tx1, e', tx')
    ensures ChainLeaves(cat, e, tx, e', tx')
  {
    hide Settled, Audit, Record, Learn, LearnAll, PlanRetry;
    var (e1, tx1) := TryOnce(cat, o, e, tx, plan);
    var a := tx1.attempts[|tx.attempts|];
    var code, rest := tx.event.code, tx'.attempts[|tx1.attempts|..];
    assert tx1.attempts == tx.attempts + [a];
    assert tx'.attempts == tx1.attempts + rest;
    assert tx'.attempts[|tx.attempts|..] == [a] + rest;
    var first := Lesson(code, a.processor, a.success);
    assert Lessons(code, [a] + rest) == [first] + Lessons(code, rest);
    LearnOne(e.weights, first);
    LearnAllConcat(e.weights, [first], Lessons(code, rest));
  }

  lemma {:induction false} ChainSettles(cat: Catalog, o: Oracle, e: Engine, tx: Tx)
    requires Usable(cat) && Open(cat, tx) && tx.id in e.store.txs
    requires LogOf(e.store, tx.id) == Audit(tx)
    ensures var (e', tx') := Chain(cat, o, e, tx); ChainLeaves(cat, e, tx, e', tx')
    decreases MAX_RETRIES - tx.retryCount
  {
    if tx.retryCount >= MAX_RETRIES {
      FinishLeaves(cat, o, e, tx, false);
    } else {
      TryKeepsOpen(cat, o, e, tx);
      var plan := PlanRetry(cat, o, e, tx.event, tx.classification.strategy);
      var (e1, tx1) := TryOnce(cat, o, e, tx, plan);
      if o.coin(e.flip) {
        FinishLeaves(cat, o, e1, tx1, true);
      } else {
        ChainSettles(cat, o, e1, tx1);
      }
      var (e', tx') := Chain(cat, o, e, tx);
      AttemptThenLeaves(cat, o, e, tx, plan, e', tx');
    }
  }
}
