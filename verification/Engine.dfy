/** The retry engine as a state machine: one step per completed call, for every clock and every
    outcome of the simulated retries. */
module RetryEngine {
  import opened Domain
  import opened Health
  import opened Ledger
  import Adaptive
  import Selection
  import opened World

  datatype Engine = Engine(windows: Windows, store: Store, weights: Adaptive.Weights, tick: nat, flip: nat)

  const INITIAL: Engine := Engine(map[], EMPTY, map[], 0, 0)

  // ---------- planning ----------

  /** The catalogue without the original processor, in catalogue order. */
  function Others(names: seq<Processor>, exclude: Processor): seq<Processor> {
    if names == [] then []
    else
      var front, last := Others(names[..|names| - 1], exclude), names[|names| - 1];
      if last == exclude then front else front + [last]
  }

  function ReadOne(o: Oracle, e: Engine, code: Code, p: Processor, tick: nat): Selection.Reading {
    var s := SnapshotOf(e.windows, p, o.clock(tick));
    Selection.Reading(p, s.state, s.failureRate, Adaptive.Rate(e.weights, code, p))
  }

  /** Each processor is read at its own clock reading, in order. */
  function ReadAll(o: Oracle, e: Engine, code: Code, others: seq<Processor>, tick: nat): seq<Selection.Reading> {
    seq(|others|, i requires 0 <= i < |others| => ReadOne(o, e, code, others[i], tick + i))
  }

  function DelayOf(strategy: Strategy): int {
    if strategy == Delayed then DELAY_SECONDS else 0
  }

  predicate NeedsAlternative(strategy: Strategy, origin: HealthState) {
    strategy == AlternativeProcessor || (strategy in {Immediate, Delayed} && origin == Down)
  }

  /** Without an alternative the original processor is tried again. A classification that forbids
      retries has no target at all: the empty name stays. */
  function Direct(strategy: Strategy, source: Processor): Processor {
    if strategy == DoNotRetry then OtherProcessor("") else source
  }

  datatype Plan = Plan(target: Option<Processor>, delay: int, stamp: int, tick: nat)

  /** The readings that selecting an alternative takes: the first two of a plan are the attempt's
      own timestamp and the original processor's health. */
  function Alternatives(cat: Catalog, o: Oracle, e: Engine, event: FailureEvent): seq<Selection.Reading> {
    ReadAll(o, e, event.code, Others(cat.names, event.processor), e.tick + 2)
  }

  function OriginState(o: Oracle, e: Engine, event: FailureEvent): HealthState {
    SnapshotOf(e.windows, event.processor, o.clock(e.tick + 1)).state
  }

  function PlanRetry(cat: Catalog, o: Oracle, e: Engine, event: FailureEvent, strategy: Strategy): Plan {
    var stamp, delay := o.clock(e.tick), DelayOf(strategy);
    if NeedsAlternative(strategy, OriginState(o, e, event)) then
      var readings := Alternatives(cat, o, e, event);
      var target := Selection.Choose(cat, readings);
      Plan(target, delay, stamp, e.tick + 2 + |readings| + if target.Some? then 1 else 0)
    else
      Plan(Some(Direct(strategy, event.processor)), delay, stamp, e.tick + 2)
  }

  // ---------- the retry chain ----------

  function AttemptOf(cat: Catalog, tx: Tx, plan: Plan, target: Processor, success: bool): RetryAttempt {
    RetryAttempt(tx.retryCount + 1, target, tx.classification.strategy, success,
                 cat.Cost(target), plan.delay, plan.stamp)
  }

  function DecisionOf(tx: Tx, a: RetryAttempt): Decision {
    Decision(tx.id, a.number, tx.event.processor, a.processor, a.strategy, a.delay, a.timestamp)
  }

  function WithAttempt(tx: Tx, a: RetryAttempt, now: int): Tx {
    tx.(attempts := tx.attempts + [a], retryCount := tx.retryCount + 1,
        totalCost := tx.totalCost + a.cost, updatedAt := now)
  }

  /** Simulate, append to the private record, then record health, learn and log. */
  function TryOnce(cat: Catalog, o: Oracle, e: Engine, tx: Tx, plan: Plan): (Engine, Tx)
    requires plan.target.Some?
  {
    var target, success := plan.target.value, o.coin(e.flip);
    var a := AttemptOf(cat, tx, plan, target, success);
    (Engine(Record(e.windows, target, success, a.timestamp, o.clock(plan.tick + 2)),
            Log(e.store, DecisionOf(tx, a)),
            Adaptive.Learn(e.weights, tx.event.code, target, success),
            plan.tick + 3, e.flip + 1),
     WithAttempt(tx, a, o.clock(plan.tick + 1)))
  }

  function Close(tx: Tx, recovered: bool, now: int): Tx {
    if recovered then tx.(status := Recovered, recoveredAt := Some(now), updatedAt := now)
    else tx.(status := Exhausted, updatedAt := now)
  }

  function Finish(o: Oracle, e: Engine, tx: Tx, recovered: bool): (Engine, Tx) {
    var closed := Close(tx, recovered, o.clock(e.tick));
    (e.(store := Update(e.store, closed), tick := e.tick + 1), closed)
  }

  function Chain(cat: Catalog, o: Oracle, e: Engine, tx: Tx): (Engine, Tx)
    decreases MAX_RETRIES - tx.retryCount
  {
    if tx.retryCount >= MAX_RETRIES then Finish(o, e, tx, false)
    else
      var plan := PlanRetry(cat, o, e, tx.event, tx.classification.strategy);
      if plan.target.None? then Finish(o, e.(tick := plan.tick), tx, false)
      else
        var (e1, tx1) := TryOnce(cat, o, e, tx, plan);
        if o.coin(e.flip) then Finish(o, e1, tx1, true) else Chain(cat, o, e1, tx1)
  }

  // ---------- the calls ----------

  datatype Processed = Processed(
    id: Id, classification: Classification, shouldRetry: bool,
    attempts: seq<RetryAttempt>, finalStatus: Status, totalCost: int)

  function NewTx(event: FailureEvent): Tx {
    var c := Classify(event);
    Tx(event.id, event, c, if c.decline == HardDecline then HardDeclined else Retrying,
       0, MAX_RETRIES, [], 0, event.timestamp, event.timestamp, None)
  }

  function NoteFailure(o: Oracle, e: Engine, event: FailureEvent): Engine {
    e.(windows := Record(e.windows, event.processor, false, event.timestamp, o.clock(e.tick)), tick := e.tick + 1)
  }

  /** What follows once the failure is noted: reject a duplicate, else store, else retry. */
  function Admit(cat: Catalog, o: Oracle, e: Engine, event: FailureEvent): (Engine, Result<Processed>) {
    var tx := NewTx(event);
    if event.id in e.store.txs then (e, Err(DuplicateId))
    else
      var e2 := e.(store := Save(e.store, tx));
      if tx.classification.decline == HardDecline then
        (e2, Ok(Processed(event.id, tx.classification, false, [], HardDeclined, 0)))
      else
        var (e3, done) := Chain(cat, o, e2, tx);
        (e3, Ok(Processed(event.id, tx.classification, true, done.attempts, done.status, done.totalCost)))
  }

  function Process(cat: Catalog, o: Oracle, e: Engine, event: FailureEvent): (Engine, Result<Processed>) {
    Admit(cat, o, NoteFailure(o, e, event), event)
  }

  /** What an external report does to a record: a success recovers it if it was still open or given up. */
  function Reported(tx: Tx, success: bool, now: int): Tx {
    if success && (tx.status == Retrying || tx.status == Exhausted) then Close(tx, true, now) else tx
  }

  /** What follows once the record is fetched: note the outcome, learn, write the copy back. */
  function ReportOn(o: Oracle, e: Engine, tx: Tx, p: Processor, success: bool): (Engine, Result<()>) {
    var now := o.clock(e.tick);
    (Engine(Record(e.windows, p, success, now, o.clock(e.tick + 1)),
            Update(e.store, Reported(tx, success, now)),
            Adaptive.Learn(e.weights, tx.event.code, p, success),
            e.tick + 2, e.flip),
     if tx.id in e.store.txs then Ok(()) else Err(NotFound))
  }

  function Report(o: Oracle, e: Engine, id: Id, p: Processor, success: bool): (Engine, Result<()>) {
    if id !in e.store.txs then (e, Err(NotFound)) else ReportOn(o, e, e.store.txs[id], p, success)
  }

  /** Clears the store and the health windows; what was learned stays. */
  function Reset(e: Engine): Engine {
    e.(store := EMPTY, windows := map[])
  }

  /** A completed call. A query changes nothing but takes some clock readings. */
  datatype Op =
    | Submit(event: FailureEvent)
    | ReportOutcome(id: Id, processor: Processor, success: bool)
    | Query(readings: nat)
    | ResetAll

  function Step(cat: Catalog, o: Oracle, e: Engine, op: Op): Engine {
    match op
    case Submit(event) => Process(cat, o, e, event).0
    case ReportOutcome(id, p, success) => Report(o, e, id, p, success).0
    case Query(readings) => e.(tick := e.tick + readings)
    case ResetAll => Reset(e)
  }

  /** The state after a sequence of completed calls. */
  function Run(cat: Catalog, o: Oracle, e: Engine, ops: seq<Op>): Engine {
    if ops == [] then e
    else Step(cat, o, Run(cat, o, e, ops[..|ops| - 1]), ops[|ops| - 1])
  }
}
