/** When things happened: what the times in records, attempts and logs are. */
module Timing {
  import opened Domain
  import Health
  import Ledger
  import opened World
  import opened RetryEngine
  import opened Invariant
  import opened Reachable

  /** The attempts were stamped at these clock readings, one after the other, between the two given. */
  ghost predicate StampedAt(o: Oracle, attempts: seq<RetryAttempt>, ticks: seq<nat>, from: nat, to: nat) {
    && |ticks| == |attempts|
    && (forall i :: 0 <= i < |ticks| ==> from <= ticks[i] < to && attempts[i].timestamp == o.clock(ticks[i]))
    && (forall i, j :: 0 <= i < j < |ticks| ==> ticks[i] < ticks[j])
  }

  /** The record was closed at this time. */
  ghost predicate ClosedAt(tx: Tx, now: int) {
    && tx.updatedAt == now
    && (tx.status == Recovered ==> tx.recoveredAt == Some(now))
  }

  lemma TryTimes(cat: Catalog, o: Oracle, e: Engine, tx: Tx)
    ensures var plan := PlanRetry(cat, o, e, tx.event, tx.classification.strategy);
            && e.tick + 2 <= plan.tick
            && (plan.target.Some? ==>
                  var (e1, tx1) := TryOnce(cat, o, e, tx, plan);
                  && e1.tick == plan.tick + 3 && tx1.retryCount == tx.retryCount + 1
                  && |tx1.attempts| == |tx.attempts| + 1 && tx1.attempts[..|tx.attempts|] == tx.attempts
                  && tx1.attempts[|tx.attempts|].timestamp == o.clock(e.tick))
  {
  }

  /** Every attempt of a chain is stamped with a clock reading taken while it ran, in the order of the
      attempts, and the record is closed at the last reading of all. */
  lemma {:induction false} ChainTimes(cat: Catalog, o: Oracle, e: Engine, tx: Tx) returns (ticks: seq<nat>)
    ensures var (e', tx') := Chain(cat, o, e, tx);
            && e.tick < e'.tick && tx.attempts <= tx'.attempts
            && StampedAt(o, tx'.attempts[|tx.attempts|..], ticks, e.tick, e'.tick - 1)
            && ClosedAt(tx', o.clock(e'.tick - 1))
    decreases MAX_RETRIES - tx.retryCount
  {
    hide PlanRetry, TryOnce;
    TryTimes(cat, o, e, tx);
    var plan := PlanRetry(cat, o, e, tx.event, tx.classification.strategy);
    ticks := [];
    if tx.retryCount < MAX_RETRIES && plan.target.Some? {
      var (e1, tx1) := TryOnce(cat, o, e, tx, plan);
      var rest: seq<nat> := [];
      if !o.coin(e.flip) {
        rest := ChainTimes(cat, o, e1, tx1);
      }
      ticks := [e.tick] + rest;
      var tx' := Chain(cat, o, e, tx).1;
      assert tx'.attempts[|tx.attempts|..] == [tx1.attempts[|tx.attempts|]] + tx'.attempts[|tx1.attempts|..];
    }
  }

  /** The times of a submission that is accepted: its attempts are stamped, in their order, with clock
      readings taken during the call; the record is created at the time of the event, and was last touched
      then too or, if it was retried, at the last clock reading of the call. */
  lemma SubmissionTimes(cat: Catalog, o: Oracle, e: Engine, event: FailureEvent) returns (ticks: seq<nat>)
    requires Usable(cat) && StoreOk(cat, e.store) && event.id !in e.store.txs
    ensures var (e', r) := Process(cat, o, e, event);
            && r.Ok? && event.id in e'.store.txs && e.tick < e'.tick
            && StampedAt(o, r.value.attempts, ticks, e.tick + 1, e'.tick - 1)
            && var tx := e'.store.txs[event.id];
               && tx.attempts == r.value.attempts && tx.createdAt == event.timestamp
               && ClosedAt(tx, if Classify(event).decline == HardDecline then event.timestamp else o.clock(e'.tick - 1))
  {
    var accepted := ProcessAccepts(cat, o, e, event);
    hide Health.Record, StoreOk;
    ticks := [];
    if Classify(event).decline == SoftDecline {
      hide Chain;
      var e1, tx := NoteFailure(o, e, event), NewTx(event);
      var e2 := e1.(store := Ledger.Save(e1.store, tx));
      ticks := ChainTimes(cat, o, e2, tx);
      var (e3, done) := Chain(cat, o, e2, tx);
      assert done.attempts[0..] == done.attempts;
      ChainStores(cat, o, e2, tx);
    }
  }

  /** The chain leaves in the store the record that it returns. */
  lemma {:induction false} ChainStores(cat: Catalog, o: Oracle, e: Engine, tx: Tx)
    requires tx.id in e.store.txs
    ensures var (e', tx') := Chain(cat, o, e, tx);
            tx'.id == tx.id && tx.id in e'.store.txs && e'.store.txs[tx.id] == tx'
    decreases MAX_RETRIES - tx.retryCount
  {
    if tx.retryCount < MAX_RETRIES {
      hide PlanRetry;
      var plan := PlanRetry(cat, o, e, tx.event, tx.classification.strategy);
      if plan.target.Some? && !o.coin(e.flip) {
        var (e1, tx1) := TryOnce(cat, o, e, tx, plan);
        ChainStores(cat, o, e1, tx1);
      }
    }
  }

  /** A report answers NotFound exactly for unknown IDs, and then changes nothing. A success that recovers
      an exhausted record does so at the time of the call; any other leaves the record as it is. */
  lemma ReportTimes(cat: Catalog, o: Oracle, e: Engine, id: Id, p: Processor, success: bool)
    requires StoreOk(cat, e.store)
    ensures var (e', r) := Report(o, e, id, p, success);
            && r == (if id in e.store.txs then Ok(()) else Err(NotFound))
            && (id !in e.store.txs ==> e' == e)
            && (id in e.store.txs ==>
                  && id in e'.store.txs
                  && var tx, now := e.store.txs[id], o.clock(e.tick);
                     e'.store.txs[id] ==
                       if success && tx.status == Exhausted
                       then tx.(status := Recovered, recoveredAt := Some(now), updatedAt := now) else tx)
  {
    if id in e.store.txs {
      assert RecordOk(cat, e.store, id);
      hide Bookkeeping, Health.Record;
    }
  }

  // ---------- every run ----------

  /** All attempts of the record were stamped before the given clock reading, in their order. */
  ghost predicate Stamped(o: Oracle, tx: Tx, to: nat) {
    exists ticks :: StampedAt(o, tx.attempts, ticks, 0, to)
  }

  lemma StampedLater(o: Oracle, tx: Tx, to: nat, tx': Tx, later: nat)
    requires Stamped(o, tx, to) && to <= later && tx'.attempts == tx.attempts
    ensures Stamped(o, tx', later)
  {
    var ticks :| StampedAt(o, tx.attempts, ticks, 0, to);
    assert StampedAt(o, tx'.attempts, ticks, 0, later);
  }

  lemma StepTakesTime(cat: Catalog, o: Oracle, e: Engine, op: Op)
    requires Usable(cat) && StoreOk(cat, e.store)
    ensures e.tick <= Step(cat, o, e, op).tick
  {
    hide Health.Record;
    if op.Submit? && op.event.id !in e.store.txs {
      var ticks := SubmissionTimes(cat, o, e, op.event);
    }
  }

  lemma OnlySubmitsStore(cat: Catalog, o: Oracle, e: Engine, op: Op, id: Id)
    requires Usable(cat) && StoreOk(cat, e.store) && id !in e.store.txs && id in Step(cat, o, e, op).store.txs
    ensures op.Submit? && op.event.id == id
  {
    if op.Submit? && op.event.id !in e.store.txs {
      var accepted := ProcessAccepts(cat, o, e, op.event);
    }
  }

  /** On every reachable store every attempt of every record bears the time of a clock reading that was
      taken before, in the order of the attempts. */
  lemma {:induction false} RecordsAreStamped(cat: Catalog, o: Oracle, ops: seq<Op>, id: Id)
    requires Usable(cat) && id in Run(cat, o, INITIAL, ops).store.txs
    ensures Stamped(o, Run(cat, o, INITIAL, ops).store.txs[id], Run(cat, o, INITIAL, ops).tick)
    decreases |ops|
  {
    hide Stamped, Process, Report, Classify;
    var front, last := ops[..|ops| - 1], ops[|ops| - 1];
    var e := Run(cat, o, INITIAL, front);
    ReachableStoresAreOk(cat, o, front);
    StepTakesTime(cat, o, e, last);
    if id in e.store.txs {
      RecordsAreStamped(cat, o, front, id);
      StepEvolves(cat, o, e, last, id);
      StampedLater(o, e.store.txs[id], e.tick, Run(cat, o, INITIAL, ops).store.txs[id], Run(cat, o, INITIAL, ops).tick);
    } else {
      OnlySubmitsStore(cat, o, e, last, id);
      var ticks := SubmissionTimes(cat, o, e, last.event);
      NewIsStamped(o, Run(cat, o, INITIAL, ops).store.txs[id], ticks, e.tick + 1, Run(cat, o, INITIAL, ops).tick);
    }
  }

  lemma NewIsStamped(o: Oracle, tx: Tx, ticks: seq<nat>, from: nat, to: nat)
    requires to > 0 && StampedAt(o, tx.attempts, ticks, from, to - 1)
    ensures Stamped(o, tx, to)
  {
    assert StampedAt(o, tx.attempts, ticks, 0, to);
  }

  /** Under a clock that does not go back the attempts of a record are in the order of their times. */
  lemma AttemptsAreInOrder(cat: Catalog, o: Oracle, ops: seq<Op>, id: Id, i: nat, j: nat)
    requires Usable(cat) && ClockAdvances(o) && id in Run(cat, o, INITIAL, ops).store.txs
    requires i <= j < |Run(cat, o, INITIAL, ops).store.txs[id].attempts|
    ensures var attempts := Run(cat, o, INITIAL, ops).store.txs[id].attempts;
            attempts[i].timestamp <= attempts[j].timestamp
  {
    RecordsAreStamped(cat, o, ops, id);
    var tx, to := Run(cat, o, INITIAL, ops).store.txs[id], Run(cat, o, INITIAL, ops).tick;
    hide Run;
    var ticks :| StampedAt(o, tx.attempts, ticks, 0, to);
    assert ticks[i] <= ticks[j];
  }
}
