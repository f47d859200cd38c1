/** Runs of completed calls: the store invariant, the status lifecycle, and why a record is RECOVERED. */
module Reachable {
  import opened Domain
  import Health
  import opened Ledger
  import Adaptive
  import opened World
  import opened RetryEngine
  import opened Invariant

  // ---------- one call ----------

  /** What accepting an event leaves: one new settled record at the end of the order, logged in
      full, reported to the caller as stored, with exactly its attempts learned from. */
  ghost predicate Accepted(cat: Catalog, e: Engine, event: FailureEvent, e': Engine, r: Processed, tx: Tx) {
    && Settled(cat, tx) && tx.event == event
    && (tx.status == Recovered <==> LastSucceeded(tx))
    && e'.store.txs == e.store.txs[event.id := tx]
    && e'.store.order == e.store.order + [event.id]
    && e'.store.logs == (if tx.attempts == [] then e.store.logs else e.store.logs[event.id := Audit(tx)])
    && e'.weights == Adaptive.LearnAll(e.weights, Lessons(event.code, tx.attempts))
    && r == Processed(event.id, tx.classification, tx.classification.decline == SoftDecline,
                      tx.attempts, tx.status, tx.totalCost)
  }

  lemma HardDeclineAccepted(cat: Catalog, o: Oracle, e: Engine, event: FailureEvent)
    requires event.id !in e.store.txs && Classify(event).decline == HardDecline
    ensures var (e', r) := Process(cat, o, e, event);
            r.Ok? && Accepted(cat, e, event, e', r.value, NewTx(event))
  {
    assert Lessons(event.code, []) == [];
  }

  lemma SoftDeclineAccepted(cat: Catalog, o: Oracle, e: Engine, event: FailureEvent)
    requires Usable(cat) && event.id !in e.store.txs && event.id !in e.store.logs
    requires Classify(event).decline == SoftDecline
    ensures var (e', r) := Process(cat, o, e, event);
            && r.Ok? && event.id in e'.store.txs
            && Accepted(cat, e, event, e', r.value, e'.store.txs[event.id])
  {
    hide Chain, AttemptOk, Health.Record, Adaptive.LearnAll;
    var e1, tx := NoteFailure(o, e, event), NewTx(event);
    var e2 := e1.(store := Save(e1.store, tx));
    assert LogOf(e2.store, tx.id) == [] == Audit(tx);
    ChainSettles(cat, o, e2, tx);
    hide Audit;
    var (e3, done) := Chain(cat, o, e2, tx);
    assert done.attempts[0..] == done.attempts;
    assert e3.store.txs == e.store.txs[event.id := done];
  }

  lemma ProcessAccepts(cat: Catalog, o: Oracle, e: Engine, event: FailureEvent) returns (tx: Tx)
    requires Usable(cat) && StoreOk(cat, e.store) && event.id !in e.store.txs
    ensures var (e', r) := Process(cat, o, e, event);
            r.Ok? && Accepted(cat, e, event, e', r.value, tx)
  {
    if Classify(event).decline == HardDecline {
      HardDeclineAccepted(cat, o, e, event);
      tx := NewTx(event);
    } else {
      SoftDeclineAccepted(cat, o, e, event);
      tx := Process(cat, o, e, event).0.store.txs[event.id];
    }
  }

  lemma AcceptedKeepsStore(cat: Catalog, e: Engine, event: FailureEvent, e': Engine, r: Processed, tx: Tx)
    requires StoreOk(cat, e.store) && event.id !in e.store.txs
    requires Accepted(cat, e, event, e', r, tx)
    ensures StoreOk(cat, e'.store)
  {
    SaveKeepsEnumeration(e.store, tx);
    assert Save(e.store, tx).txs == e'.store.txs;
    forall id <- e'.store.txs ensures RecordOk(cat, e'.store, id) {
      if id != event.id {
        assert RecordOk(cat, e.store, id);
      } else {
        assert LogOf(e'.store, id) == Audit(tx);
      }
    }
  }

  /** A reported record keeps its books; only an exhausted one changes, by recovering. */
  lemma ReportedIsSettled(cat: Catalog, tx: Tx, success: bool, now: int)
    requires Settled(cat, tx)
    ensures var tx' := Reported(tx, success, now);
            && Settled(cat, tx') && Audit(tx') == Audit(tx)
            && tx' == if success && tx.status == Exhausted then Close(tx, true, now) else tx
  {
    CloseKeepsBooks(cat, tx, true, now);
  }

  lemma ReportKeepsStore(cat: Catalog, s: Store, tx: Tx, success: bool, now: int)
    requires StoreOk(cat, s) && tx.id in s.txs && tx == s.txs[tx.id]
    ensures StoreOk(cat, Update(s, Reported(tx, success, now)))
  {
    assert RecordOk(cat, s, tx.id);
    ReportedIsSettled(cat, tx, success, now);
    var tx' := Reported(tx, success, now);
    UpdateKeepsEnumeration(s, tx');
    forall k <- s.txs ensures RecordOk(cat, Update(s, tx'), k) {
      assert RecordOk(cat, s, k);
    }
  }

  lemma StepKeepsStore(cat: Catalog, o: Oracle, e: Engine, op: Op)
    requires Usable(cat) && StoreOk(cat, e.store)
    ensures StoreOk(cat, Step(cat, o, e, op).store)
  {
    match op
    case Submit(event) =>
      if event.id !in e.store.txs {
        var tx := ProcessAccepts(cat, o, e, event);
        var (e', r) := Process(cat, o, e, event);
        AcceptedKeepsStore(cat, e, event, e', r.value, tx);
      }
    case ReportOutcome(id, p, success) =>
      if id in e.store.txs {
        assert RecordOk(cat, e.store, id);
        ReportKeepsStore(cat, e.store, e.store.txs[id], success, o.clock(e.tick));
      }
    case Query(_) =>
    case ResetAll =>
  }

  // ---------- every run ----------

  /** Reachable-state invariant: after any calls, for any clock and any retry outcomes, every record
      is settled and mirrored one for one by its decision log. */
  lemma {:induction false} ReachableStoresAreOk(cat: Catalog, o: Oracle, ops: seq<Op>)
    requires Usable(cat)
    ensures StoreOk(cat, Run(cat, o, INITIAL, ops).store)
  {
    if ops != [] {
      ReachableStoresAreOk(cat, o, ops[..|ops| - 1]);
      StepKeepsStore(cat, o, Run(cat, o, INITIAL, ops[..|ops| - 1]), ops[|ops| - 1]);
    }
  }

  /** The decision log of every record, entry by entry. */
  lemma LogsMirrorAttempts(cat: Catalog, o: Oracle, ops: seq<Op>, id: Id)
    requires Usable(cat) && id in Run(cat, o, INITIAL, ops).store.txs
    ensures var s := Run(cat, o, INITIAL, ops).store;
            var tx, log := s.txs[id], LogOf(s, id);
            && |log| == |tx.attempts|
            && forall i :: 0 <= i < |log| ==>
                 && log[i].id == id && log[i].number == i + 1
                 && log[i].source == tx.event.processor && log[i].target == tx.attempts[i].processor
                 && log[i].strategy == tx.classification.strategy == tx.attempts[i].strategy
                 && log[i].delay == tx.attempts[i].delay && log[i].timestamp == tx.attempts[i].timestamp
  {
    ReachableStoresAreOk(cat, o, ops);
    var tx := Run(cat, o, INITIAL, ops).store.txs[id];
    assert RecordOk(cat, Run(cat, o, INITIAL, ops).store, id);
    hide Run, StoreOk, RecordOk, LogOf;
    forall i | 0 <= i < |tx.attempts|
      ensures tx.attempts[i].number == i + 1 && tx.attempts[i].strategy == tx.classification.strategy
    {
      assert AttemptOk(cat, tx, i);
    }
  }

  /** What the attempts of a record are, by its code: only RATE_LIMIT_EXCEEDED waits, 30 seconds each time;
      the codes that ask for another processor never use the original; each attempt costs the price of its
      processor. */
  lemma AttemptsFollowCode(cat: Catalog, o: Oracle, ops: seq<Op>, id: Id, i: nat)
    requires Usable(cat) && id in Run(cat, o, INITIAL, ops).store.txs
    requires i < |Run(cat, o, INITIAL, ops).store.txs[id].attempts|
    ensures var tx := Run(cat, o, INITIAL, ops).store.txs[id];
            var a, code := tx.attempts[i], tx.event.code;
            && a.number == i + 1 && a.cost == (if a.processor in cat.costs then cat.costs[a.processor] else 0)
            && a.delay == (if code == RateLimitExceeded then 30 else 0)
            && a.strategy == (if code == RateLimitExceeded then Delayed
                              else if code in {IssuerUnavailable, DoNotHonor} then AlternativeProcessor
                              else Immediate)
            && (code in {IssuerUnavailable, DoNotHonor} ==> a.processor != tx.event.processor)
            && (a.processor == tx.event.processor || a.processor in cat.names)
  {
    ReachableStoresAreOk(cat, o, ops);
    assert RecordOk(cat, Run(cat, o, INITIAL, ops).store, id);
    var tx := Run(cat, o, INITIAL, ops).store.txs[id];
    hide Run, StoreOk;
    assert AttemptOk(cat, tx, i);
  }

  /** The only change a stored record can undergo. */
  ghost predicate Evolves(tx: Tx, tx': Tx) {
    tx' == tx ||
    (tx.status == Exhausted && tx'.status == Recovered
     && tx' == tx.(status := Recovered, recoveredAt := tx'.recoveredAt, updatedAt := tx'.updatedAt))
  }

  /** A call that is no reset keeps the record and its log; it changes the record exactly when it is
      an external success report for that ID and the record is EXHAUSTED. */
  lemma StepEvolves(cat: Catalog, o: Oracle, e: Engine, op: Op, id: Id)
    requires Usable(cat) && StoreOk(cat, e.store) && id in e.store.txs && op != ResetAll
    ensures var s' := Step(cat, o, e, op).store;
            && id in s'.txs && Evolves(e.store.txs[id], s'.txs[id]) && LogOf(s', id) == LogOf(e.store, id)
            && (s'.txs[id] != e.store.txs[id] <==>
                e.store.txs[id].status == Exhausted && op.ReportOutcome? && op.id == id && op.success)
  {
    assert RecordOk(cat, e.store, id);
    match op
    case Submit(event) => SubmitKeepsRecord(cat, o, e, event, id);
    case ReportOutcome(k, p, success) =>
      if k in e.store.txs {
        assert RecordOk(cat, e.store, k);
        ReportedIsSettled(cat, e.store.txs[k], success, o.clock(e.tick));
      }
    case Query(_) =>
  }

  lemma SubmitKeepsRecord(cat: Catalog, o: Oracle, e: Engine, event: FailureEvent, id: Id)
    requires Usable(cat) && StoreOk(cat, e.store) && id in e.store.txs
    ensures var s' := Process(cat, o, e, event).0.store;
            id in s'.txs && s'.txs[id] == e.store.txs[id] && LogOf(s', id) == LogOf(e.store, id)
  {
    if event.id !in e.store.txs {
      var tx := ProcessAccepts(cat, o, e, event);
    }
  }

  /** Status lifecycle: until a reset, RECOVERED and HARD_DECLINED records never change again and
      EXHAUSTED ones can only become RECOVERED, with attempts, cost, count and log as they were. */
  lemma {:induction false} RecordsOnlyEvolve(cat: Catalog, o: Oracle, e: Engine, ops: seq<Op>, id: Id)
    requires Usable(cat) && StoreOk(cat, e.store) && id in e.store.txs && ResetAll !in ops
    ensures var s' := Run(cat, o, e, ops).store;
            StoreOk(cat, s') && id in s'.txs && Evolves(e.store.txs[id], s'.txs[id])
                && LogOf(s', id) == LogOf(e.store, id)
  {
    if ops != [] {
      var front, last := ops[..|ops| - 1], ops[|ops| - 1];
      RecordsOnlyEvolve(cat, o, e, front, id);
      StepKeepsStore(cat, o, Run(cat, o, e, front), last);
      StepEvolves(cat, o, Run(cat, o, e, front), last, id);
    }
  }

  /** The IDs that were reported successful from outside while stored, since the last reset. */
  ghost function Confirmed(cat: Catalog, o: Oracle, ops: seq<Op>): set<Id> {
    if ops == [] then {}
    else
      var front := ops[..|ops| - 1];
      match ops[|ops| - 1]
      case ReportOutcome(id, _, success) =>
        Confirmed(cat, o, front) + if success && id in Run(cat, o, INITIAL, front).store.txs then {id} else {}
      case ResetAll => {}
      case _ => Confirmed(cat, o, front)
  }

  lemma {:induction false} ConfirmedAreStored(cat: Catalog, o: Oracle, ops: seq<Op>)
    requires Usable(cat)
    ensures Confirmed(cat, o, ops) <= Run(cat, o, INITIAL, ops).store.txs.Keys
  {
    if ops != [] {
      var front, last := ops[..|ops| - 1], ops[|ops| - 1];
      ConfirmedAreStored(cat, o, front);
      ReachableStoresAreOk(cat, o, front);
      if last != ResetAll {
        forall id | id in Run(cat, o, INITIAL, front).store.txs
          ensures id in Run(cat, o, INITIAL, ops).store.txs
        {
          StepEvolves(cat, o, Run(cat, o, INITIAL, front), last, id);
        }
      }
    }
  }

  /** A soft-declined record is RECOVERED if and only if its last attempt succeeded or a success was
      reported for it from outside. */
  lemma {:induction false} RecoveredIffConfirmed(cat: Catalog, o: Oracle, ops: seq<Op>, id: Id)
    requires Usable(cat) && id in Run(cat, o, INITIAL, ops).store.txs
    requires Run(cat, o, INITIAL, ops).store.txs[id].classification.decline == SoftDecline
    ensures var tx := Run(cat, o, INITIAL, ops).store.txs[id];
            tx.status == Recovered <==> LastSucceeded(tx) || id in Confirmed(cat, o, ops)
    decreases |ops|
  {
    var front, last := ops[..|ops| - 1], ops[|ops| - 1];
    var e := Run(cat, o, INITIAL, front);
    ReachableStoresAreOk(cat, o, front);
    ConfirmedAreStored(cat, o, front);
    if id in e.store.txs {
      assert last != ResetAll;
      ConfirmationStep(cat, o, e, last, id, id in Confirmed(cat, o, front));
      RecoveredIffConfirmed(cat, o, front, id);
    } else {
      var tx := ProcessAccepts(cat, o, e, last.event);
    }
  }

  lemma ConfirmationStep(cat: Catalog, o: Oracle, e: Engine, op: Op, id: Id, confirmed: bool)
    requires Usable(cat) && StoreOk(cat, e.store) && id in e.store.txs && op != ResetAll
    ensures var tx, s' := e.store.txs[id], Step(cat, o, e, op).store;
            && id in s'.txs && s'.txs[id].classification == tx.classification
            && (tx.classification.decline == SoftDecline && (tx.status == Recovered <==> LastSucceeded(tx) || confirmed)
                ==>
                (s'.txs[id].status == Recovered <==>
                 LastSucceeded(s'.txs[id]) || confirmed || (op.ReportOutcome? && op.id == id && op.success)))
  {
    assert RecordOk(cat, e.store, id);
    StepEvolves(cat, o, e, op, id);
  }
}
