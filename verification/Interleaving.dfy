/** Concurrent calls. Every locked access to the store, the tracker or the learned data is one atomic
    step; between steps each call keeps a private copy of its transaction, and any other call may run.
    A reset happens only while no call is in flight. */
module Interleaving {
  import opened Domain
  import opened Health
  import opened Ledger
  import opened Adaptive
  import opened Selection
  import opened RetryEngine
  import opened Invariant

  /** Where a call is. A constructor is named after what the call has done last. */
  datatype Thread =
    // ProcessFailure
    | Arriving(event: FailureEvent)
    | Noted(event: FailureEvent)         // the failure is in the tracker
    | Looping(tx: Tx)                    // saved; at the top of the retry loop
    | Attempted(tx: Tx)                  // an attempt is in the private record only
    | HealthNoted(tx: Tx)                // and in the tracker
    | Learned(tx: Tx)                    // and in the learned data
    | Closing(tx: Tx)                    // logged too, and the private record closed
    // RecordRetryOutcome
    | Asking(id: Id, processor: Processor, success: bool)
    | Fetched(tx: Tx, processor: Processor, success: bool)    // holds a copy
    | Reporting(tx: Tx, processor: Processor, success: bool)  // the outcome is in the tracker
    | Writing(tx: Tx)                    // learned from; the copy is ready to be written back
    | Done

  datatype Sys = Sys(store: Store, windows: Windows, weights: Weights, threads: map<nat, Thread>)

  const EMPTY_SYS: Sys := Sys(EMPTY, map[], map[], map[])

  /** What a step does not control: the clock, the retry outcome, and what planning has read about the
      processors while other calls were running. */
  datatype Choice = Choice(now: int, stamp: int, success: bool, origin: HealthState, view: Processor -> Reading)

  datatype Action =
    | Submitting(t: nat, event: FailureEvent)
    | Confirming(t: nat, id: Id, processor: Processor, success: bool)
    | Act(t: nat, choice: Choice)
    | Clearing

  /** The readings of the alternatives, whatever they were. */
  function Viewed(cat: Catalog, source: Processor, view: Processor -> Reading): seq<Reading> {
    var others := Others(cat.names, source);
    seq(|others|, i requires 0 <= i < |others| => view(others[i]).(name := others[i]))
  }

  function RouteTo(cat: Catalog, tx: Tx, c: Choice): Option<Processor> {
    if NeedsAlternative(tx.classification.strategy, c.origin)
    then Choose(cat, Viewed(cat, tx.event.processor, c.view))
    else Some(Direct(tx.classification.strategy, tx.event.processor))
  }

  function PlanAndTry(cat: Catalog, tx: Tx, c: Choice): Thread {
    var target := RouteTo(cat, tx, c);
    if tx.retryCount >= MAX_RETRIES || target.None? then Closing(Close(tx, false, c.now))
    else
      var plan := Plan(target, DelayOf(tx.classification.strategy), c.stamp, 0);
      Attempted(WithAttempt(tx, AttemptOf(cat, tx, plan, target.value, c.success), c.now))
  }

  function Last(tx: Tx): RetryAttempt
    requires tx.attempts != []
  {
    tx.attempts[|tx.attempts| - 1]
  }

  /** One atomic step of a call. */
  function Move(cat: Catalog, s: Sys, th: Thread, c: Choice): (Sys, Thread) {
    match th
    case Arriving(event) =>
      (s.(windows := Record(s.windows, event.processor, false, event.timestamp, c.now)), Noted(event))
    case Noted(event) =>
      var tx := NewTx(event);
      (s.(store := Save(s.store, tx)),
       if event.id in s.store.txs || tx.classification.decline == HardDecline then Done else Looping(tx))
    case Looping(tx) => (s, PlanAndTry(cat, tx, c))
    case Attempted(tx) =>
      if tx.attempts == [] then (s, Done)
      else
        var a := Last(tx);
        (s.(windows := Record(s.windows, a.processor, a.success, a.timestamp, c.now)), HealthNoted(tx))
    case HealthNoted(tx) =>
      if tx.attempts == [] then (s, Done)
      else (s.(weights := Learn(s.weights, tx.event.code, Last(tx).processor, Last(tx).success)), Learned(tx))
    case Learned(tx) =>
      if tx.attempts == [] then (s, Done)
      else (s.(store := Log(s.store, DecisionOf(tx, Last(tx)))),
            if Last(tx).success then Closing(Close(tx, true, c.now)) else Looping(tx))
    case Closing(tx) => (s.(store := Update(s.store, tx)), Done)
    case Asking(id, p, success) =>
      (s, if id in s.store.txs then Fetched(s.store.txs[id], p, success) else Done)
    case Fetched(tx, p, success) =>
      (s.(windows := Record(s.windows, p, success, c.stamp, c.now)), Reporting(tx, p, success))
    case Reporting(tx, p, success) =>
      (s.(weights := Learn(s.weights, tx.event.code, p, success)), Writing(Reported(tx, success, c.stamp)))
    case Writing(tx) => (s.(store := Update(s.store, tx)), Done)
    case Done => (s, Done)
  }

  function Put(s: Sys, t: nat, th: Thread): Sys {
    s.(threads := s.threads[t := th])
  }

  /** Every call that started has ended. */
  predicate Idle(s: Sys) {
    forall t <- s.threads :: s.threads[t] == Done
  }

  /** New calls start under unused numbers; any call may take the next step; a reset waits until all
      calls have ended, and keeps what was learned. */
  function Next(cat: Catalog, s: Sys, a: Action): Sys {
    match a
    case Submitting(t, event) => if t in s.threads then s else Put(s, t, Arriving(event))
    case Confirming(t, id, p, success) => if t in s.threads then s else Put(s, t, Asking(id, p, success))
    case Act(t, c) =>
      if t !in s.threads then s
      else
        var (s', th) := Move(cat, s, s.threads[t], c);
        Put(s', t, th)
    case Clearing => if Idle(s) then s.(store := EMPTY, windows := map[]) else s
  }

  /** The state after any interleaving. */
  function After(cat: Catalog, s: Sys, schedule: seq<Action>): Sys {
    if schedule == [] then s
    else Next(cat, After(cat, s, schedule[..|schedule| - 1]), schedule[|schedule| - 1])
  }

  // ---------- the invariant ----------

  /** The call is a chain between its save and its final update. */
  predicate Owning(th: Thread) {
    th.Looping? || th.Attempted? || th.HealthNoted? || th.Learned? || th.Closing?
  }

  /** The IDs whose chain has not finished. */
  function Live(s: Sys): set<Id> {
    set t | t in s.threads && Owning(s.threads[t]) :: s.threads[t].tx.id
  }

  /** A version of a stored record: its books balance, and its attempts are none or the whole finished
      decision log. */
  ghost predicate VersionOk(cat: Catalog, store: Store, live: set<Id>, r: Tx) {
    && r.id in store.txs && r.event == store.txs[r.id].event && Bookkeeping(cat, r)
    && (r.attempts == [] || (r.id !in live && LogOf(store, r.id) == Audit(r)))
    && (r.status == HardDeclined <==> r.classification.decline == HardDecline)
    && (r.status == HardDeclined ==> r == store.txs[r.id] && r.attempts == [])
    && (r.status == Exhausted ==> |r.attempts| == MAX_RETRIES && !LastSucceeded(r))
    && (r.status == Retrying ==> r.attempts == [])
    && r.status != Pending
  }

  /** The private record of a chain. */
  ghost predicate OwnedOk(cat: Catalog, store: Store, tx: Tx) {
    && tx.id in store.txs && tx.event == store.txs[tx.id].event
    && Bookkeeping(cat, tx) && tx.classification.decline == SoftDecline
  }

  ghost predicate ThreadOk(cat: Catalog, store: Store, live: set<Id>, th: Thread) {
    match th
    case Looping(tx) =>
      OwnedOk(cat, store, tx) && tx.status == Retrying && !LastSucceeded(tx) && LogOf(store, tx.id) == Audit(tx)
    case Attempted(tx) => UnloggedOk(cat, store, tx)
    case HealthNoted(tx) => UnloggedOk(cat, store, tx)
    case Learned(tx) => UnloggedOk(cat, store, tx)
    case Closing(tx) =>
      && OwnedOk(cat, store, tx) && tx.attempts != [] && LogOf(store, tx.id) == Audit(tx)
      && (tx.status == Recovered || tx.status == Exhausted)
      && (tx.status == Recovered <==> LastSucceeded(tx))
      && (tx.status == Exhausted ==> |tx.attempts| == MAX_RETRIES)
    case Fetched(tx, _, _) => VersionOk(cat, store, live, tx)
    case Reporting(tx, _, _) => VersionOk(cat, store, live, tx)
    case Writing(tx) => VersionOk(cat, store, live, tx)
    case _ => true
  }

  /** All attempts but the last are logged. */
  ghost predicate UnloggedOk(cat: Catalog, store: Store, tx: Tx) {
    && OwnedOk(cat, store, tx) && tx.status == Retrying && tx.attempts != []
    && LogOf(store, tx.id) + [DecisionOf(tx, Last(tx))] == Audit(tx)
  }

  ghost predicate Inv(cat: Catalog, s: Sys) {
    && s.store.logs.Keys <= s.store.txs.Keys
    && (forall id <- s.store.txs :: s.store.txs[id].id == id && VersionOk(cat, s.store, Live(s), s.store.txs[id]))
    && (forall t <- s.threads :: ThreadOk(cat, s.store, Live(s), s.threads[t]))
    && Exclusive(s)
  }

  /** No two chains work on the same record. */
  ghost predicate Exclusive(s: Sys) {
    forall t <- s.threads, u <- s.threads :: t != u && Owning(s.threads[t]) && Owning(s.threads[u]) ==>
      s.threads[t].tx.id != s.threads[u].tx.id
  }

  // ---------- versions and threads under store changes ----------

  /** A version stays one if its record keeps its event, a hard-declined record stays the same, and a
      finished log stays as it is. */
  lemma VersionTransfers(cat: Catalog, store: Store, live: set<Id>, store': Store, live': set<Id>, r: Tx)
    requires VersionOk(cat, store, live, r)
    requires r.id in store'.txs && store'.txs[r.id].event == store.txs[r.id].event
    requires r.classification.decline == HardDecline ==> store'.txs[r.id] == store.txs[r.id]
    requires r.attempts != [] ==> r.id !in live' && LogOf(store', r.id) == LogOf(store, r.id)
    ensures VersionOk(cat, store', live', r)
  {
  }

  /** What a step on record `id` may change so that every other call can go on. */
  ghost predicate Compatible(store: Store, live: set<Id>, store': Store, live': set<Id>, id: Id) {
    && (forall k <- store.txs :: k in store'.txs && store'.txs[k].event == store.txs[k].event)
    && (forall k <- store.txs :: Classify(store.txs[k].event).decline == HardDecline ==> store'.txs[k] == store.txs[k])
    && (forall k :: k != id ==> LogOf(store', k) == LogOf(store, k))
    && (id in live || LogOf(store', id) == LogOf(store, id))
    && live' <= live + {id} && (id in live' ==> id in live || id !in store.txs)
  }

  lemma CompatibleVersion(cat: Catalog, store: Store, live: set<Id>, store': Store, live': set<Id>, id: Id, r: Tx)
    requires Compatible(store, live, store', live', id) && VersionOk(cat, store, live, r)
    ensures VersionOk(cat, store', live', r)
  {
    VersionTransfers(cat, store, live, store', live', r);
  }

  lemma CompatibleThread(cat: Catalog, store: Store, live: set<Id>, store': Store, live': set<Id>, id: Id, th: Thread)
    requires Compatible(store, live, store', live', id) && ThreadOk(cat, store, live, th)
    requires Owning(th) ==> th.tx.id != id
    ensures ThreadOk(cat, store', live', th)
  {
    match th
    case Fetched(tx, _, _) => CompatibleVersion(cat, store, live, store', live', id, tx);
    case Reporting(tx, _, _) => CompatibleVersion(cat, store, live, store', live', id, tx);
    case Writing(tx) => CompatibleVersion(cat, store, live, store', live', id, tx);
    case _ =>
  }

  /** A step of call t on record `id` keeps the invariant if it is compatible with the others, leaves
      the record and the call itself right, and no other call owns the record. */
  lemma StepKeepsInv(cat: Catalog, s: Sys, s1: Sys, t: nat, th: Thread, id: Id)
    requires Inv(cat, s) && s1.threads == s.threads
    requires var live' := Live(Put(s1, t, th));
             && Compatible(s.store, Live(s), s1.store, live', id)
             && s1.store.txs.Keys <= s.store.txs.Keys + {id} && s1.store.logs.Keys <= s1.store.txs.Keys
             && ThreadOk(cat, s1.store, live', th)
             && (id in s1.store.txs ==> s1.store.txs[id].id == id && VersionOk(cat, s1.store, live', s1.store.txs[id]))
             && (forall k <- s.store.txs :: k != id ==> s1.store.txs[k] == s.store.txs[k])
    requires forall u <- s.threads :: u != t && Owning(s.threads[u]) ==> s.threads[u].tx.id != id
    requires Owning(th) ==> th.tx.id == id
    ensures Inv(cat, Put(s1, t, th))
  {
    hide VersionOk, ThreadOk, Compatible;
    var s' := Put(s1, t, th);
    forall k <- s'.store.txs ensures s'.store.txs[k].id == k && VersionOk(cat, s'.store, Live(s'), s'.store.txs[k]) {
      if k != id {
        CompatibleVersion(cat, s.store, Live(s), s1.store, Live(s'), id, s.store.txs[k]);
      }
    }
    forall u <- s'.threads ensures ThreadOk(cat, s'.store, Live(s'), s'.threads[u]) {
      if u != t {
        CompatibleThread(cat, s.store, Live(s), s1.store, Live(s'), id, s.threads[u]);
      }
    }
  }

  // ---------- which IDs are live ----------

  lemma LiveWith(s: Sys, s1: Sys, t: nat, th: Thread)
    requires s1.threads == s.threads
    ensures forall k :: k in Live(Put(s1, t, th)) <==>
              (Owning(th) && th.tx.id == k)
              || exists u <- s.threads :: u != t && Owning(s.threads[u]) && s.threads[u].tx.id == k
  {
    var s' := Put(s1, t, th);
    forall k
      ensures k in Live(s') <==>
              (Owning(th) && th.tx.id == k)
              || exists u <- s.threads :: u != t && Owning(s.threads[u]) && s.threads[u].tx.id == k
    {
      if k in Live(s') {
        var u :| u in s'.threads && Owning(s'.threads[u]) && s'.threads[u].tx.id == k;
      }
      if Owning(th) && th.tx.id == k {
        assert t in s'.threads && s'.threads[t] == th;
      }
      if u :| u in s.threads && u != t && Owning(s.threads[u]) && s.threads[u].tx.id == k {
        assert u in s'.threads && s'.threads[u] == s.threads[u];
      }
    }
  }

  /** The live set after call t moves from a state in which it owned `before` to one in which it owns
      `after`. */
  lemma LiveAfterMove(s: Sys, s1: Sys, t: nat, th: Thread)
    requires Exclusive(s) && s1.threads == s.threads
    ensures var before := if t in s.threads && Owning(s.threads[t]) then {s.threads[t].tx.id} else {};
            var after := if Owning(th) then {th.tx.id} else {};
            Live(Put(s1, t, th)) == Live(s) - before + after
  {
    LiveWith(s, s1, t, th);
    forall k | k in Live(s) ensures exists u :: u in s.threads && Owning(s.threads[u]) && s.threads[u].tx.id == k {
    }
  }

  // ---------- routing between other calls' steps ----------

  /** Whatever the processors were read as, a soft decline has a target: one of the other processors,
      chosen from what was read, if an alternative is needed, else the original. */
  lemma RouteIsAlternative(cat: Catalog, tx: Tx, c: Choice)
    requires Usable(cat) && tx.classification.strategy != DoNotRetry
    ensures var target, source := RouteTo(cat, tx, c), tx.event.processor;
            && target.Some?
            && if tx.classification.strategy == AlternativeProcessor || c.origin == Down
               then target.value in cat.names && target.value != source
                    && exists k :: 0 <= k < |Viewed(cat, source, c.view)|
                        && IsChoice(cat, Viewed(cat, source, c.view), k)
                                   && target.value == Viewed(cat, source, c.view)[k].name
               else target.value == source
  {
    var readings := Viewed(cat, tx.event.processor, c.view);
    OthersAre(cat.names, tx.event.processor);
    var others := Others(cat.names, tx.event.processor);
    assert forall i :: 0 <= i < |readings| ==> readings[i].name == others[i] && others[i] in others;
    var k := ChoiceExists(cat, readings);
  }

  // ---------- every step keeps the invariant ----------

  /** A step that leaves the store alone, by a call that owns a record before and after it or never. */
  lemma PrivateMove(cat: Catalog, s: Sys, s1: Sys, t: nat, th: Thread)
    requires Inv(cat, s) && s1.threads == s.threads && s1.store == s.store
    requires Owning(th) <==> t in s.threads && Owning(s.threads[t])
    requires Owning(th) ==> th.tx.id == s.threads[t].tx.id
    requires ThreadOk(cat, s.store, Live(s), th)
    ensures Inv(cat, Put(s1, t, th))
  {
    hide VersionOk, ThreadOk;
    LiveAfterMove(s, s1, t, th);
    assert Owning(th) ==> th.tx.id in Live(s);
    assert Live(Put(s1, t, th)) == Live(s);
  }

  /** An attempt that was planned for a looping chain, in its private record. */
  lemma AttemptFits(cat: Catalog, store: Store, tx: Tx, target: Processor, stamp: int, success: bool, now: int)
    requires OwnedOk(cat, store, tx) && tx.status == Retrying && !LastSucceeded(tx) && LogOf(store, tx.id) == Audit(tx)
    requires tx.retryCount < MAX_RETRIES && (target == tx.event.processor || target in cat.names)
    requires tx.classification.strategy == AlternativeProcessor ==> target != tx.event.processor
    ensures var plan := Plan(Some(target), DelayOf(tx.classification.strategy), stamp, 0);
            UnloggedOk(cat, store, WithAttempt(tx, AttemptOf(cat, tx, plan, target, success), now))
  {
    var plan := Plan(Some(target), DelayOf(tx.classification.strategy), stamp, 0);
    AttemptKeepsBooks(cat, tx, plan, target, success, now);
    hide Bookkeeping, Audit, LogOf;
  }

  lemma PlanKeepsThread(cat: Catalog, store: Store, live: set<Id>, tx: Tx, c: Choice)
    requires Usable(cat) && ThreadOk(cat, store, live, Looping(tx))
    ensures var th := PlanAndTry(cat, tx, c);
            Owning(th) && th.tx.id == tx.id && ThreadOk(cat, store, live, th)
  {
    if tx.retryCount >= MAX_RETRIES {
      hide AttemptOk, CostOf;
      CloseKeepsBooks(cat, tx, false, c.now);
    } else {
      assert tx.classification.strategy != DoNotRetry;
      hide UnloggedOk, Bookkeeping, Audit, RouteTo, AttemptOf;
      RouteIsAlternative(cat, tx, c);
      AttemptFits(cat, store, tx, RouteTo(cat, tx, c).value, c.stamp, c.success, c.now);
    }
  }

  /** What saving a new record does to it and to its call. */
  lemma SaveFits(cat: Catalog, store: Store, live: set<Id>, event: FailureEvent)
    requires event.id !in store.txs && store.logs.Keys <= store.txs.Keys
    ensures var tx := NewTx(event);
            var store1 := Save(store, tx);
            var live1 := if tx.classification.decline == HardDecline then live else live + {event.id};
            && Compatible(store, live, store1, live1, event.id)
            && VersionOk(cat, store1, live1, tx)
            && (tx.classification.decline == SoftDecline ==> ThreadOk(cat, store1, live1, Looping(tx)))
  {
    assert LogOf(store, event.id) == [] == Audit(NewTx(event));
  }

  lemma SaveKeepsInv(cat: Catalog, s: Sys, t: nat, c: Choice)
    requires Inv(cat, s) && t in s.threads && s.threads[t].Noted?
    ensures var (s1, th) := Move(cat, s, s.threads[t], c); Inv(cat, Put(s1, t, th))
  {
    hide VersionOk, Compatible, OwnedOk, Record, Audit, Save;
    var event := s.threads[t].event;
    var (s1, th) := Move(cat, s, s.threads[t], c);
    if event.id in s.store.txs {
      assert s1.store == s.store by { DuplicateIsIgnored(s.store, NewTx(event)); }
      PrivateMove(cat, s, s1, t, th);
    } else {
      NewRecordKeepsInv(cat, s, t, event);
    }
  }

  lemma DuplicateIsIgnored(store: Store, tx: Tx)
    requires tx.id in store.txs
    ensures Save(store, tx) == store
  {
  }

  lemma NewRecordKeepsInv(cat: Catalog, s: Sys, t: nat, event: FailureEvent)
    requires Inv(cat, s) && t in s.threads && !Owning(s.threads[t]) && event.id !in s.store.txs
    ensures var tx := NewTx(event);
            var th := if tx.classification.decline == HardDecline then Done else Looping(tx);
            Inv(cat, Put(s.(store := Save(s.store, tx)), t, th))
  {
    hide VersionOk, Compatible, OwnedOk, Audit, Classify;
    var tx := NewTx(event);
    var s1 := s.(store := Save(s.store, tx));
    var th := if tx.classification.decline == HardDecline then Done else Looping(tx);
    SaveFits(cat, s.store, Live(s), event);
    LiveAfterMove(s, s1, t, th);
    assert Live(Put(s1, t, th)) == if Owning(th) then Live(s) + {event.id} else Live(s);
    OwnersAreStored(cat, s);
    StepKeepsInv(cat, s, s1, t, th, event.id);
  }

  lemma OwnersAreStored(cat: Catalog, s: Sys)
    requires Inv(cat, s)
    ensures forall u <- s.threads :: Owning(s.threads[u]) ==> s.threads[u].tx.id in s.store.txs
  {
    hide VersionOk, Bookkeeping;
    forall u <- s.threads | Owning(s.threads[u]) ensures s.threads[u].tx.id in s.store.txs {
      assert ThreadOk(cat, s.store, Live(s), s.threads[u]);
    }
  }

  /** What logging an attempt does to the record and to its call. */
  lemma LogFits(cat: Catalog, store: Store, live: set<Id>, tx: Tx, now: int)
    requires UnloggedOk(cat, store, tx) && tx.id in live && VersionOk(cat, store, live, store.txs[tx.id])
    ensures var store1 := Log(store, DecisionOf(tx, Last(tx)));
            && Compatible(store, live, store1, live, tx.id)
            && VersionOk(cat, store1, live, store1.txs[tx.id])
            && ThreadOk(cat, store1, live, if Last(tx).success then Closing(Close(tx, true, now)) else Looping(tx))
  {
    CloseKeepsBooks(cat, tx, true, now);
  }

  lemma LogKeepsInv(cat: Catalog, s: Sys, t: nat, c: Choice)
    requires Inv(cat, s) && t in s.threads && s.threads[t].Learned?
    ensures var (s1, th) := Move(cat, s, s.threads[t], c); Inv(cat, Put(s1, t, th))
  {
    var tx := s.threads[t].tx;
    assert ThreadOk(cat, s.store, Live(s), s.threads[t]);
    var (s1, th) := Move(cat, s, s.threads[t], c);
    assert tx.id in Live(s);
    LogFits(cat, s.store, Live(s), tx, c.now);
    LiveAfterMove(s, s1, t, th);
    assert Live(Put(s1, t, th)) == Live(s);
    hide VersionOk, ThreadOk, Compatible;
    StepKeepsInv(cat, s, s1, t, th, tx.id);
  }

  /** What the final update of a chain does to its record: its log is finished. */
  lemma CloseFits(cat: Catalog, store: Store, live: set<Id>, tx: Tx)
    requires ThreadOk(cat, store, live, Closing(tx))
    ensures var store1, live1 := Update(store, tx), live - {tx.id};
            Compatible(store, live, store1, live1, tx.id) && VersionOk(cat, store1, live1, tx)
  {
  }

  lemma CloseKeepsInv(cat: Catalog, s: Sys, t: nat)
    requires Inv(cat, s) && t in s.threads && s.threads[t].Closing?
    ensures Inv(cat, Put(s.(store := Update(s.store, s.threads[t].tx)), t, Done))
  {
    hide VersionOk, Compatible;
    var tx := s.threads[t].tx;
    var s1 := s.(store := Update(s.store, tx));
    assert ThreadOk(cat, s.store, Live(s), s.threads[t]);
    CloseFits(cat, s.store, Live(s), tx);
    LiveAfterMove(s, s1, t, Done);
    assert Live(Put(s1, t, Done)) == Live(s) - {tx.id};
    StepKeepsInv(cat, s, s1, t, Done, tx.id);
  }

  /** Over anything a version of its record may be written, however stale: the other versions stay
      versions. */
  lemma WriteKeepsVersion(cat: Catalog, store: Store, live: set<Id>, tx: Tx, r: Tx)
    requires VersionOk(cat, store, live, tx) && VersionOk(cat, store, live, r)
    ensures VersionOk(cat, Update(store, tx), live, r)
  {
    VersionTransfers(cat, store, live, Update(store, tx), live, r);
  }

  lemma WriteKeepsThread(cat: Catalog, store: Store, live: set<Id>, tx: Tx, th: Thread)
    requires VersionOk(cat, store, live, tx) && ThreadOk(cat, store, live, th)
    ensures ThreadOk(cat, Update(store, tx), live, th)
  {
    match th
    case Fetched(r, _, _) => WriteKeepsVersion(cat, store, live, tx, r);
    case Reporting(r, _, _) => WriteKeepsVersion(cat, store, live, tx, r);
    case Writing(r) => WriteKeepsVersion(cat, store, live, tx, r);
    case _ =>
  }

  lemma WriteKeepsInv(cat: Catalog, s: Sys, t: nat)
    requires Inv(cat, s) && t in s.threads && s.threads[t].Writing?
    ensures Inv(cat, Put(s.(store := Update(s.store, s.threads[t].tx)), t, Done))
  {
    var tx, live := s.threads[t].tx, Live(s);
    assert ThreadOk(cat, s.store, live, s.threads[t]);
    assert tx.id in s.store.txs;
    hide VersionOk;
    var s1 := s.(store := Update(s.store, tx));
    var s' := Put(s1, t, Done);
    LiveAfterMove(s, s1, t, Done);
    assert Live(s') == live;
    forall id <- s'.store.txs ensures s'.store.txs[id].id == id && VersionOk(cat, s'.store, live, s'.store.txs[id]) {
      WriteKeepsVersion(cat, s.store, live, tx, s'.store.txs[id]);
    }
    forall u <- s'.threads ensures ThreadOk(cat, s'.store, live, s'.threads[u]) {
      if u != t {
        WriteKeepsThread(cat, s.store, live, tx, s.threads[u]);
      }
    }
  }

  lemma ReportedVersion(cat: Catalog, store: Store, live: set<Id>, tx: Tx, success: bool, now: int)
    requires VersionOk(cat, store, live, tx)
    ensures VersionOk(cat, store, live, Reported(tx, success, now))
  {
    CloseKeepsBooks(cat, tx, true, now);
  }

  /** The steps that do not change the store. */
  lemma QuietMoveFits(cat: Catalog, s: Sys, th0: Thread, c: Choice)
    requires Usable(cat) && ThreadOk(cat, s.store, Live(s), th0)
    requires forall id <- s.store.txs :: VersionOk(cat, s.store, Live(s), s.store.txs[id])
    requires !th0.Noted? && !th0.Learned? && !th0.Closing? && !th0.Writing?
    ensures var (s1, th) := Move(cat, s, th0, c);
            && s1.threads == s.threads && s1.store == s.store && ThreadOk(cat, s.store, Live(s), th)
            && (Owning(th) <==> Owning(th0)) && (Owning(th) ==> th.tx.id == th0.tx.id)
  {
    hide VersionOk, OwnedOk, PlanAndTry, Audit, Reported, Record, Learn, Live;
    match th0
    case Looping(tx) => PlanKeepsThread(cat, s.store, Live(s), tx, c);
    case Reporting(tx, _, success) => ReportedVersion(cat, s.store, Live(s), tx, success, c.stamp);
    case _ =>
  }

  lemma QuietMoveKeepsInv(cat: Catalog, s: Sys, t: nat, c: Choice)
    requires Usable(cat) && Inv(cat, s) && t in s.threads
    requires var th0 := s.threads[t]; !th0.Noted? && !th0.Learned? && !th0.Closing? && !th0.Writing?
    ensures var (s1, th) := Move(cat, s, s.threads[t], c); Inv(cat, Put(s1, t, th))
  {
    hide Move, VersionOk;
    QuietMoveFits(cat, s, s.threads[t], c);
    var (s1, th) := Move(cat, s, s.threads[t], c);
    PrivateMove(cat, s, s1, t, th);
  }

  lemma MoveKeepsInv(cat: Catalog, s: Sys, t: nat, c: Choice)
    requires Usable(cat) && Inv(cat, s) && t in s.threads
    ensures var (s1, th) := Move(cat, s, s.threads[t], c); Inv(cat, Put(s1, t, th))
  {
    hide Inv, PlanAndTry, Record, Learn, Reported, Close;
    match s.threads[t]
    case Noted(_) => SaveKeepsInv(cat, s, t, c);
    case Learned(_) => LogKeepsInv(cat, s, t, c);
    case Closing(_) => CloseKeepsInv(cat, s, t);
    case Writing(_) => WriteKeepsInv(cat, s, t);
    case _ => QuietMoveKeepsInv(cat, s, t, c);
  }

  lemma NextKeepsInv(cat: Catalog, s: Sys, a: Action)
    requires Usable(cat) && Inv(cat, s)
    ensures Inv(cat, Next(cat, s, a))
  {
    match a
    case Submitting(t, event) =>
      if t !in s.threads {
        PrivateMove(cat, s, s, t, Arriving(event));
      }
    case Confirming(t, id, p, success) =>
      if t !in s.threads {
        PrivateMove(cat, s, s, t, Asking(id, p, success));
      }
    case Act(t, c) =>
      if t in s.threads {
        MoveKeepsInv(cat, s, t, c);
      }
    case Clearing =>
  }

  lemma {:induction false} InvKept(cat: Catalog, s: Sys, schedule: seq<Action>)
    requires Usable(cat) && Inv(cat, s)
    ensures Inv(cat, After(cat, s, schedule))
  {
    if schedule != [] {
      InvKept(cat, s, schedule[..|schedule| - 1]);
      NextKeepsInv(cat, After(cat, s, schedule[..|schedule| - 1]), schedule[|schedule| - 1]);
    }
  }

  // ---------- what holds under every interleaving ----------

  /** Under every interleaving of chains, reports and resets between calls, a stored record counts its attempts, at most
      three, and their costs; its attempts are none or match its finished decision log one to one;
      EXHAUSTED means three failed attempts; HARD_DECLINED means a hard code and no attempts. */
  lemma EveryInterleavingIsSafe(cat: Catalog, schedule: seq<Action>, id: Id)
    requires Usable(cat) && id in After(cat, EMPTY_SYS, schedule).store.txs
    ensures var s := After(cat, EMPTY_SYS, schedule);
            var tx := s.store.txs[id];
            && tx.id == id
            && tx.retryCount == |tx.attempts| <= MAX_RETRIES && tx.totalCost == CostOf(tx.attempts)
            && (tx.attempts == [] || (id !in Live(s) && LogOf(s.store, id) == Audit(tx)))
            && (tx.status == Exhausted ==> |tx.attempts| == MAX_RETRIES && forall a <- tx.attempts :: !a.success)
            && (tx.status == HardDeclined <==> Classify(tx.event).decline == HardDecline)
            && (tx.status == HardDeclined ==> tx.attempts == [] && tx.totalCost == 0)
  {
    InvKept(cat, EMPTY_SYS, schedule);
    var tx := After(cat, EMPTY_SYS, schedule).store.txs[id];
    forall a <- tx.attempts | tx.status == Exhausted ensures !a.success {
      var i :| 0 <= i < |tx.attempts| && tx.attempts[i] == a;
      assert AttemptOk(cat, tx, i);
    }
  }

  /** What a call is about to write belongs to a stored record, and equals it if hard-declined. */
  lemma WritesFit(cat: Catalog, s: Sys, t: nat)
    requires Inv(cat, s) && t in s.threads && (s.threads[t].Closing? || s.threads[t].Writing?)
    ensures var tx := s.threads[t].tx;
            && tx.id in s.store.txs && tx.event == s.store.txs[tx.id].event
            && (s.store.txs[tx.id].status == HardDeclined ==> s.threads[t].Writing? && tx == s.store.txs[tx.id])
  {
    assert ThreadOk(cat, s.store, Live(s), s.threads[t]);
    assert VersionOk(cat, s.store, Live(s), s.store.txs[s.threads[t].tx.id]);
  }

  /** No step but a reset changes the event of a stored record or anything of a hard-declined one. */
  lemma NextKeepsEvents(cat: Catalog, s: Sys, a: Action, id: Id)
    requires Inv(cat, s) && id in s.store.txs && a != Clearing
    ensures var s' := Next(cat, s, a);
            && id in s'.store.txs && s'.store.txs[id].event == s.store.txs[id].event
            && (s.store.txs[id].status == HardDeclined ==> s'.store.txs[id] == s.store.txs[id])
  {
    hide Inv, PlanAndTry, Record, Learn, Reported, Close, NewTx;
    if a.Act? && a.t in s.threads && (s.threads[a.t].Closing? || s.threads[a.t].Writing?) {
      WritesFit(cat, s, a.t);
    }
  }

  lemma {:induction false} HardDeclinedNeverChanges(cat: Catalog, s: Sys, schedule: seq<Action>, id: Id)
    requires Usable(cat) && Inv(cat, s) && id in s.store.txs && Clearing !in schedule
    ensures var s' := After(cat, s, schedule);
            && id in s'.store.txs && s'.store.txs[id].event == s.store.txs[id].event
            && (s.store.txs[id].status == HardDeclined ==> s'.store.txs[id] == s.store.txs[id])
  {
    if schedule != [] {
      var front := schedule[..|schedule| - 1];
      HardDeclinedNeverChanges(cat, s, front, id);
      InvKept(cat, s, front);
      NextKeepsEvents(cat, After(cat, s, front), schedule[|schedule| - 1], id);
    }
  }

  lemma AfterOneMore(cat: Catalog, s: Sys, schedule: seq<Action>, a: Action)
    ensures After(cat, s, schedule + [a]) == Next(cat, After(cat, s, schedule), a)
  {
    assert (schedule + [a])[..|schedule|] == schedule;
  }

  lemma {:induction false} AfterBoth(cat: Catalog, s: Sys, first: seq<Action>, second: seq<Action>)
    ensures After(cat, s, first + second) == After(cat, After(cat, s, first), second)
  {
    if second == [] {
      assert first + second == first;
    } else {
      var front, last := second[..|second| - 1], second[|second| - 1];
      AfterBoth(cat, s, first, front);
      assert first + second == first + front + [last];
      AfterOneMore(cat, s, first + front, last);
    }
  }
}
