/** When a stored record is final. With calls one at a time RECOVERED and the attempts of a finished
    chain never change; with concurrent calls they may, and exactly what the calls in flight hold
    decides whether they can. */
module Finality {
  import opened Domain
  import opened Health
  import opened Ledger
  import opened Adaptive
  import World
  import opened RetryEngine
  import opened Invariant
  import opened Interleaving
  import opened Embedding

  /** The call has a copy of the record. */
  predicate Carries(th: Thread, id: Id) {
    (Owning(th) || th.Fetched? || th.Reporting? || th.Writing?) && th.tx.id == id
  }

  /** No chain of the record is running and no call holds a copy with other attempts. */
  ghost predicate Finished(s: Sys, id: Id) {
    && id in s.store.txs
    && forall t <- s.threads :: Carries(s.threads[t], id) ==>
         !Owning(s.threads[t]) && s.threads[t].tx.attempts == s.store.txs[id].attempts
  }

  lemma PlanKeepsId(cat: Catalog, tx: Tx, c: Choice)
    ensures var th := PlanAndTry(cat, tx, c); Owning(th) && th.tx.id == tx.id
  {
  }

  /** Nothing that a call carries as a copy of the record is its own or has other attempts. */
  predicate Harmless(th: Thread, id: Id, attempts: seq<RetryAttempt>) {
    Carries(th, id) ==> !Owning(th) && th.tx.attempts == attempts
  }

  ghost predicate SameBooks(store: Store, store1: Store, id: Id)
    requires id in store.txs
  {
    id in store1.txs && store1.txs[id].attempts == store.txs[id].attempts && LogOf(store1, id) == LogOf(store, id)
  }

  /** A chain of another record: its log and its update leave this one alone. */
  lemma ChainLeavesOther(cat: Catalog, s: Sys, th: Thread, c: Choice, id: Id, attempts: seq<RetryAttempt>)
    requires Owning(th) && th.tx.id != id && id in s.store.txs
    ensures var (s1, th1) := Move(cat, s, th, c);
            s1.threads == s.threads && SameBooks(s.store, s1.store, id) && Harmless(th1, id, attempts)
  {
    hide PlanAndTry, Record, Learn;
    PlanKeepsId(cat, th.tx, c);
  }

  /** A report passes its copy on and writes it back. */
  lemma ReportKeepsBooks(cat: Catalog, s: Sys, th: Thread, c: Choice, id: Id)
    requires th.Asking? || th.Fetched? || th.Reporting? || th.Writing?
    requires (forall k <- s.store.txs :: s.store.txs[k].id == k) && id in s.store.txs
    requires Harmless(th, id, s.store.txs[id].attempts)
    ensures var (s1, th1) := Move(cat, s, th, c);
            && s1.threads == s.threads && SameBooks(s.store, s1.store, id)
            && Harmless(th1, id, s.store.txs[id].attempts)
  {
    hide Record, Learn;
  }

  /** A submission under way saves nothing over a stored record. */
  lemma ArrivalKeepsBooks(cat: Catalog, s: Sys, th: Thread, c: Choice, id: Id, attempts: seq<RetryAttempt>)
    requires (th.Arriving? || th.Noted? || th.Done?) && id in s.store.txs
    ensures var (s1, th1) := Move(cat, s, th, c);
            s1.threads == s.threads && SameBooks(s.store, s1.store, id) && Harmless(th1, id, attempts)
  {
    hide Record, Classify;
  }

  lemma NextKeepsFinished(cat: Catalog, s: Sys, a: Action, id: Id)
    requires Inv(cat, s) && Finished(s, id) && a != Clearing
    ensures Finished(Next(cat, s, a), id) && SameBooks(s.store, Next(cat, s, a).store, id)
  {
    hide VersionOk, ThreadOk, Move, LogOf;
    if a.Act? && a.t in s.threads {
      var th, attempts := s.threads[a.t], s.store.txs[id].attempts;
      assert Harmless(th, id, attempts);
      if Owning(th) {
        ChainLeavesOther(cat, s, th, a.choice, id, attempts);
      } else if th.Asking? || th.Fetched? || th.Reporting? || th.Writing? {
        ReportKeepsBooks(cat, s, th, a.choice, id);
      } else {
        ArrivalKeepsBooks(cat, s, th, a.choice, id, attempts);
      }
    }
  }

  lemma FinishedVersion(cat: Catalog, s: Sys, id: Id)
    requires Inv(cat, s) && id in s.store.txs
    ensures var tx := s.store.txs[id];
            && tx.retryCount == |tx.attempts| && tx.totalCost == CostOf(tx.attempts)
            && (tx.attempts != [] ==> tx.status == Exhausted || tx.status == Recovered)
  {
    assert VersionOk(cat, s.store, Live(s), s.store.txs[id]);
  }

  /** Once no chain of a record is running and no call holds a copy with other attempts, nothing that
      follows before a reset changes the attempts, the count, the cost or the log; and if there are
      attempts the status stays EXHAUSTED or RECOVERED. */
  lemma {:induction false} FinishedStaysFinished(cat: Catalog, s: Sys, schedule: seq<Action>, id: Id)
    requires Usable(cat) && Inv(cat, s) && Finished(s, id) && Clearing !in schedule
    ensures var s' := After(cat, s, schedule);
            && Finished(s', id)
            && var tx, tx' := s.store.txs[id], s'.store.txs[id];
               && tx'.attempts == tx.attempts && tx'.retryCount == tx.retryCount && tx'.totalCost == tx.totalCost
               && LogOf(s'.store, id) == LogOf(s.store, id)
               && (tx.attempts != [] ==> tx'.status == Exhausted || tx'.status == Recovered)
  {
    hide Inv, LogOf, Next;
    FinishedVersion(cat, s, id);
    if schedule != [] {
      var front := schedule[..|schedule| - 1];
      InvKept(cat, s, front);
      FinishedStaysFinished(cat, s, front, id);
      NextKeepsFinished(cat, After(cat, s, front), schedule[|schedule| - 1], id);
      InvKept(cat, s, schedule);
      FinishedVersion(cat, After(cat, s, schedule), id);
    }
  }

  // ---------- running one call to its write ----------

  /** What a report holds when it writes. */
  function ToWrite(th: Thread): Tx
    requires th.Fetched? || th.Reporting? || th.Writing?
  {
    if th.Writing? then th.tx else Reported(th.tx, th.success, 0)
  }

  /** A report that holds a copy can go on undisturbed and write it. */
  lemma {:induction false} ReportWrites(cat: Catalog, s: Sys, t: nat) returns (schedule: seq<Action>)
    requires t in s.threads && (s.threads[t].Fetched? || s.threads[t].Reporting? || s.threads[t].Writing?)
    requires s.threads[t].tx.id in s.store.txs
    ensures Clearing !in schedule && After(cat, s, schedule).store == Update(s.store, ToWrite(s.threads[t]))
    decreases if s.threads[t].Fetched? then 2 else if s.threads[t].Reporting? then 1 else 0
  {
    hide Record, Learn;
    var step := Act(t, At(0));
    AfterOneMore(cat, s, [], step);
    if s.threads[t].Writing? {
      schedule := [step];
    } else {
      var rest := ReportWrites(cat, Next(cat, s, step), t);
      AfterBoth(cat, s, [step], rest);
      schedule := [step] + rest;
    }
  }

  /** Steps to go until a chain whose attempts all fail has closed its record. */
  function ToGo(th: Thread): int
    requires Owning(th)
  {
    match th
    case Closing(_) => 0
    case Looping(tx) => 4 * (MAX_RETRIES - tx.retryCount) + 1
    case Learned(tx) => 4 * (MAX_RETRIES - tx.retryCount) + 2
    case HealthNoted(tx) => 4 * (MAX_RETRIES - tx.retryCount) + 3
    case Attempted(tx) => 4 * (MAX_RETRIES - tx.retryCount) + 4
  }

  // ---------- RECOVERED ----------

  /** The call cannot but leave the record RECOVERED, should it write it. */
  ghost predicate Bound(th: Thread) {
    match th
    case Looping(_) => false
    case Attempted(tx) => LastSucceeded(tx)
    case HealthNoted(tx) => LastSucceeded(tx)
    case Learned(tx) => LastSucceeded(tx)
    case Closing(tx) => tx.status == Recovered
    case Fetched(tx, _, success) => tx.status == Recovered || success
    case Reporting(tx, _, success) => tx.status == Recovered || success
    case Writing(tx) => tx.status == Recovered
    case _ => true
  }

  /** RECOVERED, and every call that has a copy is bound to write RECOVERED. */
  ghost predicate Safe(s: Sys, id: Id) {
    && id in s.store.txs && s.store.txs[id].status == Recovered
    && forall t <- s.threads :: Carries(s.threads[t], id) ==> Bound(s.threads[t])
  }

  /** A copy of a soft-declined record in the hands of a report is RETRYING, RECOVERED or EXHAUSTED. */
  lemma CopiesAreSoft(cat: Catalog, s: Sys, t: nat, id: Id)
    requires Inv(cat, s) && t in s.threads && id in s.store.txs && s.store.txs[id].status == Recovered
    requires Carries(s.threads[t], id) && !Owning(s.threads[t])
    ensures var status := s.threads[t].tx.status; status == Retrying || status == Exhausted || status == Recovered
  {
    assert ThreadOk(cat, s.store, Live(s), s.threads[t]);
    assert VersionOk(cat, s.store, Live(s), s.threads[t].tx);
  }

  ghost predicate StillSafe(s: Sys, s1: Sys, th: Thread, id: Id) {
    && s1.threads == s.threads && id in s1.store.txs && s1.store.txs[id].status == Recovered
    && (Carries(th, id) ==> Bound(th))
  }

  lemma ChainKeepsBound(cat: Catalog, s: Sys, th: Thread, c: Choice, id: Id)
    requires id in s.store.txs && s.store.txs[id].status == Recovered
    requires Owning(th) && (Carries(th, id) ==> Bound(th))
    ensures var (s1, th1) := Move(cat, s, th, c); StillSafe(s, s1, th1, id)
  {
    hide PlanAndTry, Record, Learn;
    PlanKeepsId(cat, th.tx, c);
  }

  lemma ReportKeepsBound(cat: Catalog, s: Sys, th: Thread, c: Choice, id: Id)
    requires (forall k <- s.store.txs :: s.store.txs[k].id == k) && id in s.store.txs
        && s.store.txs[id].status == Recovered
    requires th.Asking? || th.Fetched? || th.Reporting? || th.Writing?
    requires Carries(th, id) ==> Bound(th)
    requires Carries(th, id) ==> th.tx.status == Retrying || th.tx.status == Exhausted || th.tx.status == Recovered
    ensures var (s1, th1) := Move(cat, s, th, c); StillSafe(s, s1, th1, id)
  {
    hide Record, Learn;
  }

  lemma ArrivalKeepsBound(cat: Catalog, s: Sys, th: Thread, c: Choice, id: Id)
    requires id in s.store.txs && s.store.txs[id].status == Recovered && (th.Arriving? || th.Noted? || th.Done?)
    ensures var (s1, th1) := Move(cat, s, th, c); StillSafe(s, s1, th1, id)
  {
    hide Record, Classify;
  }

  lemma NextKeepsSafe(cat: Catalog, s: Sys, a: Action, id: Id)
    requires Inv(cat, s) && Safe(s, id) && a != Clearing
    ensures Safe(Next(cat, s, a), id)
  {
    if a.Act? && a.t in s.threads {
      var th := s.threads[a.t];
      if Carries(th, id) && !Owning(th) {
        CopiesAreSoft(cat, s, a.t, id);
      }
      hide VersionOk, ThreadOk, Move, Bound;
      if Owning(th) {
        ChainKeepsBound(cat, s, th, a.choice, id);
      } else if th.Asking? || th.Fetched? || th.Reporting? || th.Writing? {
        ReportKeepsBound(cat, s, th, a.choice, id);
      } else {
        ArrivalKeepsBound(cat, s, th, a.choice, id);
      }
    }
  }

  lemma {:induction false} SafeStaysSafe(cat: Catalog, s: Sys, schedule: seq<Action>, id: Id)
    requires Usable(cat) && Inv(cat, s) && Safe(s, id) && Clearing !in schedule
    ensures Safe(After(cat, s, schedule), id)
  {
    hide Inv, Safe, Next;
    if schedule != [] {
      var front := schedule[..|schedule| - 1];
      SafeStaysSafe(cat, s, front, id);
      InvKept(cat, s, front);
      NextKeepsSafe(cat, After(cat, s, front), schedule[|schedule| - 1], id);
    }
  }

  /** One step of a chain whose next attempt fails. */
  lemma ChainStep(cat: Catalog, s: Sys, t: nat)
    requires Inv(cat, s) && t in s.threads && Owning(s.threads[t]) && !s.threads[t].Closing?
    ensures var th, s1 := s.threads[t], Next(cat, s, Act(t, At(0)));
            && t in s1.threads && Owning(s1.threads[t]) && s1.threads[t].tx.id == th.tx.id
            && (!Bound(th) ==> !Bound(s1.threads[t]))
            && 0 <= ToGo(s1.threads[t]) < ToGo(th)
            && th.tx.id in s1.store.txs
  {
    hide VersionOk, Record, Learn, RouteTo, Audit;
    assert ThreadOk(cat, s.store, Live(s), s.threads[t]);
  }

  /** A chain can go on undisturbed, failing from now on, and write its record: with its attempts, and
      not RECOVERED unless it had succeeded before. */
  lemma {:induction false} ChainWrites(cat: Catalog, s: Sys, t: nat) returns (schedule: seq<Action>)
    requires Usable(cat) && Inv(cat, s) && t in s.threads && Owning(s.threads[t])
    requires s.threads[t].tx.id in s.store.txs
    ensures Clearing !in schedule
    ensures var id, s' := s.threads[t].tx.id, After(cat, s, schedule);
            id in s'.store.txs && s'.store.txs[id].attempts != []
            && (!Bound(s.threads[t]) ==> s'.store.txs[id].status != Recovered)
    decreases ToGo(s.threads[t])
  {
    var step := Act(t, At(0));
    AfterOneMore(cat, s, [], step);
    if s.threads[t].Closing? {
      assert ThreadOk(cat, s.store, Live(s), s.threads[t]);
      schedule := [step];
    } else {
      ChainStep(cat, s, t);
      NextKeepsInv(cat, s, step);
      hide Next, Inv, Bound, ToGo;
      var rest := ChainWrites(cat, Next(cat, s, step), t);
      AfterBoth(cat, s, [step], rest);
      schedule := [step] + rest;
    }
  }

  lemma UnboundUndoes(cat: Catalog, s: Sys, t: nat, id: Id) returns (schedule: seq<Action>)
    requires Usable(cat) && Inv(cat, s) && id in s.store.txs && s.store.txs[id].status == Recovered
    requires t in s.threads && Carries(s.threads[t], id) && !Bound(s.threads[t])
    ensures Clearing !in schedule && !RecoveredAfter(cat, s, schedule, id)
  {
    if Owning(s.threads[t]) {
      schedule := ChainWrites(cat, s, t);
    } else {
      schedule := ReportWrites(cat, s, t);
    }
  }

  ghost predicate RecoveredAfter(cat: Catalog, s: Sys, schedule: seq<Action>, id: Id) {
    var s' := After(cat, s, schedule);
    id in s'.store.txs && s'.store.txs[id].status == Recovered
  }

  /** When RECOVERED is final: no interleaving whatever, short of a reset, can take a RECOVERED record back
      if and only if every call that has a copy of it now is bound to write RECOVERED. */
  lemma RecoveredIsFinalIff(cat: Catalog, s: Sys, id: Id)
    requires Usable(cat) && Inv(cat, s) && id in s.store.txs && s.store.txs[id].status == Recovered
    ensures (forall schedule | Clearing !in schedule :: RecoveredAfter(cat, s, schedule, id)) <==>
            (forall t <- s.threads :: Carries(s.threads[t], id) ==> Bound(s.threads[t]))
  {
    hide Inv, Bound, Carries;
    if forall t <- s.threads :: Carries(s.threads[t], id) ==> Bound(s.threads[t]) {
      forall schedule | Clearing !in schedule ensures RecoveredAfter(cat, s, schedule, id) {
        SafeStaysSafe(cat, s, schedule, id);
      }
    } else {
      var t :| t in s.threads && Carries(s.threads[t], id) && !Bound(s.threads[t]);
      var schedule := UnboundUndoes(cat, s, t, id);
    }
  }

  // ---------- the attempts ----------

  ghost predicate AttemptsKept(cat: Catalog, s: Sys, schedule: seq<Action>, id: Id)
    requires id in s.store.txs
  {
    var s' := After(cat, s, schedule);
    id in s'.store.txs && s'.store.txs[id].attempts == s.store.txs[id].attempts
  }

  /** A running chain will write attempts over a record that has none yet; a report may write a copy with
      other attempts. */
  lemma OtherCopyUndoes(cat: Catalog, s: Sys, t: nat, id: Id) returns (schedule: seq<Action>)
    requires Usable(cat) && Inv(cat, s) && id in s.store.txs && t in s.threads && Carries(s.threads[t], id)
    requires Owning(s.threads[t]) || s.threads[t].tx.attempts != s.store.txs[id].attempts
    ensures Clearing !in schedule && !AttemptsKept(cat, s, schedule, id)
  {
    assert VersionOk(cat, s.store, Live(s), s.store.txs[id]);
    hide VersionOk, ThreadOk;
    if Owning(s.threads[t]) {
      assert id in Live(s);
      schedule := ChainWrites(cat, s, t);
    } else {
      schedule := ReportWrites(cat, s, t);
    }
  }

  /** When the attempts are final, for every stored record: no interleaving, short of a reset, can change
      them if and only if no chain of the record is running and no call holds a copy with other attempts.
      Then, by FinishedStaysFinished, count, cost and log are final too. So attempts that were lost to a
      stale write, with no call in flight, never come back. */
  lemma AttemptsAreFinalIff(cat: Catalog, s: Sys, id: Id)
    requires Usable(cat) && Inv(cat, s) && id in s.store.txs
    ensures (forall schedule | Clearing !in schedule :: AttemptsKept(cat, s, schedule, id)) <==> Finished(s, id)
  {
    hide Inv;
    if Finished(s, id) {
      forall schedule | Clearing !in schedule ensures AttemptsKept(cat, s, schedule, id) {
        FinishedStaysFinished(cat, s, schedule, id);
      }
    } else {
      var t :| t in s.threads && Carries(s.threads[t], id)
               && (Owning(s.threads[t]) || s.threads[t].tx.attempts != s.store.txs[id].attempts);
      var schedule := OtherCopyUndoes(cat, s, t, id);
    }
  }

  /** After the lost update of StaleReportUndoesChain: the attempts are lost for good, whatever follows
      before a reset, though the log keeps their decisions; the status is not, since a later success
      report makes the record RECOVERED, without attempts. */
  lemma LostForGood(cat: Catalog, o: World.Oracle, event: FailureEvent, p: Processor)
      returns (schedule: seq<Action>, report: seq<Action>)
    requires Usable(cat) && Classify(event).decline == SoftDecline
    ensures var id, s := event.id, After(cat, EMPTY_SYS, schedule);
            && id in s.store.txs && s.store.txs[id] == NewTx(event) && LogOf(s.store, id) != []
            && (forall later | Clearing !in later ::
                  AttemptsKept(cat, s, later, id) && LogOf(After(cat, s, later).store, id) == LogOf(s.store, id))
            && var s' := After(cat, s, report);
               id in s'.store.txs && s'.store.txs[id].status == Recovered && s'.store.txs[id].attempts == []
  {
    schedule := StaleReportUndoesChain(cat, o, event, p);
    var id, s := event.id, After(cat, EMPTY_SYS, schedule);
    hide After;
    InvKept(cat, EMPTY_SYS, schedule);
    assert Finished(s, id);
    hide Inv, Finished, Classify;
    forall later | Clearing !in later
      ensures AttemptsKept(cat, s, later, id) && LogOf(After(cat, s, later).store, id) == LogOf(s.store, id)
    {
      FinishedStaysFinished(cat, s, later, id);
    }
    var e := Engine(s.windows, s.store, s.weights, 0, 0);
    var t := Unused(s.threads.Keys);
    report := ReportAlone(cat, o, e, id, p, true, s.threads, t);
  }

  /** A number above all that are in use. */
  lemma {:induction false} Unused(used: set<nat>) returns (t: nat)
    ensures forall u <- used :: u < t
  {
    t := 0;
    if used != {} {
      var u :| u in used;
      var above := Unused(used - {u});
      t := if u < above then above else u + 1;
      forall v <- used ensures v < t {
        assert v == u || v in used - {u};
      }
    }
  }

  // ---------- a recovery that is lost ----------

  /** Even of a finished record the status can fall back: for every soft decline whose attempts all
      fail, a success and a failure reported at the same time can first recover the record and then,
      with its attempts as they were, take it back to EXHAUSTED. */
  lemma ReportUndoesRecovery(cat: Catalog, o: World.Oracle, event: FailureEvent, p: Processor, q: Processor)
      returns (first: seq<Action>, second: seq<Action>)
    requires Usable(cat) && Classify(event).decline == SoftDecline && forall i :: !o.coin(i)
    ensures var id, s := event.id, After(cat, EMPTY_SYS, first);
            && Finished(s, id) && s.store.txs[id].status == Recovered
            && var s' := After(cat, s, second);
               && Finished(s', id) && s'.store.txs[id].status == Exhausted
               && s'.store.txs[id].attempts == s.store.txs[id].attempts
  {
    hide After, Process, Record, Learn, Update, Finished, Report, ReportOn;
    var id := event.id;
    FailedForGood(cat, o, event);
    var submit := ProcessAlone(cat, o, INITIAL, event, map[], 0);
    var e1 := Process(cat, o, INITIAL, event).0;
    var tx, e2 := e1.store.txs[id], Report(o, e1, id, q, true).0;
    var threads: map<nat, Thread> := map[0 := Done];
    var racing: seq<Action>;
    racing, second := RacingReports(cat, o, e1, id, p, q, threads, 1, 2);
    AfterBoth(cat, EMPTY_SYS, submit, racing);
    first := submit + racing;
    FallBack(o, e1, id, p, q);
    OneCopyLeft(e2, id, tx, p, threads[1 := Fetched(tx, p, false)][2 := Done]);
    OneCopyLeft(ReportOn(o, e2, tx, p, false).0, id, tx, p, threads[1 := Fetched(tx, p, false)][2 := Done][1 := Done]);
  }

  /** A failure report fetches its copy, a success report runs, the failure report goes on. */
  lemma RacingReports(cat: Catalog, o: World.Oracle, e: Engine, id: Id, p: Processor, q: Processor,
                      threads: map<nat, Thread>, t: nat, u: nat)
      returns (first: seq<Action>, second: seq<Action>)
    requires id in e.store.txs && t !in threads && u !in threads && t != u
    ensures var tx, e2 := e.store.txs[id], Report(o, e, id, q, true).0;
            var between := threads[t := Fetched(tx, p, false)][u := Done];
            && After(cat, Of(e, threads), first) == Of(e2, between)
            && After(cat, Of(e2, between), second) == Of(ReportOn(o, e2, tx, p, false).0, between[t := Done])
  {
    hide After, Record, Learn, Update, Report, ReportOn;
    var tx, e2 := e.store.txs[id], Report(o, e, id, q, true).0;
    var fetched := threads[t := Fetched(tx, p, false)];
    var fetch := FetchAlone(cat, e, id, p, false, threads, t);
    var report := ReportAlone(cat, o, e, id, q, true, fetched, u);
    AfterBoth(cat, Of(e, threads), fetch, report);
    first := fetch + report;
    second := ReportOnAlone(cat, o, e2, tx, p, false, fetched[u := Done], t);
  }

  /** The store through a success report and the write of a copy from before it. */
  lemma FallBack(o: World.Oracle, e: Engine, id: Id, p: Processor, q: Processor)
    requires id in e.store.txs && e.store.txs[id].id == id && e.store.txs[id].status == Exhausted
    ensures var e2 := Report(o, e, id, q, true).0;
            && id in e2.store.txs && e2.store.txs[id].status == Recovered
            && e2.store.txs[id].attempts == e.store.txs[id].attempts
            && ReportOn(o, e2, e.store.txs[id], p, false).0.store.txs == e2.store.txs[id := e.store.txs[id]]
  {
  }

  lemma OneCopyLeft(e: Engine, id: Id, tx: Tx, p: Processor, threads: map<nat, Thread>)
    requires id in e.store.txs && e.store.txs[id].attempts == tx.attempts != []
    requires forall t <- threads :: threads[t] == Done || threads[t] == Fetched(tx, p, false)
    ensures Finished(Of(e, threads), id)
  {
  }

  lemma FailedForGood(cat: Catalog, o: World.Oracle, event: FailureEvent)
    requires Usable(cat) && Classify(event).decline == SoftDecline && forall i :: !o.coin(i)
    ensures var s := Process(cat, o, INITIAL, event).0.store;
            event.id in s.txs && s.txs[event.id].id == event.id
            && s.txs[event.id].status == Exhausted && s.txs[event.id].attempts != []
  {
    var e1, tx := NoteFailure(o, INITIAL, event), NewTx(event);
    var e2 := e1.(store := Save(EMPTY, tx));
    hide Record;
    assert LogOf(e2.store, tx.id) == [] == Audit(tx);
    ChainSettles(cat, o, e2, tx);
    FailingChainIsExhausted(cat, o, e2, tx);
  }

  lemma {:induction false} FailingChainIsExhausted(cat: Catalog, o: World.Oracle, e: Engine, tx: Tx)
    requires forall i :: !o.coin(i)
    ensures Chain(cat, o, e, tx).1.status == Exhausted
    decreases MAX_RETRIES - tx.retryCount
  {
    if tx.retryCount < MAX_RETRIES {
      hide PlanRetry, Learn, Log;
      var plan := PlanRetry(cat, o, e, tx.event, tx.classification.strategy);
      if plan.target.Some? {
        var (e1, tx1) := TryOnce(cat, o, e, tx, plan);
        FailingChainIsExhausted(cat, o, e1, tx1);
      }
    }
  }
}
