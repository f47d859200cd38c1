/** What is read while calls run concurrently: listings, the two metrics reports, and health. */
module Observations {
  import opened Domain
  import opened Health
  import opened Ledger
  import RetryEngine
  import opened Invariant
  import Conservation
  import Metrics
  import opened Reports
  import opened History
  import opened Interleaving
  import Evidence
  import Tallies

  // ---------- listings ----------

  lemma NextEnumerates(cat: Catalog, s: Sys, a: Action)
    requires Enumerated(s.store)
    ensures Enumerated(Next(cat, s, a).store)
  {
    hide Enumerated, Save, Update, Record, RouteTo, Classify;
    if a.Act? && a.t in s.threads {
      var th := s.threads[a.t];
      if th.Noted? {
        SaveKeepsEnumeration(s.store, RetryEngine.NewTx(th.event));
      } else if th.Closing? || th.Writing? {
        UpdateKeepsEnumeration(s.store, th.tx);
      } else if th.Learned? && th.tx.attempts != [] {
        LogKeepsEnumeration(s.store, RetryEngine.DecisionOf(th.tx, Last(th.tx)));
      }
    }
    NothingEnumerated();
  }

  lemma LogKeepsEnumeration(s: Store, d: Decision)
    requires Enumerated(s)
    ensures Enumerated(Log(s, d))
  {
  }

  lemma NothingEnumerated()
    ensures Enumerated(EMPTY)
  {
  }

  /** Under every interleaving the order list enumerates the stored records, so all that is proved of
      listings and pages applies. */
  lemma {:induction false} EveryInterleavingIsListed(cat: Catalog, schedule: seq<Action>)
    ensures Enumerated(After(cat, EMPTY_SYS, schedule).store)
        && Conservation.Listed(After(cat, EMPTY_SYS, schedule).store)
  {
    hide Enumerated, Next;
    if schedule == [] {
      NothingEnumerated();
    } else {
      EveryInterleavingIsListed(cat, schedule[..|schedule| - 1]);
      NextEnumerates(cat, After(cat, EMPTY_SYS, schedule[..|schedule| - 1]), schedule[|schedule| - 1]);
    }
    EnumeratedMeans(After(cat, EMPTY_SYS, schedule).store);
  }

  // ---------- where the stored events come from ----------

  ghost predicate SubmittedIn(event: FailureEvent, schedule: seq<Action>) {
    exists i :: 0 <= i < |schedule| && schedule[i].Submitting? && schedule[i].event == event
  }

  /** The event of a call that has not saved it yet. */
  ghost predicate Announced(th: Thread, schedule: seq<Action>) {
    && (th.Arriving? ==> SubmittedIn(th.event, schedule))
    && (th.Noted? ==> SubmittedIn(th.event, schedule))
  }

  ghost predicate AllSubmitted(s: Sys, schedule: seq<Action>) {
    && (forall id <- s.store.txs :: SubmittedIn(s.store.txs[id].event, schedule))
    && (forall t <- s.threads :: Announced(s.threads[t], schedule))
  }

  lemma SubmittedLater(event: FailureEvent, schedule: seq<Action>, a: Action)
    requires SubmittedIn(event, schedule)
    ensures SubmittedIn(event, schedule + [a])
  {
    var i :| 0 <= i < |schedule| && schedule[i].Submitting? && schedule[i].event == event;
    assert (schedule + [a])[i] == schedule[i];
  }

  lemma AllSubmittedLater(s: Sys, schedule: seq<Action>, a: Action)
    requires AllSubmitted(s, schedule)
    ensures AllSubmitted(s, schedule + [a])
  {
    forall event | SubmittedIn(event, schedule) ensures SubmittedIn(event, schedule + [a]) {
      SubmittedLater(event, schedule, a);
    }
  }

  /** A new ID is stored only by the call that holds its event. */
  lemma NewRecordIsNoted(cat: Catalog, s: Sys, t: nat, c: Choice, id: Id)
    requires t in s.threads && id !in s.store.txs && id in Next(cat, s, Act(t, c)).store.txs
    ensures s.threads[t].Noted? && Next(cat, s, Act(t, c)).store.txs[id].event == s.threads[t].event
  {
    hide Record, RouteTo, Classify;
  }

  lemma NextIsAnnounced(cat: Catalog, s: Sys, t: nat, c: Choice, schedule: seq<Action>)
    requires t in s.threads && Announced(s.threads[t], schedule)
    ensures Announced(Move(cat, s, s.threads[t], c).1, schedule)
    ensures Move(cat, s, s.threads[t], c).0.threads == s.threads
  {
    hide SubmittedIn, Record, RouteTo, Classify;
  }

  lemma NextSubmitted(cat: Catalog, s: Sys, a: Action, schedule: seq<Action>)
    requires Inv(cat, s) && AllSubmitted(s, schedule)
    ensures AllSubmitted(Next(cat, s, a), schedule + [a])
  {
    var s1, longer := Next(cat, s, a), schedule + [a];
    AllSubmittedLater(s, schedule, a);
    hide Inv, SubmittedIn, Move;
    match a
    case Submitting(t, event) =>
      assert SubmittedIn(event, longer) by { LastIsSubmitted(event, t, schedule); }
    case Confirming(t, id, p, success) =>
    case Clearing =>
    case Act(t, c) =>
      if t in s.threads {
        forall id <- s1.store.txs ensures SubmittedIn(s1.store.txs[id].event, longer) {
          if id in s.store.txs {
            NextKeepsEvents(cat, s, a, id);
          } else {
            NewRecordIsNoted(cat, s, t, c, id);
          }
        }
        NextIsAnnounced(cat, s, t, c, longer);
      }
  }

  lemma LastIsSubmitted(event: FailureEvent, t: nat, schedule: seq<Action>)
    ensures SubmittedIn(event, schedule + [Submitting(t, event)])
  {
    assert (schedule + [Submitting(t, event)])[|schedule|] == Submitting(t, event);
  }

  /** Every stored record comes from an event that was submitted. */
  lemma {:induction false} RecordsWereAnnounced(cat: Catalog, schedule: seq<Action>)
    requires Usable(cat)
    ensures AllSubmitted(After(cat, EMPTY_SYS, schedule), schedule)
  {
    if schedule != [] {
      hide Next, AllSubmitted;
      var front, last := schedule[..|schedule| - 1], schedule[|schedule| - 1];
      RecordsWereAnnounced(cat, front);
      InvKept(cat, EMPTY_SYS, front);
      NextSubmitted(cat, After(cat, EMPTY_SYS, front), last, front);
      assert schedule == front + [last];
    }
  }

  // ---------- metrics ----------

  /** The records of any reported range, at any moment. */
  lemma ObservedRecords(cat: Catalog, schedule: seq<Action>, start: int, end: int)
    requires Usable(cat)
    ensures var s := After(cat, EMPTY_SYS, schedule).store;
            && Conservation.Listed(s)
            && forall tx <- InRange(s, start, end) :: Booked(cat, tx) && SubmittedIn(tx.event, schedule)
  {
    EveryInterleavingIsListed(cat, schedule);
    InvKept(cat, EMPTY_SYS, schedule);
    RecordsWereAnnounced(cat, schedule);
    var sys := After(cat, EMPTY_SYS, schedule);
    hide After, SubmittedIn, Bookkeeping, ThreadOk;
    forall tx <- InRange(sys.store, start, end) ensures Booked(cat, tx) && SubmittedIn(tx.event, schedule) {
      SelectedAreListed(All(sys.store), Within(start, end), tx);
      var i :| 0 <= i < |sys.store.order| && All(sys.store)[i] == tx;
      assert VersionOk(cat, sys.store, Live(sys), sys.store.txs[sys.store.order[i]]);
    }
  }

  /** The recovery report at any moment, with calls in flight: the counts partition, no more recover or
      exhaust than were declined softly, the rate is a ratio, revenue stays within what was at risk, the
      breakdown adds up, and the mean delay is at most 30 seconds. */
  lemma ObservedRecoveryMetrics(cat: Catalog, schedule: seq<Action>, start: int, end: int)
    requires Usable(cat) && forall a <- schedule :: a.Submitting? ==> a.event.amount > 0
    ensures Conservation.Listed(After(cat, EMPTY_SYS, schedule).store)
    ensures var m := Metrics.RecoveryOf(InRange(After(cat, EMPTY_SYS, schedule).store, start, end), start, end);
            && m.hard + m.soft == m.total
            && m.recovered >= 0 && m.exhausted >= 0 && m.recovered + m.exhausted <= m.soft
            && 0.0 <= m.recoveryRate <= 1.0
            && 0 <= m.revenue <= m.atRisk
            && Tallies.TotalOf(m.breakdown) == m.total
            && 0.0 <= m.latency <= 30.0
  {
    hide After;
    ObservedRecords(cat, schedule, start, end);
    Metrics.RecoveryBounds(cat, InRange(After(cat, EMPTY_SYS, schedule).store, start, end), start, end);
  }

  /** Both reports on the real table at any moment, if only its processors were named: they agree, and at
      most 90 cents are spent per soft decline. */
  lemma ObservedReportsReconcile(schedule: seq<Action>, start: int, end: int, health: Processor -> Snapshot)
    requires forall a <- schedule :: a.Submitting? ==> a.event.processor in REAL_CATALOG.names
    ensures Conservation.Listed(After(REAL_CATALOG, EMPTY_SYS, schedule).store)
    ensures var txs := InRange(After(REAL_CATALOG, EMPTY_SYS, schedule).store, start, end);
            var m := Metrics.RecoveryOf(txs, start, end);
            && Over(REAL_CATALOG.names, p => ProcessorOf(txs, p, health(p)).attempts) == m.retries
            && Over(REAL_CATALOG.names, p => ProcessorOf(txs, p, health(p)).cost) == m.cost
            && m.cost <= 90 * m.soft
  {
    hide After;
    RealCatalogOk();
    ObservedRecords(REAL_CATALOG, schedule, start, end);
    assert forall p :: REAL_CATALOG.Cost(p) <= 30;
    ReportsReconcile(REAL_CATALOG, InRange(After(REAL_CATALOG, EMPTY_SYS, schedule).store, start, end), start, end,
                     30, health);
  }

  // ---------- when attempts were planned ----------

  /** The n-th attempt for the ID was planned in a step with this stamp. */
  datatype Planned = Planned(id: Id, n: nat, stamp: int)

  function PlannedBy(cat: Catalog, s: Sys, a: Action): seq<Planned> {
    if a.Act? && a.t in s.threads && s.threads[a.t].Looping? then
      var tx := s.threads[a.t].tx;
      if PlanAndTry(cat, tx, a.choice).Attempted? then [Planned(tx.id, |tx.attempts| + 1, a.choice.stamp)] else []
    else []
  }

  function AllPlanned(cat: Catalog, s: Sys, schedule: seq<Action>): seq<Planned> {
    if schedule == [] then []
    else
      var front := schedule[..|schedule| - 1];
      AllPlanned(cat, s, front) + PlannedBy(cat, After(cat, s, front), schedule[|schedule| - 1])
  }

  /** Every attempt bears the stamp of the step that planned it. */
  ghost predicate IsPlanned(tx: Tx, plans: seq<Planned>) {
    forall i :: 0 <= i < |tx.attempts| ==> Planned(tx.id, i + 1, tx.attempts[i].timestamp) in plans
  }

  ghost predicate HoldsPlanned(th: Thread, plans: seq<Planned>) {
    Owning(th) || th.Fetched? || th.Reporting? || th.Writing? ==> IsPlanned(th.tx, plans)
  }

  ghost predicate EverythingIsPlanned(s: Sys, plans: seq<Planned>) {
    && (forall id <- s.store.txs :: IsPlanned(s.store.txs[id], plans))
    && (forall t <- s.threads :: HoldsPlanned(s.threads[t], plans))
  }

  lemma PlannedLater(s: Sys, plans: seq<Planned>, more: seq<Planned>)
    requires EverythingIsPlanned(s, plans)
    ensures EverythingIsPlanned(s, plans + more)
  {
    assert forall p <- plans :: p in plans + more;
  }

  /** A new attempt is the one just planned. */
  lemma PlanIsPlanned(cat: Catalog, tx: Tx, c: Choice, plans: seq<Planned>)
    requires IsPlanned(tx, plans)
    requires PlanAndTry(cat, tx, c).Attempted? ==> Planned(tx.id, |tx.attempts| + 1, c.stamp) in plans
    ensures HoldsPlanned(PlanAndTry(cat, tx, c), plans)
  {
    hide RouteTo;
  }

  lemma MoveKeepsPlanned(cat: Catalog, s: Sys, t: nat, c: Choice, plans: seq<Planned>)
    requires t in s.threads && EverythingIsPlanned(s, plans)
    requires forall p <- PlannedBy(cat, s, Act(t, c)) :: p in plans
    ensures var (s1, th) := Move(cat, s, s.threads[t], c);
            && s1.threads == s.threads && HoldsPlanned(th, plans)
            && forall id <- s1.store.txs :: IsPlanned(s1.store.txs[id], plans)
  {
    hide PlanAndTry, Record, Classify;
    if s.threads[t].Looping? {
      hide IsPlanned;
      PlanIsPlanned(cat, s.threads[t].tx, c, plans);
    }
  }

  lemma NextKeepsPlanned(cat: Catalog, s: Sys, a: Action, plans: seq<Planned>)
    requires EverythingIsPlanned(s, plans)
    ensures EverythingIsPlanned(Next(cat, s, a), plans + PlannedBy(cat, s, a))
  {
    PlannedLater(s, plans, PlannedBy(cat, s, a));
    hide IsPlanned, Move, PlannedBy;
    if a.Act? && a.t in s.threads {
      MoveKeepsPlanned(cat, s, a.t, a.choice, plans + PlannedBy(cat, s, a));
    }
  }

  lemma {:induction false} AfterIsPlanned(cat: Catalog, schedule: seq<Action>)
    ensures EverythingIsPlanned(After(cat, EMPTY_SYS, schedule), AllPlanned(cat, EMPTY_SYS, schedule))
  {
    if schedule != [] {
      hide Next, EverythingIsPlanned, PlannedBy;
      var front := schedule[..|schedule| - 1];
      AfterIsPlanned(cat, front);
      NextKeepsPlanned(cat, After(cat, EMPTY_SYS, front), schedule[|schedule| - 1], AllPlanned(cat, EMPTY_SYS, front));
    }
  }

  /** Under every interleaving each attempt of each stored record bears the stamp of the step that planned
      it for that record, as its attempt of that number. */
  lemma AttemptsBearTheirStamp(cat: Catalog, schedule: seq<Action>, id: Id, i: nat)
    requires Usable(cat) && id in After(cat, EMPTY_SYS, schedule).store.txs
    requires i < |After(cat, EMPTY_SYS, schedule).store.txs[id].attempts|
    ensures var a := After(cat, EMPTY_SYS, schedule).store.txs[id].attempts[i];
            Planned(id, i + 1, a.timestamp) in AllPlanned(cat, EMPTY_SYS, schedule)
  {
    AfterIsPlanned(cat, schedule);
    InvKept(cat, EMPTY_SYS, schedule);
    hide After, AllPlanned, VersionOk, ThreadOk;
  }

  // ---------- health ----------

  /** What a step should note: the failure of a submission, an attempt, a report. */
  function NotedBy(s: Sys, a: Action): seq<Note> {
    if a.Act? && a.t in s.threads then
      match s.threads[a.t]
      case Arriving(event) => [Note(event.processor, Outcome(event.timestamp, false))]
      case Attempted(tx) =>
        if tx.attempts == [] then []
        else [Note(Last(tx).processor, Outcome(Last(tx).timestamp, Last(tx).success))]
      case Fetched(_, p, success) => [Note(p, Outcome(a.choice.stamp, success))]
      case _ => []
    else []
  }

  /** Everything noted since the last reset, nothing ever dropped. */
  function AllNoted(cat: Catalog, s: Sys, schedule: seq<Action>): Windows {
    if schedule == [] then map[]
    else
      var front, last := schedule[..|schedule| - 1], schedule[|schedule| - 1];
      if Evidence.Clears(After(cat, s, front), last) then map[]
      else NoteAll(AllNoted(cat, s, front), NotedBy(After(cat, s, front), last))
  }

  /** The clock that the steps see does not go back. */
  ghost predicate StepsAdvance(schedule: seq<Action>) {
    forall i, j :: 0 <= i <= j < |schedule| && schedule[i].Act? && schedule[j].Act? ==>
      schedule[i].choice.now <= schedule[j].choice.now
  }

  ghost predicate NotAfter(schedule: seq<Action>, now: int) {
    forall i :: 0 <= i < |schedule| && schedule[i].Act? ==> schedule[i].choice.now <= now
  }

  lemma NoteAgrees(w: Windows, h: Windows, n: Note, now: int)
    requires Agree(w, h, now)
    ensures Agree(Record(w, n.processor, n.outcome.success, n.outcome.timestamp, now), NoteAll(h, [n]), now)
  {
    NoteOne(h, n);
    AgreeAfterRecord(w, h, n.processor, n.outcome.success, n.outcome.timestamp, now, now);
  }

  lemma ActNotes(cat: Catalog, s: Sys, t: nat, c: Choice, h: Windows)
    requires Agree(s.windows, h, c.now)
    ensures Agree(Next(cat, s, Act(t, c)).windows, NoteAll(h, NotedBy(s, Act(t, c))), c.now)
  {
    hide Record, Agree, RouteTo, Classify;
    var notes := NotedBy(s, Act(t, c));
    if notes != [] {
      assert notes == [notes[0]];
      NoteAgrees(s.windows, h, notes[0], c.now);
    }
  }

  lemma {:induction false} AfterNotes(cat: Catalog, schedule: seq<Action>, now: int)
    requires StepsAdvance(schedule) && NotAfter(schedule, now)
    ensures Agree(After(cat, EMPTY_SYS, schedule).windows, AllNoted(cat, EMPTY_SYS, schedule), now)
  {
    if schedule != [] {
      hide Agree, Move;
      var front, last := schedule[..|schedule| - 1], schedule[|schedule| - 1];
      var s, h := After(cat, EMPTY_SYS, front), AllNoted(cat, EMPTY_SYS, front);
      if last.Act? {
        AfterNotes(cat, front, last.choice.now);
        ActNotes(cat, s, last.t, last.choice, h);
        AgreeLater(Next(cat, s, last).windows, NoteAll(h, NotedBy(s, last)), last.choice.now, now);
      } else {
        AfterNotes(cat, front, now);
        NothingAgrees(now);
      }
    }
  }

  lemma NothingAgrees(now: int)
    ensures Agree(map[], map[], now)
  {
  }

  /** Health is conserved under every interleaving: if the clock that the steps see does not go back, every
      processor's health is read as if from the complete history since the last reset of the failures
      submitted for it, the attempts made on it and the outcomes reported for it. */
  lemma ObservedHealthIsConserved(cat: Catalog, schedule: seq<Action>, p: Processor, now: int)
    requires StepsAdvance(schedule) && NotAfter(schedule, now)
    ensures SnapshotOf(After(cat, EMPTY_SYS, schedule).windows, p, now) ==
            SnapshotOf(AllNoted(cat, EMPTY_SYS, schedule), p, now)
  {
    hide After, AllNoted, SnapshotOf;
    AfterNotes(cat, schedule, now);
    AgreeOnSnapshot(After(cat, EMPTY_SYS, schedule).windows, AllNoted(cat, EMPTY_SYS, schedule), p, now, now);
  }
}
