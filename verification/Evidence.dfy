/** Under every interleaving: why a record is RECOVERED, and where every learned outcome comes from. */
module Evidence {
  import opened Domain
  import Health
  import opened Ledger
  import opened Adaptive
  import RetryEngine
  import Invariant
  import opened Tallies
  import opened Interleaving

  /** An outcome that was reported from outside for a stored record and learned from. */
  datatype Told = Told(id: Id, code: Code, processor: Processor, success: bool)

  function ToldBy(s: Sys, a: Action): seq<Told> {
    if a.Act? && a.t in s.threads && s.threads[a.t].Reporting? then
      var th := s.threads[a.t];
      [Told(th.tx.id, th.tx.event.code, th.processor, th.success)]
    else []
  }

  /** All that was reported, in the order of the steps. */
  function AllTold(cat: Catalog, s: Sys, schedule: seq<Action>): seq<Told> {
    if schedule == [] then []
    else
      var front := schedule[..|schedule| - 1];
      AllTold(cat, s, front) + ToldBy(After(cat, s, front), schedule[|schedule| - 1])
  }

  predicate Clears(s: Sys, a: Action) {
    a.Clearing? && Idle(s)
  }

  /** What was reported since the last reset. */
  function ToldSince(cat: Catalog, s: Sys, schedule: seq<Action>): seq<Told> {
    if schedule == [] then []
    else
      var front, last := schedule[..|schedule| - 1], schedule[|schedule| - 1];
      if Clears(After(cat, s, front), last) then []
      else ToldSince(cat, s, front) + ToldBy(After(cat, s, front), last)
  }

  // ---------- why RECOVERED ----------

  ghost predicate Confirmed(told: seq<Told>, id: Id) {
    exists k :: 0 <= k < |told| && told[k].id == id && told[k].success
  }

  ghost predicate Explained(r: Tx, told: seq<Told>) {
    r.status == Recovered ==> Invariant.LastSucceeded(r) || Confirmed(told, r.id)
  }

  /** The record that the call may write. */
  ghost predicate Explains(th: Thread, told: seq<Told>) {
    th.Closing? || th.Fetched? || th.Reporting? || th.Writing? ==> Explained(th.tx, told)
  }

  ghost predicate AllExplained(s: Sys, told: seq<Told>) {
    && (forall id <- s.store.txs :: s.store.txs[id].id == id && Explained(s.store.txs[id], told))
    && (forall t <- s.threads :: Explains(s.threads[t], told))
  }

  lemma ExplainedLater(r: Tx, told: seq<Told>, more: seq<Told>)
    requires Explained(r, told)
    ensures Explained(r, told + more)
  {
    if Confirmed(told, r.id) {
      var k :| 0 <= k < |told| && told[k].id == r.id && told[k].success;
      assert (told + more)[k] == told[k];
    }
  }

  lemma MoveExplains(cat: Catalog, s: Sys, t: nat, c: Choice, told: seq<Told>)
    requires t in s.threads && AllExplained(s, told)
    ensures var (s1, th), told1 := Move(cat, s, s.threads[t], c), told + ToldBy(s, Act(t, c));
            && s1.threads == s.threads && Explains(th, told1)
            && forall id <- s1.store.txs :: s1.store.txs[id].id == id && Explained(s1.store.txs[id], told1)
  {
    hide Health.Record, Learn, RouteTo, Confirmed, Classify;
    var more, th := ToldBy(s, Act(t, c)), s.threads[t];
    forall id <- s.store.txs ensures Explained(s.store.txs[id], told + more) {
      ExplainedLater(s.store.txs[id], told, more);
    }
    if th.Closing? || th.Fetched? || th.Reporting? || th.Writing? {
      ExplainedLater(th.tx, told, more);
    }
    if th.Reporting? && th.success {
      assert Confirmed(told + more, th.tx.id) by { TellingConfirms(told, more[0]); }
    }
  }

  lemma TellingConfirms(told: seq<Told>, t: Told)
    requires t.success
    ensures Confirmed(told + [t], t.id)
  {
    assert (told + [t])[|told|] == t;
  }

  lemma NextExplains(cat: Catalog, s: Sys, a: Action, told: seq<Told>)
    requires AllExplained(s, told)
    ensures AllExplained(Next(cat, s, a), if Clears(s, a) then [] else told + ToldBy(s, a))
  {
    hide Move, Explained;
    assert told + [] == told;
    if a.Act? && a.t in s.threads {
      MoveExplains(cat, s, a.t, a.choice, told);
      forall u <- s.threads ensures Explains(s.threads[u], told + ToldBy(s, a)) {
        ExplainsLater(s.threads[u], told, ToldBy(s, a));
      }
    }
  }

  lemma ExplainsLater(th: Thread, told: seq<Told>, more: seq<Told>)
    requires Explains(th, told)
    ensures Explains(th, told + more)
  {
    if th.Closing? || th.Fetched? || th.Reporting? || th.Writing? {
      ExplainedLater(th.tx, told, more);
    }
  }

  lemma {:induction false} AfterExplains(cat: Catalog, schedule: seq<Action>)
    ensures AllExplained(After(cat, EMPTY_SYS, schedule), ToldSince(cat, EMPTY_SYS, schedule))
  {
    if schedule != [] {
      hide Next, AllExplained, Clears;
      var front := schedule[..|schedule| - 1];
      AfterExplains(cat, front);
      NextExplains(cat, After(cat, EMPTY_SYS, front), schedule[|schedule| - 1], ToldSince(cat, EMPTY_SYS, front));
    }
  }

  /** Under every interleaving a RECOVERED record has a successful last attempt, or a success was
      reported for its ID from outside and learned from, since the last reset. */
  lemma RecoveredIsExplained(cat: Catalog, schedule: seq<Action>, id: Id)
    requires id in After(cat, EMPTY_SYS, schedule).store.txs
    requires After(cat, EMPTY_SYS, schedule).store.txs[id].status == Recovered
    ensures Invariant.LastSucceeded(After(cat, EMPTY_SYS, schedule).store.txs[id])
            || Confirmed(ToldSince(cat, EMPTY_SYS, schedule), id)
  {
    hide After, ToldSince;
    AfterExplains(cat, schedule);
  }

  // ---------- where learned outcomes come from ----------

  /** The decisions that target the processor. */
  function Hits(log: seq<Decision>, p: Processor): int {
    if log == [] then 0 else Hits(log[..|log| - 1], p) + if log[|log| - 1].target == p then 1 else 0
  }

  /** Of one decision log, what counts for the code and the processor. */
  function HitsOf(s: Store, id: Id, c: Code, p: Processor): int {
    if id in s.txs && s.txs[id].event.code == c then Hits(LogOf(s, id), p) else 0
  }

  ghost function Logged(s: Store, c: Code, p: Processor): map<Id, int> {
    map id | id in s.logs :: HitsOf(s, id, c, p)
  }

  /** One for a call that has learned from its attempt and not yet logged it. */
  function Pending(th: Thread, c: Code, p: Processor): int {
    if th.Learned? && th.tx.attempts != [] && th.tx.event.code == c && Last(th.tx).processor == p then 1 else 0
  }

  ghost function InFlight(threads: map<nat, Thread>, c: Code, p: Processor): map<nat, int> {
    map t | t in threads :: Pending(threads[t], c, p)
  }

  /** How many outcomes there are for the code and the processor: all, or the successes only. */
  function Outcomes(lessons: seq<Lesson>, c: Code, p: Processor, wins: bool): nat {
    Count(lessons, c, p, if wins then {true} else {true, false})
  }

  predicate Counts(l: Lesson, c: Code, p: Processor, wins: bool) {
    l.code == c && l.processor == p && (wins ==> l.success)
  }

  lemma OneOutcome(l: Lesson, c: Code, p: Processor, wins: bool)
    ensures Outcomes([l], c, p, wins) == if Counts(l, c, p, wins) then 1 else 0
  {
    assert [l][..|[l]| - 1] == [];
    if wins {
      assert Count([], c, p, {true}) == 0;
    } else {
      assert Count([], c, p, {true, false}) == 0;
    }
  }

  lemma OutcomesBoth(some: seq<Lesson>, more: seq<Lesson>, c: Code, p: Processor, wins: bool)
    ensures Outcomes(some + more, c, p, wins) == Outcomes(some, c, p, wins) + Outcomes(more, c, p, wins)
  {
    CountConcat(some, more, c, p, if wins then {true} else {true, false});
  }

  function Taught(told: seq<Told>): seq<Lesson> {
    seq(|told|, i requires 0 <= i < |told| => Lesson(told[i].code, told[i].processor, told[i].success))
  }

  function ToldOn(told: seq<Told>, c: Code, p: Processor, wins: bool): nat {
    Outcomes(Taught(told), c, p, wins)
  }

  lemma ToldOnBoth(told: seq<Told>, more: seq<Told>, c: Code, p: Processor, wins: bool)
    ensures ToldOn(told + more, c, p, wins) == ToldOn(told, c, p, wins) + ToldOn(more, c, p, wins)
  {
    hide Outcomes;
    assert Taught(told + more) == Taught(told) + Taught(more);
    OutcomesBoth(Taught(told), Taught(more), c, p, wins);
  }

  lemma ToldOnOne(t: Told, c: Code, p: Processor, wins: bool)
    ensures ToldOn([t], c, p, wins) == if Counts(Lesson(t.code, t.processor, t.success), c, p, wins) then 1 else 0
  {
    hide Outcomes;
    assert Taught([t]) == [Lesson(t.code, t.processor, t.success)];
    OneOutcome(Lesson(t.code, t.processor, t.success), c, p, wins);
  }

  /** The logged decisions that resets have dropped. */
  ghost function Dropped(cat: Catalog, s: Sys, schedule: seq<Action>, c: Code, p: Processor): int {
    if schedule == [] then 0
    else
      var front, last := schedule[..|schedule| - 1], schedule[|schedule| - 1];
      var before := After(cat, s, front);
      Dropped(cat, s, front, c, p) + if Clears(before, last) then TotalOf(Logged(before.store, c, p)) else 0
  }

  ghost predicate Balanced(s: Sys, told: seq<Told>, dropped: int, c: Code, p: Processor) {
    RecordOf(s.weights, c, p).total ==
    TotalOf(Logged(s.store, c, p)) + dropped + TotalOf(InFlight(s.threads, c, p)) + ToldOn(told, c, p, false)
  }

  /** Only the moving call's share changes. */
  lemma InFlightAfter(threads: map<nat, Thread>, t: nat, th: Thread, c: Code, p: Processor)
    ensures TotalOf(InFlight(threads[t := th], c, p)) ==
            TotalOf(InFlight(threads, c, p)) - (if t in threads then Pending(threads[t], c, p) else 0)
                + Pending(th, c, p)
  {
    TotalWith(InFlight(threads, c, p), t, Pending(th, c, p));
    assert InFlight(threads[t := th], c, p) == InFlight(threads, c, p)[t := Pending(th, c, p)];
  }

  lemma HitsOne(log: seq<Decision>, d: Decision, p: Processor)
    ensures Hits(log + [d], p) == Hits(log, p) + if d.target == p then 1 else 0
  {
    assert (log + [d])[..|log|] == log;
  }

  lemma HitsAfter(s: Store, d: Decision, id: Id, c: Code, p: Processor)
    ensures HitsOf(Log(s, d), id, c, p) ==
            HitsOf(s, id, c, p)
            + if id == d.id && id in s.txs && s.txs[id].event.code == c && d.target == p then 1 else 0
    ensures id !in s.logs ==> HitsOf(s, id, c, p) == 0
  {
    hide Hits, Log, LogOf;
    LogAppends(s, d, id);
    HitsOne(LogOf(s, id), d, p);
    NoLogNoHits(s, id, p);
  }

  lemma NoLogNoHits(s: Store, id: Id, p: Processor)
    ensures id !in s.logs ==> Hits(LogOf(s, id), p) == 0
  {
  }

  lemma LoggedAfter(s: Store, d: Decision, c: Code, p: Processor)
    requires d.id in s.txs
    ensures TotalOf(Logged(Log(s, d), c, p)) ==
            TotalOf(Logged(s, c, p)) + if s.txs[d.id].event.code == c && d.target == p then 1 else 0
  {
    hide HitsOf, TotalOf;
    var s1, k := Log(s, d), d.id;
    forall id ensures HitsOf(s1, id, c, p) == HitsOf(s, id, c, p) || id == k {
      HitsAfter(s, d, id, c, p);
    }
    HitsAfter(s, d, k, c, p);
    TotalWith(Logged(s, c, p), k, HitsOf(s1, k, c, p));
    assert Logged(s1, c, p) == Logged(s, c, p)[k := HitsOf(s1, k, c, p)];
  }

  /** Saving and updating leave the logged decisions and their codes. */
  lemma LoggedKept(s: Store, s1: Store, c: Code, p: Processor)
    requires s1.logs == s.logs && s.logs.Keys <= s.txs.Keys
    requires forall id <- s.txs :: id in s1.txs && s1.txs[id].event == s.txs[id].event
    ensures Logged(s1, c, p) == Logged(s, c, p)
  {
  }

  /** A chain that has an attempt to learn from or to log, and a stored record with its event. */
  lemma AttemptIsHeld(cat: Catalog, s: Sys, t: nat)
    requires Inv(cat, s) && t in s.threads
    requires s.threads[t].Attempted? || s.threads[t].HealthNoted? || s.threads[t].Learned?
    ensures var tx := s.threads[t].tx;
            tx.attempts != [] && tx.id in s.store.txs && s.store.txs[tx.id].event == tx.event
  {
    assert ThreadOk(cat, s.store, Live(s), s.threads[t]);
  }

  /** The step that logs an attempt. */
  lemma LogStep(cat: Catalog, s: Sys, t: nat, ch: Choice) returns (d: Decision, th: Thread)
    requires t in s.threads && s.threads[t].Learned? && s.threads[t].tx.attempts != []
    ensures d.id == s.threads[t].tx.id && d.target == Last(s.threads[t].tx).processor
    ensures !th.Learned? && Next(cat, s, Act(t, ch)) == Put(s.(store := Log(s.store, d)), t, th)
  {
    hide RetryEngine.Close, Log;
    var tx := s.threads[t].tx;
    d := RetryEngine.DecisionOf(tx, Last(tx));
    th := if Last(tx).success then Closing(RetryEngine.Close(tx, true, ch.now)) else Looping(tx);
  }

  lemma LogBalances(cat: Catalog, s: Sys, t: nat, ch: Choice, told: seq<Told>, dropped: int, c: Code, p: Processor)
    requires Inv(cat, s) && Balanced(s, told, dropped, c, p) && t in s.threads && s.threads[t].Learned?
    ensures Balanced(Next(cat, s, Act(t, ch)), told, dropped, c, p)
  {
    hide Inv, TotalOf, Logged, InFlight, RecordOf, ToldOn, Log, Next;
    AttemptIsHeld(cat, s, t);
    var d, th := LogStep(cat, s, t, ch);
    LoggedAfter(s.store, d, c, p);
    InFlightAfter(s.threads, t, th, c, p);
  }

  lemma LearnBalances(cat: Catalog, s: Sys, t: nat, ch: Choice, told: seq<Told>, dropped: int, c: Code, p: Processor)
    requires Inv(cat, s) && Balanced(s, told, dropped, c, p) && t in s.threads && s.threads[t].HealthNoted?
    ensures Balanced(Next(cat, s, Act(t, ch)), told, dropped, c, p)
  {
    hide Inv, TotalOf, Logged, InFlight, Learn, RecordOf, ToldOn;
    AttemptIsHeld(cat, s, t);
    var tx := s.threads[t].tx;
    var code, a := tx.event.code, Last(tx);
    assert Next(cat, s, Act(t, ch)) ==
        Put(s.(weights := Learn(s.weights, code, a.processor, a.success)), t, Learned(tx));
    hide Next;
    LearnChangesOneRecord(s.weights, code, a.processor, a.success, c, p);
    InFlightAfter(s.threads, t, Learned(tx), c, p);
  }

  lemma ReportBalances(cat: Catalog, s: Sys, t: nat, ch: Choice, told: seq<Told>, dropped: int, c: Code, p: Processor)
    requires Balanced(s, told, dropped, c, p) && t in s.threads && s.threads[t].Reporting?
    ensures Balanced(Next(cat, s, Act(t, ch)), told + ToldBy(s, Act(t, ch)), dropped, c, p)
  {
    hide TotalOf, Logged, InFlight, Learn, RetryEngine.Reported, RecordOf, ToldOn;
    var th := s.threads[t];
    var s1 := s.(weights := Learn(s.weights, th.tx.event.code, th.processor, th.success));
    var written := Writing(RetryEngine.Reported(th.tx, th.success, ch.stamp));
    assert Next(cat, s, Act(t, ch)) == Put(s1, t, written);
    hide Next;
    LearnChangesOneRecord(s.weights, th.tx.event.code, th.processor, th.success, c, p);
    var report := Told(th.tx.id, th.tx.event.code, th.processor, th.success);
    ToldOnBoth(told, [report], c, p, false);
    ToldOnOne(report, c, p, false);
    InFlightAfter(s.threads, t, written, c, p);
  }

  /** The steps that neither learn nor log. */
  lemma OtherMove(cat: Catalog, s: Sys, th: Thread, ch: Choice, c: Code, p: Processor)
    requires !th.Learned? && !th.HealthNoted? && !th.Reporting?
    ensures var (s1, th1) := Move(cat, s, th, ch);
            s1.threads == s.threads && s1.weights == s.weights && s1.store.logs == s.store.logs
                && Pending(th1, c, p) == 0
  {
    hide RouteTo, Health.Record, Classify;
  }

  lemma OtherBalances(cat: Catalog, s: Sys, t: nat, ch: Choice, told: seq<Told>, dropped: int, c: Code, p: Processor)
    requires Inv(cat, s) && Balanced(s, told, dropped, c, p) && t in s.threads
    requires var th := s.threads[t]; !th.Learned? && !th.HealthNoted? && !th.Reporting?
    ensures Balanced(Next(cat, s, Act(t, ch)), told, dropped, c, p)
  {
    hide VersionOk, ThreadOk, Move, TotalOf, Logged, InFlight, RecordOf, ToldOn;
    var (s1, th) := Move(cat, s, s.threads[t], ch);
    OtherMove(cat, s, s.threads[t], ch, c, p);
    forall id <- s.store.txs ensures id in s1.store.txs && s1.store.txs[id].event == s.store.txs[id].event {
      NextKeepsEvents(cat, s, Act(t, ch), id);
    }
    LoggedKept(s.store, s1.store, c, p);
    InFlightAfter(s.threads, t, th, c, p);
  }

  lemma ClearingBalances(cat: Catalog, s: Sys, told: seq<Told>, dropped: int, c: Code, p: Processor)
    requires Balanced(s, told, dropped, c, p) && Idle(s)
    ensures Balanced(Next(cat, s, Clearing), told, dropped + TotalOf(Logged(s.store, c, p)), c, p)
  {
    assert Logged(EMPTY, c, p) == map[];
  }

  lemma NextBalances(cat: Catalog, s: Sys, a: Action, told: seq<Told>, dropped: int, c: Code, p: Processor)
    requires Inv(cat, s) && Balanced(s, told, dropped, c, p)
    ensures Balanced(Next(cat, s, a), told + ToldBy(s, a),
                     dropped + if Clears(s, a) then TotalOf(Logged(s.store, c, p)) else 0, c, p)
  {
    hide Inv, TotalOf, InFlight, ToldOn, Logged, RecordOf;
    assert told + [] == told;
    match a
    case Submitting(t, event) => InFlightAfter(s.threads, t, Arriving(event), c, p);
    case Confirming(t, id, q, success) => InFlightAfter(s.threads, t, Asking(id, q, success), c, p);
    case Clearing =>
      if Idle(s) {
        ClearingBalances(cat, s, told, dropped, c, p);
      }
    case Act(t, ch) =>
      if t !in s.threads {
        assert Next(cat, s, a) == s;
      } else {
        hide Next, Balanced;
        if s.threads[t].Learned? {
          LogBalances(cat, s, t, ch, told, dropped, c, p);
        } else if s.threads[t].HealthNoted? {
          LearnBalances(cat, s, t, ch, told, dropped, c, p);
        } else if s.threads[t].Reporting? {
          ReportBalances(cat, s, t, ch, told, dropped, c, p);
        } else {
          OtherBalances(cat, s, t, ch, told, dropped, c, p);
        }
      }
  }

  lemma {:induction false} AfterBalances(cat: Catalog, schedule: seq<Action>, c: Code, p: Processor)
    requires Invariant.Usable(cat)
    ensures Balanced(After(cat, EMPTY_SYS, schedule), AllTold(cat, EMPTY_SYS, schedule),
                     Dropped(cat, EMPTY_SYS, schedule, c, p), c, p)
  {
    hide Next, Inv, Balanced, Clears, Logged, TotalOf;
    if schedule == [] {
      NothingBalances(c, p);
    } else {
      var front := schedule[..|schedule| - 1];
      AfterBalances(cat, front, c, p);
      InvKept(cat, EMPTY_SYS, front);
      NextBalances(cat, After(cat, EMPTY_SYS, front), schedule[|schedule| - 1],
                   AllTold(cat, EMPTY_SYS, front), Dropped(cat, EMPTY_SYS, front, c, p), c, p);
    }
  }

  lemma NothingBalances(c: Code, p: Processor)
    ensures Balanced(EMPTY_SYS, [], 0, c, p)
  {
    assert Logged(EMPTY, c, p) == map[] && InFlight(map[], c, p) == map[];
  }

  /** Learning is conserved under every interleaving: for each code and processor the learned total is
      the logged decisions for that code that target it, those that resets have dropped included, plus the
      attempts learned from and not yet logged, plus the outcomes reported from outside. It holds even
      where a record has lost its attempts to a stale write. */
  lemma LearningIsConserved(cat: Catalog, schedule: seq<Action>, c: Code, p: Processor)
    requires Invariant.Usable(cat)
    ensures var s := After(cat, EMPTY_SYS, schedule);
            RecordOf(s.weights, c, p).total ==
            TotalOf(Logged(s.store, c, p)) + Dropped(cat, EMPTY_SYS, schedule, c, p)
            + TotalOf(InFlight(s.threads, c, p)) + ToldOn(AllTold(cat, EMPTY_SYS, schedule), c, p, false)
  {
    hide After;
    AfterBalances(cat, schedule, c, p);
  }

  // ---------- every attempt that is made ----------

  /** The attempt that a planning step makes. */
  function MadeBy(cat: Catalog, s: Sys, a: Action): seq<Lesson> {
    if a.Act? && a.t in s.threads && s.threads[a.t].Looping? then
      var tx := s.threads[a.t].tx;
      var target := RouteTo(cat, tx, a.choice);
      if tx.retryCount >= MAX_RETRIES || target.None? then []
      else [Lesson(tx.event.code, target.value, a.choice.success)]
    else []
  }

  function AllMade(cat: Catalog, s: Sys, schedule: seq<Action>): seq<Lesson> {
    if schedule == [] then []
    else
      var front := schedule[..|schedule| - 1];
      AllMade(cat, s, front) + MadeBy(cat, After(cat, s, front), schedule[|schedule| - 1])
  }

  /** One for a call whose attempt counts and is not yet learned from. */
  function Unlearned(th: Thread, c: Code, p: Processor, wins: bool): nat {
    if (th.Attempted? || th.HealthNoted?) && th.tx.attempts != [] && Counts(LessonOf(th.tx), c, p, wins) then 1 else 0
  }

  function LessonOf(tx: Tx): Lesson
    requires tx.attempts != []
  {
    Lesson(tx.event.code, Last(tx).processor, Last(tx).success)
  }

  ghost function Underway(threads: map<nat, Thread>, c: Code, p: Processor, wins: bool): map<nat, int> {
    map t | t in threads :: Unlearned(threads[t], c, p, wins)
  }

  function LearnedOf(a: Weights, c: Code, p: Processor, wins: bool): nat {
    if wins then RecordOf(a, c, p).successes else RecordOf(a, c, p).total
  }

  ghost predicate Accounted(s: Sys, made: seq<Lesson>, told: seq<Told>, c: Code, p: Processor, wins: bool) {
    LearnedOf(s.weights, c, p, wins) + TotalOf(Underway(s.threads, c, p, wins)) ==
    Outcomes(made, c, p, wins) + ToldOn(told, c, p, wins)
  }

  lemma UnderwayAfter(threads: map<nat, Thread>, t: nat, th: Thread, c: Code, p: Processor, wins: bool)
    ensures TotalOf(Underway(threads[t := th], c, p, wins)) ==
            TotalOf(Underway(threads, c, p, wins))
            - (if t in threads then Unlearned(threads[t], c, p, wins) else 0) + Unlearned(th, c, p, wins)
  {
    hide Unlearned;
    TotalWith(Underway(threads, c, p, wins), t, Unlearned(th, c, p, wins));
    assert Underway(threads[t := th], c, p, wins) == Underway(threads, c, p, wins)[t := Unlearned(th, c, p, wins)];
  }

  lemma LearnedAfter(a: Weights, l: Lesson, c: Code, p: Processor, wins: bool)
    ensures LearnedOf(Learn(a, l.code, l.processor, l.success), c, p, wins) ==
            LearnedOf(a, c, p, wins) + if Counts(l, c, p, wins) then 1 else 0
  {
    hide Learn, RecordOf;
    LearnChangesOneRecord(a, l.code, l.processor, l.success, c, p);
  }

  /** What one step of a call does to the attempts that are made, under way and learned from. */
  ghost predicate StepAccounts(cat: Catalog, s: Sys, th: Thread, s1: Sys, th1: Thread, made: seq<Lesson>,
                               told: seq<Told>,
                               c: Code, p: Processor, wins: bool) {
    && s1.threads == s.threads
    && LearnedOf(s1.weights, c, p, wins) + Unlearned(th1, c, p, wins) ==
       LearnedOf(s.weights, c, p, wins) + Unlearned(th, c, p, wins) + Outcomes(made, c, p, wins)
           + ToldOn(told, c, p, wins)
  }

  /** A plan makes the attempt that the call then has under way. */
  lemma PlanMakes(cat: Catalog, s: Sys, t: nat, ch: Choice)
    requires t in s.threads && s.threads[t].Looping?
    ensures var th1, made := PlanAndTry(cat, s.threads[t].tx, ch), MadeBy(cat, s, Act(t, ch));
            if made == [] then !th1.Attempted? && !th1.HealthNoted?
            else th1.Attempted? && th1.tx.attempts != [] && made == [LessonOf(th1.tx)]
  {
    hide RouteTo;
  }

  lemma PlanAccounts(cat: Catalog, s: Sys, t: nat, ch: Choice, c: Code, p: Processor, wins: bool)
    requires t in s.threads && s.threads[t].Looping?
    ensures var th1 := PlanAndTry(cat, s.threads[t].tx, ch);
            StepAccounts(cat, s, s.threads[t], s, th1, MadeBy(cat, s, Act(t, ch)), [], c, p, wins)
  {
    hide PlanAndTry, MadeBy, LearnedOf, Outcomes, Counts, LessonOf;
    PlanMakes(cat, s, t, ch);
    assert Taught([]) == [];
    NoOutcomes(c, p, wins);
    var th1 := PlanAndTry(cat, s.threads[t].tx, ch);
    if th1.Attempted? {
      OneOutcome(LessonOf(th1.tx), c, p, wins);
    }
  }

  lemma NoOutcomes(c: Code, p: Processor, wins: bool)
    ensures Outcomes([], c, p, wins) == 0
  {
  }

  lemma LearnAccounts(cat: Catalog, s: Sys, tx: Tx, c: Code, p: Processor, wins: bool)
    requires tx.attempts != []
    ensures var l := LessonOf(tx);
            var s1 := s.(weights := Learn(s.weights, l.code, l.processor, l.success));
            StepAccounts(cat, s, HealthNoted(tx), s1, Learned(tx), [], [], c, p, wins)
  {
    hide LearnedOf, Outcomes, Counts, Learn;
    assert Taught([]) == [];
    NoOutcomes(c, p, wins);
    LearnedAfter(s.weights, LessonOf(tx), c, p, wins);
  }

  lemma ReportAccounts(cat: Catalog, s: Sys, th: Thread, written: Tx, c: Code, p: Processor, wins: bool)
    requires th.Reporting?
    ensures var s1 := s.(weights := Learn(s.weights, th.tx.event.code, th.processor, th.success));
            StepAccounts(cat, s, th, s1, Writing(written), [],
                         [Told(th.tx.id, th.tx.event.code, th.processor, th.success)], c, p, wins)
  {
    hide LearnedOf, Outcomes, Counts, Learn, ToldOn;
    NoOutcomes(c, p, wins);
    ToldOnOne(Told(th.tx.id, th.tx.event.code, th.processor, th.success), c, p, wins);
    LearnedAfter(s.weights, Lesson(th.tx.event.code, th.processor, th.success), c, p, wins);
  }

  /** The steps that make nothing and learn nothing. */
  lemma RestAccounts(cat: Catalog, s: Sys, th: Thread, ch: Choice, c: Code, p: Processor, wins: bool)
    requires !th.Looping? && !th.HealthNoted? && !th.Reporting?
    requires th.Attempted? ==> th.tx.attempts != []
    ensures var (s1, th1) := Move(cat, s, th, ch); StepAccounts(cat, s, th, s1, th1, [], [], c, p, wins)
  {
    hide LearnedOf, Outcomes, Counts, Health.Record, Classify, LessonOf;
    assert Taught([]) == [];
    NoOutcomes(c, p, wins);
  }

  lemma MoveAccounts(cat: Catalog, s: Sys, t: nat, ch: Choice, c: Code, p: Processor, wins: bool)
    requires Inv(cat, s) && t in s.threads
    ensures var (s1, th1) := Move(cat, s, s.threads[t], ch);
            StepAccounts(cat, s, s.threads[t], s1, th1, MadeBy(cat, s, Act(t, ch)), ToldBy(s, Act(t, ch)), c, p, wins)
  {
    hide Inv, StepAccounts, RouteTo, PlanAndTry, Health.Record, Learn, Classify, Log, Save, Update,
        RetryEngine.Reported;
    var th := s.threads[t];
    if th.HealthNoted? {
      AttemptIsHeld(cat, s, t);
      LearnAccounts(cat, s, th.tx, c, p, wins);
    } else if th.Looping? {
      PlanAccounts(cat, s, t, ch, c, p, wins);
    } else if th.Reporting? {
      ReportAccounts(cat, s, th, RetryEngine.Reported(th.tx, th.success, ch.stamp), c, p, wins);
    } else {
      if th.Attempted? {
        AttemptIsHeld(cat, s, t);
      }
      hide Move;
      RestAccounts(cat, s, th, ch, c, p, wins);
    }
  }

  lemma ActAccounts(cat: Catalog, s: Sys, t: nat, ch: Choice, made: seq<Lesson>, told: seq<Told>,
                    c: Code, p: Processor, wins: bool)
    requires Inv(cat, s) && Accounted(s, made, told, c, p, wins) && t in s.threads
    ensures Accounted(Next(cat, s, Act(t, ch)), made + MadeBy(cat, s, Act(t, ch)), told + ToldBy(s, Act(t, ch)), c, p,
                      wins)
  {
    hide Inv, TotalOf, Underway, LearnedOf, Outcomes, ToldOn, Move, MadeBy, ToldBy, Unlearned;
    OutcomesBoth(made, MadeBy(cat, s, Act(t, ch)), c, p, wins);
    ToldOnBoth(told, ToldBy(s, Act(t, ch)), c, p, wins);
    MoveAccounts(cat, s, t, ch, c, p, wins);
    UnderwayAfter(s.threads, t, Move(cat, s, s.threads[t], ch).1, c, p, wins);
  }

  lemma NextAccounts(cat: Catalog, s: Sys, a: Action, made: seq<Lesson>, told: seq<Told>,
                     c: Code, p: Processor, wins: bool)
    requires Inv(cat, s) && Accounted(s, made, told, c, p, wins)
    ensures Accounted(Next(cat, s, a), made + MadeBy(cat, s, a), told + ToldBy(s, a), c, p, wins)
  {
    hide Inv, TotalOf, Underway, LearnedOf, Outcomes, ToldOn, Move;
    assert made + [] == made && told + [] == told;
    match a
    case Submitting(t, event) => UnderwayAfter(s.threads, t, Arriving(event), c, p, wins);
    case Confirming(t, id, q, success) => UnderwayAfter(s.threads, t, Asking(id, q, success), c, p, wins);
    case Clearing =>
    case Act(t, ch) =>
      if t in s.threads {
        ActAccounts(cat, s, t, ch, made, told, c, p, wins);
      }
  }

  lemma {:induction false} AfterAccounts(cat: Catalog, schedule: seq<Action>, c: Code, p: Processor, wins: bool)
    requires Invariant.Usable(cat)
    ensures Accounted(After(cat, EMPTY_SYS, schedule), AllMade(cat, EMPTY_SYS, schedule),
                      AllTold(cat, EMPTY_SYS, schedule), c, p, wins)
  {
    hide Next, Inv, Accounted;
    if schedule == [] {
      NothingAccounts(c, p, wins);
    } else {
      var front := schedule[..|schedule| - 1];
      AfterAccounts(cat, front, c, p, wins);
      InvKept(cat, EMPTY_SYS, front);
      NextAccounts(cat, After(cat, EMPTY_SYS, front), schedule[|schedule| - 1],
                   AllMade(cat, EMPTY_SYS, front), AllTold(cat, EMPTY_SYS, front), c, p, wins);
    }
  }

  lemma NothingAccounts(c: Code, p: Processor, wins: bool)
    ensures Accounted(EMPTY_SYS, [], [], c, p, wins)
  {
    assert Underway(map[], c, p, wins) == map[] && Taught([]) == [];
  }

  /** Every outcome is learned exactly once, under every interleaving and across resets: for each code and
      processor the learned successes, with those of attempts not yet learned from, are the successful
      attempts ever made plus the successes ever reported; and so for the totals. */
  lemma OutcomesAreConserved(cat: Catalog, schedule: seq<Action>, c: Code, p: Processor)
    requires Invariant.Usable(cat)
    ensures var s := After(cat, EMPTY_SYS, schedule);
            var made, told := AllMade(cat, EMPTY_SYS, schedule), AllTold(cat, EMPTY_SYS, schedule);
            var rec := RecordOf(s.weights, c, p);
            && rec.successes + TotalOf(Underway(s.threads, c, p, true)) ==
               Count(made, c, p, {true}) + ToldOn(told, c, p, true)
            && rec.total + TotalOf(Underway(s.threads, c, p, false)) ==
               Count(made, c, p, {true, false}) + ToldOn(told, c, p, false)
  {
    hide After, AllMade, AllTold;
    AfterAccounts(cat, schedule, c, p, true);
    AfterAccounts(cat, schedule, c, p, false);
  }

  // ---------- learned ratios are ratios ----------

  ghost predicate Sound(a: Weights) {
    forall c, p :: RecordOf(a, c, p).successes <= RecordOf(a, c, p).total
  }

  lemma LearnKeepsSound(a: Weights, code: Code, q: Processor, success: bool)
    requires Sound(a)
    ensures Sound(Learn(a, code, q, success))
  {
    forall c, p
      ensures RecordOf(Learn(a, code, q, success), c, p).successes <= RecordOf(Learn(a, code, q, success), c, p).total
    {
      LearnChangesOneRecord(a, code, q, success, c, p);
    }
  }

  lemma NextKeepsSound(cat: Catalog, s: Sys, a: Action)
    requires Sound(s.weights)
    ensures Sound(Next(cat, s, a).weights)
  {
    hide Sound, Learn, Health.Record, RouteTo, Classify;
    if a.Act? && a.t in s.threads {
      var th := s.threads[a.t];
      if th.HealthNoted? && th.tx.attempts != [] {
        LearnKeepsSound(s.weights, th.tx.event.code, Last(th.tx).processor, Last(th.tx).success);
      } else if th.Reporting? {
        LearnKeepsSound(s.weights, th.tx.event.code, th.processor, th.success);
      }
    }
  }

  lemma {:induction false} AfterKeepsSound(cat: Catalog, schedule: seq<Action>)
    ensures Sound(After(cat, EMPTY_SYS, schedule).weights)
  {
    if schedule != [] {
      hide Sound, Next;
      AfterKeepsSound(cat, schedule[..|schedule| - 1]);
      NextKeepsSound(cat, After(cat, EMPTY_SYS, schedule[..|schedule| - 1]), schedule[|schedule| - 1]);
    }
  }

  /** Under every interleaving no pair has more successes than outcomes, and every rate that selection
      uses lies between 0 and 1. */
  lemma RatesAreRatios(cat: Catalog, schedule: seq<Action>, c: Code, p: Processor)
    ensures var a := After(cat, EMPTY_SYS, schedule).weights;
            var rec := RecordOf(a, c, p);
            && rec.successes <= rec.total && 0.0 <= Rate(a, c, p) <= 1.0
            && IsShare(Rate(a, c, p), rec.successes, rec.total)
  {
    hide After;
    AfterKeepsSound(cat, schedule);
    RateIsShare(After(cat, EMPTY_SYS, schedule).weights, c, p);
    var rec := RecordOf(After(cat, EMPTY_SYS, schedule).weights, c, p);
    if rec.total > 0 {
      RatioSteps(rec.successes, rec.total);
    }
  }
}
