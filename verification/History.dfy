/** What the health windows mean over whole runs: the events, attempts and reports of each processor. */
module History {
  import opened Domain
  import opened Health
  import Ledger
  import opened World
  import opened RetryEngine

  /** An outcome noted for a processor. */
  datatype Note = Note(processor: Processor, outcome: Outcome)

  function NoteAll(h: Windows, notes: seq<Note>): Windows {
    if notes == [] then h
    else
      var before, n := NoteAll(h, notes[..|notes| - 1]), notes[|notes| - 1];
      before[n.processor := WindowOf(before, n.processor) + [n.outcome]]
  }

  function Tried(attempts: seq<RetryAttempt>): seq<Note> {
    seq(|attempts|, i requires 0 <= i < |attempts| =>
      Note(attempts[i].processor, Outcome(attempts[i].timestamp, attempts[i].success)))
  }

  /** What a call should have noted, by its arguments and its result: the failure that was submitted,
      even a rejected one, every attempt that was made for it, and a report on a known record. */
  function Notes(cat: Catalog, o: Oracle, e: Engine, op: Op): seq<Note> {
    match op
    case Submit(event) =>
      [Note(event.processor, Outcome(event.timestamp, false))]
      + (match Process(cat, o, e, event).1 case Ok(r) => Tried(r.attempts) case Err(_) => [])
    case ReportOutcome(id, p, success) =>
      if id in e.store.txs then [Note(p, Outcome(o.clock(e.tick), success))] else []
    case _ => []
  }

  /** Everything noted since the last reset, nothing ever dropped. */
  function Past(cat: Catalog, o: Oracle, ops: seq<Op>): Windows {
    if ops == [] then map[]
    else
      var front, last := ops[..|ops| - 1], ops[|ops| - 1];
      if last == ResetAll then map[] else NoteAll(Past(cat, o, front), Notes(cat, o, Run(cat, o, INITIAL, front), last))
  }

  // ---------- lists of notes ----------

  lemma {:induction false} NoteBoth(h: Windows, xs: seq<Note>, ys: seq<Note>)
    ensures NoteAll(h, xs + ys) == NoteAll(NoteAll(h, xs), ys)
  {
    if ys == [] {
      assert xs + ys == xs;
    } else {
      NoteBoth(h, xs, ys[..|ys| - 1]);
      assert (xs + ys)[..|xs + ys| - 1] == xs + ys[..|ys| - 1];
    }
  }

  lemma NoteOne(h: Windows, n: Note)
    ensures NoteAll(h, [n]) == h[n.processor := WindowOf(h, n.processor) + [n.outcome]]
  {
    assert [n][..0] == [];
  }

  lemma AgreeLater(w: Windows, h: Windows, clock: int, later: int)
    requires Agree(w, h, clock) && clock <= later
    ensures Agree(w, h, later)
  {
  }

  /** Recording with the tracker what is noted. */
  lemma RecordNotes(o: Oracle, w: Windows, h: Windows, p: Processor, success: bool, ts: int, before: nat, tick: nat,
                    after: nat)
    requires ClockAdvances(o) && before <= tick <= after && Agree(w, h, o.clock(before))
    ensures Agree(Record(w, p, success, ts, o.clock(tick)), NoteAll(h, [Note(p, Outcome(ts, success))]), o.clock(after))
  {
    var n := Note(p, Outcome(ts, success));
    NoteOne(h, n);
    AgreeAfterRecord(w, h, p, success, ts, o.clock(before), o.clock(tick));
    AgreeLater(Record(w, p, success, ts, o.clock(tick)), NoteAll(h, [n]), o.clock(tick), o.clock(after));
  }

  // ---------- chains ----------

  lemma TryNotes(cat: Catalog, o: Oracle, e: Engine, tx: Tx, plan: Plan, h: Windows)
    requires ClockAdvances(o) && Agree(e.windows, h, o.clock(e.tick)) && plan.target.Some? && e.tick <= plan.tick
    ensures var (e1, tx1) := TryOnce(cat, o, e, tx, plan);
            && |tx1.attempts| == |tx.attempts| + 1 && tx.attempts == tx1.attempts[..|tx.attempts|]
            && Agree(e1.windows, NoteAll(h, Tried(tx1.attempts[|tx.attempts|..])), o.clock(e1.tick))
  {
    hide Record, Agree, NoteAll;
    var (e1, tx1) := TryOnce(cat, o, e, tx, plan);
    var a := tx1.attempts[|tx.attempts|];
    assert tx1.attempts[|tx.attempts|..] == [a];
    assert Tried([a]) == [Note(a.processor, Outcome(a.timestamp, a.success))];
    RecordNotes(o, e.windows, h, a.processor, a.success, a.timestamp, e.tick, plan.tick + 2, e1.tick);
  }

  /** The attempts noted by a chain that begins with one attempt. */
  lemma TriedInTurn(before: seq<RetryAttempt>, between: seq<RetryAttempt>, after: seq<RetryAttempt>)
    requires before <= between <= after
    ensures Tried(after[|before|..]) == Tried(between[|before|..]) + Tried(after[|between|..])
  {
  }

  lemma FinishNotes(o: Oracle, e: Engine, tx: Tx, recovered: bool, h: Windows)
    requires ClockAdvances(o) && Agree(e.windows, h, o.clock(e.tick))
    ensures var (e', tx') := Finish(o, e, tx, recovered);
            tx'.attempts == tx.attempts && Agree(e'.windows, h, o.clock(e'.tick))
  {
    AgreeLater(e.windows, h, o.clock(e.tick), o.clock(e.tick + 1));
  }

  lemma {:induction false} ChainNotes(cat: Catalog, o: Oracle, e: Engine, tx: Tx, h: Windows)
    requires ClockAdvances(o) && Agree(e.windows, h, o.clock(e.tick))
    ensures var (e', tx') := Chain(cat, o, e, tx);
            && tx.attempts <= tx'.attempts
            && Agree(e'.windows, NoteAll(h, Tried(tx'.attempts[|tx.attempts|..])), o.clock(e'.tick))
    decreases MAX_RETRIES - tx.retryCount
  {
    hide Record, Agree, TryOnce, Finish;
    var plan := PlanRetry(cat, o, e, tx.event, tx.classification.strategy);
    assert Tried([]) == [];
    if tx.retryCount >= MAX_RETRIES {
      FinishNotes(o, e, tx, false, h);
    } else if plan.target.None? {
      assert Agree(e.windows, h, o.clock(plan.tick))
          by { AgreeLater(e.windows, h, o.clock(e.tick), o.clock(plan.tick)); }
      FinishNotes(o, e.(tick := plan.tick), tx, false, h);
    } else {
      TryNotes(cat, o, e, tx, plan, h);
      var (e1, tx1) := TryOnce(cat, o, e, tx, plan);
      var h1 := NoteAll(h, Tried(tx1.attempts[|tx.attempts|..]));
      var (e', tx') := Chain(cat, o, e, tx);
      if o.coin(e.flip) {
        FinishNotes(o, e1, tx1, true, h1);
      } else {
        assert tx1.retryCount == tx.retryCount + 1 by { TryCounts(cat, o, e, tx, plan); }
        ChainNotes(cat, o, e1, tx1, h1);
        TriedInTurn(tx.attempts, tx1.attempts, tx'.attempts);
        NoteBoth(h, Tried(tx1.attempts[|tx.attempts|..]), Tried(tx'.attempts[|tx1.attempts|..]));
      }
    }
  }

  lemma TryCounts(cat: Catalog, o: Oracle, e: Engine, tx: Tx, plan: Plan)
    requires plan.target.Some?
    ensures TryOnce(cat, o, e, tx, plan).1.retryCount == tx.retryCount + 1
  {
  }

  // ---------- calls and runs ----------

  lemma SubmitNotes(cat: Catalog, o: Oracle, e: Engine, event: FailureEvent, h: Windows)
    requires ClockAdvances(o) && Agree(e.windows, h, o.clock(e.tick))
    ensures var e' := Process(cat, o, e, event).0;
            Agree(e'.windows, NoteAll(h, Notes(cat, o, e, Submit(event))), o.clock(e'.tick))
  {
    hide Record, Agree, Chain;
    var first := [Note(event.processor, Outcome(event.timestamp, false))];
    RecordNotes(o, e.windows, h, event.processor, false, event.timestamp, e.tick, e.tick, e.tick + 1);
    assert Tried([]) == [];
    assert first + [] == first;
    if event.id !in e.store.txs && Classify(event).decline == SoftDecline {
      var e1, tx := NoteFailure(o, e, event), NewTx(event);
      var e2 := e1.(store := Ledger.Save(e1.store, tx));
      ChainNotes(cat, o, e2, tx, NoteAll(h, first));
      var done := Chain(cat, o, e2, tx).1;
      assert done.attempts[0..] == done.attempts;
      NoteBoth(h, first, Tried(done.attempts));
    }
  }

  lemma StepNotes(cat: Catalog, o: Oracle, e: Engine, op: Op, h: Windows)
    requires ClockAdvances(o) && Agree(e.windows, h, o.clock(e.tick)) && op != ResetAll
    ensures var e' := Step(cat, o, e, op);
            Agree(e'.windows, NoteAll(h, Notes(cat, o, e, op)), o.clock(e'.tick))
  {
    hide Record, Agree, Process;
    match op
    case Submit(event) => SubmitNotes(cat, o, e, event, h);
    case ReportOutcome(id, p, success) =>
      if id in e.store.txs {
        RecordNotes(o, e.windows, h, p, success, o.clock(e.tick), e.tick, e.tick + 1, e.tick + 2);
      }
    case Query(readings) => AgreeLater(e.windows, h, o.clock(e.tick), o.clock(e.tick + readings));
  }

  lemma {:induction false} RunNotes(cat: Catalog, o: Oracle, ops: seq<Op>)
    requires ClockAdvances(o)
    ensures var e := Run(cat, o, INITIAL, ops); Agree(e.windows, Past(cat, o, ops), o.clock(e.tick))
  {
    if ops != [] && ops[|ops| - 1] != ResetAll {
      RunNotes(cat, o, ops[..|ops| - 1]);
      StepNotes(cat, o, Run(cat, o, INITIAL, ops[..|ops| - 1]), ops[|ops| - 1], Past(cat, o, ops[..|ops| - 1]));
    }
  }

  /** Health is conserved: after any run under a clock that does not go back, every processor's health
      is read as if from the complete history since the last reset of the failures submitted for it,
      the attempts made on it and the outcomes reported for it, with nothing lost, doubled or misplaced. */
  lemma HealthIsConserved(cat: Catalog, o: Oracle, ops: seq<Op>, p: Processor, now: int)
    requires ClockAdvances(o) && o.clock(Run(cat, o, INITIAL, ops).tick) <= now
    ensures SnapshotOf(Run(cat, o, INITIAL, ops).windows, p, now) == SnapshotOf(Past(cat, o, ops), p, now)
  {
    RunNotes(cat, o, ops);
    var e := Run(cat, o, INITIAL, ops);
    AgreeOnSnapshot(e.windows, Past(cat, o, ops), p, o.clock(e.tick), now);
  }
}
