/** What the rolling-window tracker computes, on values: the filter that pruning performs,
    the snapshot read from a window, and why pruning is invisible to every reader. */
module Health {
  import opened Domain

  datatype Outcome = Outcome(timestamp: int, success: bool)

  type Windows = map<Processor, seq<Outcome>>

  const WINDOW: int := 15 * 60 * 1_000_000_000
  const MIN_SAMPLES: nat := 5

  /** The outcomes not older than the cutoff, in their original order. */
  function Keep(s: seq<Outcome>, cutoff: int): seq<Outcome> {
    if s == [] then []
    else
      var front := Keep(s[..|s| - 1], cutoff);
      if s[|s| - 1].timestamp < cutoff then front else front + [s[|s| - 1]]
  }

  /** How many outcomes of one kind are not older than the cutoff. */
  function Tally(s: seq<Outcome>, success: bool, cutoff: int): nat {
    if s == [] then 0
    else
      Tally(s[..|s| - 1], success, cutoff)
      + if s[|s| - 1].timestamp >= cutoff && s[|s| - 1].success == success then 1 else 0
  }

  function FailureRate(failures: nat, total: nat): real
    requires total > 0
  {
    failures as real / total as real
  }

  function StateOf(failures: nat, total: nat): HealthState {
    if total < MIN_SAMPLES then Healthy
    else if FailureRate(failures, total) >= 0.80 then Down
    else if FailureRate(failures, total) >= 0.50 then Degraded
    else Healthy
  }

  function WindowOf(w: Windows, p: Processor): seq<Outcome> {
    if p in w then w[p] else []
  }

  function SnapshotOf(w: Windows, p: Processor, now: int): Snapshot {
    var cutoff := now - WINDOW;
    var failures := Tally(WindowOf(w, p), false, cutoff);
    var successes := Tally(WindowOf(w, p), true, cutoff);
    var total := failures + successes;
    Snapshot(p, StateOf(failures, total),
             if total < MIN_SAMPLES then 0.0 else FailureRate(failures, total),
             total, failures, successes, cutoff, now)
  }

  /** Append, then drop what is older than the window. */
  function Record(w: Windows, p: Processor, success: bool, ts: int, now: int): Windows {
    w[p := Keep(WindowOf(w, p) + [Outcome(ts, success)], now - WINDOW)]
  }

  // ---------- the thresholds, in integers ----------

  lemma RatioAtLeast(failures: nat, total: nat, num: nat, den: nat)
    requires total > 0 && den > 0
    ensures FailureRate(failures, total) >= num as real / den as real <==> den * failures >= num * total
  {
    var f, t, n, d := failures as real, total as real, num as real, den as real;
    assert (f / t) * t == f;
    assert (n / d) * d == n;
    var x, y := f / t, n / d;
    if x >= y {
      assert x * (t * d) >= y * (t * d);
      assert x * (t * d) == (x * t) * d;
      assert y * (t * d) == (y * d) * t;
    } else {
      assert x * (t * d) < y * (t * d);
      assert x * (t * d) == (x * t) * d;
      assert y * (t * d) == (y * d) * t;
    }
    assert f * d == (failures * den) as real;
    assert n * t == (num * total) as real;
  }

  /** The state is decided by integer tests with the five-sample floor: DOWN from 4 failures in 5,
      DEGRADED from 1 in 2; every event counted is a success or a failure; from five events on the rate is
      the share of failures, below that zero; the window is the last 15 minutes. */
  lemma SnapshotIsExact(w: Windows, p: Processor, now: int)
    ensures var s := SnapshotOf(w, p, now);
            && s.total == s.successes + s.failures == |Keep(WindowOf(w, p), now - WINDOW)|
            && (s.state == Down <==> s.total >= 5 && 5 * s.failures >= 4 * s.total)
            && (s.state == Degraded <==> s.total >= 5 && 2 * s.failures >= s.total && 5 * s.failures < 4 * s.total)
            && (s.state == Healthy <==> s.total < 5 || 2 * s.failures < s.total)
            && (if s.total >= 5 then s.failureRate * s.total as real == s.failures as real else s.failureRate == 0.0)
            && 0.0 <= s.failureRate <= 1.0
            && s.processor == p && s.windowEnd == now && s.windowStart == now - 900 * 1_000_000_000
  {
    TallySplitsWindow(WindowOf(w, p), now - WINDOW);
    var s := SnapshotOf(w, p, now);
    hide FailureRate, Tally, Keep;
    if s.total >= MIN_SAMPLES {
      ShareOf(s.failures, s.total);
      RatioAtLeast(s.failures, s.total, 4, 5);
      RatioAtLeast(s.failures, s.total, 1, 2);
      RateInUnit(s.failures, s.total);
    }
  }

  lemma ShareOf(part: nat, total: nat)
    requires total > 0
    ensures FailureRate(part, total) * total as real == part as real
  {
  }

  lemma RateInUnit(part: nat, total: nat)
    requires part <= total && total > 0
    ensures 0.0 <= FailureRate(part, total) <= 1.0
  {
    RatioAtLeast(part, total, 0, 1);
    var x, t := FailureRate(part, total), total as real;
    assert (x - 1.0) * t == part as real - t <= 0.0;
  }

  lemma {:induction false} TallySplitsWindow(s: seq<Outcome>, cutoff: int)
    ensures Tally(s, true, cutoff) + Tally(s, false, cutoff) == |Keep(s, cutoff)|
  {
    if s != [] {
      TallySplitsWindow(s[..|s| - 1], cutoff);
    }
  }

  // ---------- pruning is a refinement ----------

  lemma KeepAppend(s: seq<Outcome>, o: Outcome, cutoff: int)
    ensures Keep(s + [o], cutoff) == if o.timestamp < cutoff then Keep(s, cutoff) else Keep(s, cutoff) + [o]
  {
    assert (s + [o])[..|s|] == s;
  }

  lemma TallyAppend(s: seq<Outcome>, o: Outcome, success: bool, cutoff: int)
    ensures Tally(s + [o], success, cutoff) ==
            Tally(s, success, cutoff) + if o.timestamp >= cutoff && o.success == success then 1 else 0
  {
    assert (s + [o])[..|s|] == s;
  }

  /** What is recorded is what is read: an outcome inside the window adds one to the count of its kind
      on its processor, an older one adds nothing, and no other processor changes. */
  lemma RecordIsCounted(w: Windows, p: Processor, success: bool, ts: int, now: int, q: Processor)
    ensures var before, after := SnapshotOf(w, q, now), SnapshotOf(Record(w, p, success, ts, now), q, now);
            if q == p && ts >= now - WINDOW then
              && after.failures == before.failures + (if success then 0 else 1)
              && after.successes == before.successes + (if success then 1 else 0)
            else after == before
  {
    hide StateOf, FailureRate, Tally, Keep;
    var cutoff, o := now - WINDOW, Outcome(ts, success);
    forall b: bool ensures Tally(Keep(WindowOf(w, p) + [o], cutoff), b, cutoff) ==
                           Tally(WindowOf(w, p), b, cutoff) + if ts >= cutoff && success == b then 1 else 0 {
      TallyOfKeep(WindowOf(w, p) + [o], b, cutoff);
      TallyAppend(WindowOf(w, p), o, b, cutoff);
    }
  }

  /** What is kept is what is not older than the cutoff, each outcome as often as it was there. */
  lemma {:induction false} KeepIsExact(s: seq<Outcome>, cutoff: int, o: Outcome)
    ensures multiset(Keep(s, cutoff))[o] == if o.timestamp >= cutoff then multiset(s)[o] else 0
  {
    if s != [] {
      var front, last := s[..|s| - 1], s[|s| - 1];
      KeepIsExact(front, cutoff, o);
      assert s == front + [last];
    }
  }

  /** It stays in order: what is kept of a first part comes before what is kept of the rest. */
  lemma {:induction false} KeepKeepsOrder(s: seq<Outcome>, t: seq<Outcome>, cutoff: int)
    ensures Keep(s + t, cutoff) == Keep(s, cutoff) + Keep(t, cutoff)
  {
    if t == [] {
      assert s + t == s;
    } else {
      var front, last := t[..|t| - 1], t[|t| - 1];
      KeepKeepsOrder(s, front, cutoff);
      assert s + t == s + front + [last];
      KeepAppend(s + front, last, cutoff);
    }
  }

  /** Filtering twice is filtering once at the later cutoff. */
  lemma {:induction false} KeepFuses(s: seq<Outcome>, early: int, late: int)
    requires early <= late
    ensures Keep(Keep(s, early), late) == Keep(s, late)
  {
    if s != [] {
      var front, last := s[..|s| - 1], s[|s| - 1];
      KeepFuses(front, early, late);
      if last.timestamp >= early {
        KeepAppend(Keep(front, early), last, late);
      }
    }
  }

  lemma {:induction false} TallyOfKeep(s: seq<Outcome>, success: bool, cutoff: int)
    ensures Tally(Keep(s, cutoff), success, cutoff) == Tally(s, success, cutoff)
  {
    if s != [] {
      var front, last := s[..|s| - 1], s[|s| - 1];
      TallyOfKeep(front, success, cutoff);
      if last.timestamp >= cutoff {
        var k := Keep(front, cutoff);
        assert (k + [last])[..|k|] == k;
      }
    }
  }

  /** One call on the tracker; `now` is what its clock shows. */
  datatype Call =
    | RecordCall(p: Processor, success: bool, ts: int, now: int)
    | ReadCall(p: Processor, now: int)
    | ResetCall

  /** The answers of the tracker that prunes on every record. */
  function PrunedAnswers(w: Windows, calls: seq<Call>): seq<Snapshot>
    decreases |calls|
  {
    if calls == [] then []
    else match calls[0]
      case RecordCall(p, b, ts, now) => PrunedAnswers(Record(w, p, b, ts, now), calls[1..])
      case ReadCall(p, now) => [SnapshotOf(w, p, now)] + PrunedAnswers(w, calls[1..])
      case ResetCall => PrunedAnswers(map[], calls[1..])
  }

  /** The answers of a tracker that keeps every outcome since the last reset. */
  function FullAnswers(h: Windows, calls: seq<Call>): seq<Snapshot>
    decreases |calls|
  {
    if calls == [] then []
    else match calls[0]
      case RecordCall(p, b, ts, now) => FullAnswers(h[p := WindowOf(h, p) + [Outcome(ts, b)]], calls[1..])
      case ReadCall(p, now) => [SnapshotOf(h, p, now)] + FullAnswers(h, calls[1..])
      case ResetCall => FullAnswers(map[], calls[1..])
  }

  /** The clock never goes back; the timestamps being recorded are not restricted. */
  ghost predicate ClockNonDecreasing(calls: seq<Call>, from: int) {
    calls == [] ||
    match calls[0]
    case ResetCall => ClockNonDecreasing(calls[1..], from)
    case RecordCall(_, _, _, now) => from <= now && ClockNonDecreasing(calls[1..], now)
    case ReadCall(_, now) => from <= now && ClockNonDecreasing(calls[1..], now)
  }

  /** From time `clock` on, no cutoff can tell the pruned window from the full history. */
  ghost predicate Agree(w: Windows, h: Windows, clock: int) {
    forall p, cutoff | cutoff >= clock - WINDOW ::
      Keep(WindowOf(w, p), cutoff) == Keep(WindowOf(h, p), cutoff)
  }

  lemma AgreeOnSnapshot(w: Windows, h: Windows, p: Processor, clock: int, now: int)
    requires Agree(w, h, clock) && clock <= now
    ensures SnapshotOf(w, p, now) == SnapshotOf(h, p, now)
  {
    var cutoff := now - WINDOW;
    forall b: bool ensures Tally(WindowOf(w, p), b, cutoff) == Tally(WindowOf(h, p), b, cutoff) {
      TallyOfKeep(WindowOf(w, p), b, cutoff);
      TallyOfKeep(WindowOf(h, p), b, cutoff);
    }
  }

  lemma AgreeAfterRecord(w: Windows, h: Windows, p: Processor, b: bool, ts: int, clock: int, now: int)
    requires Agree(w, h, clock) && clock <= now
    ensures Agree(Record(w, p, b, ts, now), h[p := WindowOf(h, p) + [Outcome(ts, b)]], now)
  {
    var o := Outcome(ts, b);
    var w', h' := Record(w, p, b, ts, now), h[p := WindowOf(h, p) + [o]];
    forall q, cutoff | cutoff >= now - WINDOW
      ensures Keep(WindowOf(w', q), cutoff) == Keep(WindowOf(h', q), cutoff)
    {
      assert Keep(WindowOf(w, q), cutoff) == Keep(WindowOf(h, q), cutoff);
      if q == p {
        AppendAgrees(WindowOf(w, p), WindowOf(h, p), o, now - WINDOW, cutoff);
      }
    }
  }

  lemma AppendAgrees(s: seq<Outcome>, t: seq<Outcome>, o: Outcome, early: int, late: int)
    requires early <= late && Keep(s, late) == Keep(t, late)
    ensures Keep(Keep(s + [o], early), late) == Keep(t + [o], late)
  {
    KeepFuses(s + [o], early, late);
    KeepAppend(s, o, late);
    KeepAppend(t, o, late);
  }

  /** Rolling-window refinement: every read of every run answers as if nothing had been pruned. */
  lemma {:induction false} PruningIsInvisible(w: Windows, h: Windows, calls: seq<Call>, clock: int)
    requires Agree(w, h, clock) && ClockNonDecreasing(calls, clock)
    ensures PrunedAnswers(w, calls) == FullAnswers(h, calls)
    decreases |calls|
  {
    if calls != [] {
      match calls[0]
      case RecordCall(p, b, ts, now) =>
        AgreeAfterRecord(w, h, p, b, ts, clock, now);
        PruningIsInvisible(Record(w, p, b, ts, now), h[p := WindowOf(h, p) + [Outcome(ts, b)]], calls[1..], now);
      case ReadCall(p, now) =>
        AgreeOnSnapshot(w, h, p, clock, now);
        PruningIsInvisible(w, h, calls[1..], now);
      case ResetCall =>
        PruningIsInvisible(map[], map[], calls[1..], clock);
    }
  }

  // ---------- health decays ----------

  lemma {:induction false} TallyDecays(s: seq<Outcome>, success: bool, early: int, late: int)
    requires early <= late
    ensures Tally(s, success, late) <= Tally(s, success, early)
  {
    if s != [] {
      TallyDecays(s[..|s| - 1], success, early, late);
    }
  }

  lemma {:induction false} TallyOfExpired(s: seq<Outcome>, success: bool, cutoff: int)
    requires forall o <- s :: o.timestamp < cutoff
    ensures Tally(s, success, cutoff) == 0
  {
    if s != [] {
      TallyOfExpired(s[..|s| - 1], success, cutoff);
    }
  }

  /** Without new records the counts only fall as the clock advances, and once the clock has passed
      the latest timestamp by more than the window the processor is HEALTHY with no events. */
  lemma HealthDecays(w: Windows, p: Processor, now: int, later: int)
    requires now <= later
    ensures var s, t := SnapshotOf(w, p, now), SnapshotOf(w, p, later);
            t.total <= s.total && t.failures <= s.failures && t.successes <= s.successes
    ensures (forall o <- WindowOf(w, p) :: o.timestamp + WINDOW < later) ==>
              SnapshotOf(w, p, later) == Snapshot(p, Healthy, 0.0, 0, 0, 0, later - WINDOW, later)
  {
    var s := WindowOf(w, p);
    TallyDecays(s, true, now - WINDOW, later - WINDOW);
    TallyDecays(s, false, now - WINDOW, later - WINDOW);
    if forall o <- s :: o.timestamp + WINDOW < later {
      TallyOfExpired(s, true, later - WINDOW);
      TallyOfExpired(s, false, later - WINDOW);
    }
  }
}
