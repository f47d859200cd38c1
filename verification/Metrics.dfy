/** The two metrics reports as folds over a list of records, and what they satisfy on records that
    the engine can produce. */
module Metrics {
  import opened Domain
  import opened Ledger
  import Invariant
  import opened Tallies

  datatype RecoveryMetrics = RecoveryMetrics(
    start: int, end: int, total: int, hard: int, soft: int, recovered: int, exhausted: int,
    recoveryRate: real, retries: int, atRisk: int, revenue: int, cost: int, latency: real,
    breakdown: map<Code, int>)

  // ---------- what one record contributes ----------

  function One(tx: Tx): int { 1 }
  function Hard(tx: Tx): int { if tx.classification.decline == HardDecline then 1 else 0 }
  function Soft(tx: Tx): int { if tx.classification.decline == SoftDecline then 1 else 0 }
  function Recoveries(tx: Tx): int { if tx.status == Recovered then 1 else 0 }
  function Exhaustions(tx: Tx): int { if tx.status == Exhausted then 1 else 0 }
  function AtRisk(tx: Tx): int { if tx.classification.decline == SoftDecline then tx.event.amount else 0 }
  function Revenue(tx: Tx): int { if tx.status == Recovered then tx.event.amount else 0 }
  function Spent(tx: Tx): int { tx.totalCost }
  function Tries(tx: Tx): int { |tx.attempts| }
  function Waited(tx: Tx): int { Wait(tx.attempts) }

  function OfCode(c: Code): Tx -> int {
    (tx: Tx) => if tx.event.code == c then 1 else 0
  }

  function Wait(attempts: seq<RetryAttempt>): int {
    if attempts == [] then 0 else Wait(attempts[..|attempts| - 1]) + attempts[|attempts| - 1].delay
  }

  /** Occurrences per failure code. */
  function Breakdown(txs: seq<Tx>): map<Code, int> {
    if txs == [] then map[]
    else
      var front, c := Breakdown(txs[..|txs| - 1]), txs[|txs| - 1].event.code;
      front[c := (if c in front then front[c] else 0) + 1]
  }

  /** The report before its two quotients are taken: `latency` still holds the total delay. */
  function Totals(txs: seq<Tx>, start: int, end: int): RecoveryMetrics {
    RecoveryMetrics(
      start, end, Sum(txs, One), Sum(txs, Hard), Sum(txs, Soft), Sum(txs, Recoveries), Sum(txs, Exhaustions),
      0.0, Sum(txs, Tries), Sum(txs, AtRisk), Sum(txs, Revenue), Sum(txs, Spent),
      Sum(txs, Waited) as real, Breakdown(txs))
  }

  function Quotients(m: RecoveryMetrics): RecoveryMetrics {
    m.(recoveryRate := if m.soft > 0 then m.recovered as real / m.soft as real else m.recoveryRate,
       latency := if m.retries > 0 then m.latency / m.retries as real else m.latency)
  }

  function RecoveryOf(txs: seq<Tx>, start: int, end: int): RecoveryMetrics {
    Quotients(Totals(txs, start, end))
  }

  lemma {:induction false} BreakdownCounts(txs: seq<Tx>, c: Code)
    ensures c in Breakdown(txs) <==> exists tx <- txs :: tx.event.code == c
    ensures Sum(txs, OfCode(c)) == if c in Breakdown(txs) then Breakdown(txs)[c] else 0
  {
    if txs != [] {
      var front, last := txs[..|txs| - 1], txs[|txs| - 1];
      BreakdownCounts(front, c);
      assert txs == front + [last];
    }
  }

  lemma {:induction false} BreakdownAddsUp(txs: seq<Tx>)
    ensures TotalOf(Breakdown(txs)) == |txs|
  {
    if txs != [] {
      var front, c := Breakdown(txs[..|txs| - 1]), txs[|txs| - 1].event.code;
      BreakdownAddsUp(txs[..|txs| - 1]);
      TotalWithout(Breakdown(txs), c);
      assert Breakdown(txs) - {c} == front - {c};
      if c in front {
        TotalWithout(front, c);
      } else {
        assert front - {c} == front;
      }
    }
  }

  lemma {:induction false} OnePerRecord(txs: seq<Tx>)
    ensures Sum(txs, One) == |txs|
  {
    if txs != [] {
      OnePerRecord(txs[..|txs| - 1]);
    }
  }

  // ---------- identities on the engine's records ----------

  ghost predicate AllBooked(cat: Catalog, txs: seq<Tx>) {
    forall tx <- txs :: Invariant.Booked(cat, tx)
  }

  lemma QuotientInRange(part: int, whole: int, bound: nat)
    requires 0 <= part <= bound * whole && whole > 0
    ensures 0.0 <= part as real / whole as real <= bound as real
  {
    var q, w := part as real / whole as real, whole as real;
    assert q * w == part as real;
    assert (bound as real - q) * w == (bound * whole - part) as real;
  }

  lemma DeclinesAddUp(txs: seq<Tx>)
    ensures Sum(txs, Hard) + Sum(txs, Soft) == |txs|
  {
    OnePerRecord(txs);
    SumSplits(txs, One, Hard, Soft);
  }

  function Ends(tx: Tx): int { Recoveries(tx) + Exhaustions(tx) }

  /** Only soft declines recover or exhaust. */
  lemma EndsAreSoft(cat: Catalog, txs: seq<Tx>)
    requires AllBooked(cat, txs)
    ensures 0 <= Sum(txs, Recoveries) + Sum(txs, Exhaustions) <= Sum(txs, Soft)
    ensures Sum(txs, Recoveries) >= 0 && Sum(txs, Exhaustions) >= 0
  {
    SumSplits(txs, Ends, Recoveries, Exhaustions);
    SumAtMost(txs, Ends, Soft);
    SumNonNegative(txs, Recoveries);
    SumNonNegative(txs, Exhaustions);
  }

  lemma {:induction false} WaitIsBounded(cat: Catalog, tx: Tx, n: nat)
    requires Invariant.Booked(cat, tx) && n <= |tx.attempts|
    ensures 0 <= Wait(tx.attempts[..n]) <= DELAY_SECONDS * n
  {
    if n > 0 {
      WaitIsBounded(cat, tx, n - 1);
      assert tx.attempts[..n][..n - 1] == tx.attempts[..n - 1];
      assert Invariant.AttemptOk(cat, tx, n - 1);
    }
  }

  lemma LatencyIsBounded(cat: Catalog, txs: seq<Tx>)
    requires AllBooked(cat, txs)
    ensures 0 <= Sum(txs, Waited) <= DELAY_SECONDS * Sum(txs, Tries)
    ensures Sum(txs, Tries) >= 0
  {
    forall tx <- txs ensures 0 <= Waited(tx) <= DELAY_SECONDS * Tries(tx) {
      WaitIsBounded(cat, tx, |tx.attempts|);
      assert tx.attempts[..|tx.attempts|] == tx.attempts;
    }
    SumNonNegative(txs, Waited);
    SumNonNegative(txs, Tries);
    SumScaled(txs, Waited, DELAY_SECONDS, Tries);
  }

  /** The bounds of the recovery report, for any list of such records without negative amounts. */
  lemma RecoveryBounds(cat: Catalog, txs: seq<Tx>, start: int, end: int)
    requires AllBooked(cat, txs) && forall tx <- txs :: tx.event.amount >= 0
    ensures var m := RecoveryOf(txs, start, end);
            && m.hard + m.soft == m.total == |txs|
            && m.recovered >= 0 && m.exhausted >= 0 && m.recovered + m.exhausted <= m.soft
            && 0.0 <= m.recoveryRate <= 1.0
            && 0 <= m.revenue <= m.atRisk
            && TotalOf(m.breakdown) == m.total
            && 0.0 <= m.latency <= DELAY_SECONDS as real
  {
    OnePerRecord(txs);
    DeclinesAddUp(txs);
    EndsAreSoft(cat, txs);
    BreakdownAddsUp(txs);
    LatencyIsBounded(cat, txs);
    SumNonNegative(txs, Revenue);
    SumAtMost(txs, Revenue, AtRisk);
    var m := Totals(txs, start, end);
    if m.soft > 0 {
      QuotientInRange(m.recovered, m.soft, 1);
    }
    if m.retries > 0 {
      QuotientInRange(Sum(txs, Waited), m.retries, DELAY_SECONDS);
    }
  }

  ghost predicate AllSettled(cat: Catalog, txs: seq<Tx>) {
    forall tx <- txs :: Invariant.Settled(cat, tx)
  }

  /** Between calls the bounds hold and every soft decline has recovered or exhausted. */
  lemma RecoveryIdentities(cat: Catalog, txs: seq<Tx>, start: int, end: int)
    requires AllSettled(cat, txs) && forall tx <- txs :: tx.event.amount >= 0
    ensures var m := RecoveryOf(txs, start, end);
            && m.hard + m.soft == m.total == |txs|
            && m.recovered + m.exhausted == m.soft
            && 0.0 <= m.recoveryRate <= 1.0
            && 0 <= m.revenue <= m.atRisk
            && TotalOf(m.breakdown) == m.total
            && 0.0 <= m.latency <= DELAY_SECONDS as real
  {
    RecoveryBounds(cat, txs, start, end);
    SumSplits(txs, Soft, Recoveries, Exhaustions);
  }

  // ---------- additivity over time ----------

  lemma RangesSplit(s: Store, a: int, b: int, c: int, f: Tx -> int)
    requires forall id <- s.order :: id in s.txs
    requires a <= b < c
    ensures Sum(InRange(s, a, c), f) == Sum(InRange(s, a, b), f) + Sum(InRange(s, b + 1, c), f)
  {
    SumOfSelections(All(s), f, Within(a, c), Within(a, b), Within(b + 1, c));
  }

  /** Metrics are additive over time: the report for [a, c] is the sum of those for [a, b] and
      [b+1, c], count by count, code by code, and its quotients are those of the summed parts. */
  lemma MetricsAreAdditive(s: Store, a: int, b: int, c: int)
    requires forall id <- s.order :: id in s.txs
    requires a <= b < c
    ensures var m := RecoveryOf(InRange(s, a, c), a, c);
            var m1 := RecoveryOf(InRange(s, a, b), a, b);
            var m2 := RecoveryOf(InRange(s, b + 1, c), b + 1, c);
            && m.total == m1.total + m2.total && m.hard == m1.hard + m2.hard && m.soft == m1.soft + m2.soft
            && m.recovered == m1.recovered + m2.recovered && m.exhausted == m1.exhausted + m2.exhausted
            && m.retries == m1.retries + m2.retries && m.cost == m1.cost + m2.cost
            && m.atRisk == m1.atRisk + m2.atRisk && m.revenue == m1.revenue + m2.revenue
            && (m1.soft + m2.soft > 0 ==>
                m.recoveryRate == (m1.recovered + m2.recovered) as real / (m1.soft + m2.soft) as real)
    ensures var w := Sum(InRange(s, a, b), Waited) + Sum(InRange(s, b + 1, c), Waited);
            var n := Sum(InRange(s, a, b), Tries) + Sum(InRange(s, b + 1, c), Tries);
            n > 0 ==> RecoveryOf(InRange(s, a, c), a, c).latency == w as real / n as real
  {
    RangesSplit(s, a, b, c, One);
    RangesSplit(s, a, b, c, Hard);
    RangesSplit(s, a, b, c, Soft);
    RangesSplit(s, a, b, c, Recoveries);
    RangesSplit(s, a, b, c, Exhaustions);
    RangesSplit(s, a, b, c, Tries);
    RangesSplit(s, a, b, c, Spent);
    RangesSplit(s, a, b, c, AtRisk);
    RangesSplit(s, a, b, c, Revenue);
    RangesSplit(s, a, b, c, Waited);
  }

  lemma BreakdownsAreAdditive(s: Store, a: int, b: int, c: int, code: Code)
    requires forall id <- s.order :: id in s.txs
    requires a <= b < c
    ensures var m, m1, m2 := Breakdown(InRange(s, a, c)), Breakdown(InRange(s, a, b)), Breakdown(InRange(s, b + 1, c));
            (if code in m then m[code] else 0) ==
            (if code in m1 then m1[code] else 0) + (if code in m2 then m2[code] else 0)
  {
    RangesSplit(s, a, b, c, OfCode(code));
    BreakdownCounts(InRange(s, a, c), code);
    BreakdownCounts(InRange(s, a, b), code);
    BreakdownCounts(InRange(s, b + 1, c), code);
  }
}
