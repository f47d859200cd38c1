/** What the two reports count, said of the stored records themselves: how many IDs in the time range
    have a property, and what their amounts, costs, attempts and delays add up to. */
module Counts {
  import opened Domain
  import opened Ledger
  import World
  import opened RetryEngine
  import opened Invariant
  import opened Reachable
  import opened Tallies
  import opened Conservation
  import opened Metrics
  import opened Reports

  // ---------- from the listed order to the records ----------

  ghost function Shares(s: Store, ids: seq<Id>, start: int, end: int, f: Tx -> int): map<Id, int> {
    map id | id in ids && id in s.txs && start <= s.txs[id].createdAt <= end :: f(s.txs[id])
  }

  lemma NextShare(s: Store, ids: seq<Id>, id: Id, start: int, end: int, f: Tx -> int)
    requires id in s.txs && id !in ids
    ensures TotalOf(Shares(s, ids + [id], start, end, f)) ==
            TotalOf(Shares(s, ids, start, end, f)) + if start <= s.txs[id].createdAt <= end then f(s.txs[id]) else 0
  {
    hide TotalOf;
    if start <= s.txs[id].createdAt <= end {
      TotalWith(Shares(s, ids, start, end, f), id, f(s.txs[id]));
      assert Shares(s, ids + [id], start, end, f) == Shares(s, ids, start, end, f)[id := f(s.txs[id])];
    } else {
      assert Shares(s, ids + [id], start, end, f) == Shares(s, ids, start, end, f);
    }
  }

  lemma NextSum(txs: seq<Tx>, tx: Tx, start: int, end: int, f: Tx -> int)
    ensures Sum(Select(txs + [tx], Within(start, end)), f) ==
            Sum(Select(txs, Within(start, end)), f) + if start <= tx.createdAt <= end then f(tx) else 0
  {
    assert (txs + [tx])[..|txs|] == txs;
    SumAppend(Select(txs, Within(start, end)), tx, f);
  }

  lemma {:induction false} PrefixTotals(s: Store, n: nat, start: int, end: int, f: Tx -> int)
    requires (forall id <- s.order :: id in s.txs) && n <= |s.order|
    requires forall i, j :: 0 <= i < j < |s.order| ==> s.order[i] != s.order[j]
    ensures Sum(Select(All(s)[..n], Within(start, end)), f) == TotalOf(Shares(s, s.order[..n], start, end, f))
  {
    if n == 0 {
      assert Shares(s, s.order[..0], start, end, f) == map[];
    } else {
      hide Sum, Select, TotalOf, Shares;
      PrefixTotals(s, n - 1, start, end, f);
      var id, tx := s.order[n - 1], All(s)[n - 1];
      assert All(s)[..n] == All(s)[..n - 1] + [tx];
      assert s.order[..n] == s.order[..n - 1] + [id];
      NextSum(All(s)[..n - 1], tx, start, end, f);
      NextShare(s, s.order[..n - 1], id, start, end, f);
    }
  }

  /** A measure summed over a range is its total over the stored IDs created in it. */
  lemma RangeTotals(s: Store, start: int, end: int, f: Tx -> int)
    requires Enumerated(s)
    ensures Listed(s)
    ensures Sum(InRange(s, start, end), f) ==
            TotalOf(map id | id in s.txs && start <= s.txs[id].createdAt <= end :: f(s.txs[id]))
  {
    EnumeratedMeans(s);
    hide Enumerated, Sum, TotalOf;
    PrefixTotals(s, |s.order|, start, end, f);
    assert All(s)[..|s.order|] == All(s) && s.order[..|s.order|] == s.order;
    assert Shares(s, s.order, start, end, f) ==
           map id | id in s.txs && start <= s.txs[id].createdAt <= end :: f(s.txs[id]);
  }

  /** Entries that are zero do not count. */
  lemma {:induction false} ZerosDrop(m: map<Id, int>, n: map<Id, int>)
    requires n.Keys <= m.Keys && forall k <- m :: if k in n then m[k] == n[k] else m[k] == 0
    ensures TotalOf(m) == TotalOf(n)
    decreases m.Keys
  {
    if m == map[] {
      assert n == map[];
    } else {
      var k :| k in m;
      TotalWithout(m, k);
      assert (m - {k}).Keys == m.Keys - {k} && (n - {k}).Keys == n.Keys - {k};
      ZerosDrop(m - {k}, n - {k});
      if k in n {
        TotalWithout(n, k);
      } else {
        assert n - {k} == n;
      }
    }
  }

  lemma {:induction false} OnesCount(m: map<Id, int>)
    requires forall k <- m :: m[k] == 1
    ensures TotalOf(m) == |m.Keys|
    decreases m.Keys
  {
    if m != map[] {
      var k :| k in m;
      TotalWithout(m, k);
      assert (m - {k}).Keys == m.Keys - {k};
      OnesCount(m - {k});
    } else {
      assert m.Keys == {};
    }
  }

  /** A measure that is one on some IDs in range and zero on the others counts them. */
  lemma RangeCounts(s: Store, start: int, end: int, f: Tx -> int, ids: set<Id>)
    requires Enumerated(s) && ids <= s.txs.Keys
    requires forall id <- ids :: start <= s.txs[id].createdAt <= end
    requires forall id <- s.txs | start <= s.txs[id].createdAt <= end :: f(s.txs[id]) == if id in ids then 1 else 0
    ensures Listed(s) && Sum(InRange(s, start, end), f) == |ids|
  {
    RangeTotals(s, start, end, f);
    var ones: map<Id, int> := map id | id in ids :: 1;
    ZerosDrop(map id | id in s.txs && start <= s.txs[id].createdAt <= end :: f(s.txs[id]), ones);
    OnesCount(ones);
    assert ones.Keys == ids;
  }

  /** A measure that is zero on the other IDs in range is totalled over these. */
  lemma RangeAmounts(s: Store, start: int, end: int, f: Tx -> int, amounts: map<Id, int>)
    requires Enumerated(s) && amounts.Keys <= s.txs.Keys
    requires forall id <- amounts :: start <= s.txs[id].createdAt <= end
    requires forall id <- s.txs | start <= s.txs[id].createdAt <= end ::
               f(s.txs[id]) == if id in amounts then amounts[id] else 0
    ensures Listed(s) && Sum(InRange(s, start, end), f) == TotalOf(amounts)
  {
    RangeTotals(s, start, end, f);
    ZerosDrop(map id | id in s.txs && start <= s.txs[id].createdAt <= end :: f(s.txs[id]), amounts);
  }

  // ---------- the recovery report ----------

  /** The stored IDs created in the range. */
  ghost function Created(s: Store, start: int, end: int): set<Id> {
    set id | id in s.txs && start <= s.txs[id].createdAt <= end
  }

  /** What the report counts, for any store whatever its records: IDs by decline and by status. */
  lemma ReportCounts(s: Store, start: int, end: int)
    requires Enumerated(s)
    ensures Listed(s)
    ensures var m, ids := RecoveryOf(InRange(s, start, end), start, end), Created(s, start, end);
            && m.start == start && m.end == end
            && m.total == |ids|
            && m.hard == |set id | id in ids && s.txs[id].classification.decline == HardDecline|
            && m.soft == |set id | id in ids && s.txs[id].classification.decline == SoftDecline|
            && m.recovered == |set id | id in ids && s.txs[id].status == Recovered|
            && m.exhausted == |set id | id in ids && s.txs[id].status == Exhausted|
  {
    var ids := Created(s, start, end);
    RangeCounts(s, start, end, One, ids);
    RangeCounts(s, start, end, Hard, set id | id in ids && s.txs[id].classification.decline == HardDecline);
    RangeCounts(s, start, end, Soft, set id | id in ids && s.txs[id].classification.decline == SoftDecline);
    RangeCounts(s, start, end, Recoveries, set id | id in ids && s.txs[id].status == Recovered);
    RangeCounts(s, start, end, Exhaustions, set id | id in ids && s.txs[id].status == Exhausted);
  }

  /** What it adds up: the amounts of soft declines and of recovered records, the costs, the numbers of
      attempts. */
  lemma ReportAmounts(s: Store, start: int, end: int)
    requires Enumerated(s)
    ensures Listed(s)
    ensures var m, ids := RecoveryOf(InRange(s, start, end), start, end), Created(s, start, end);
            && m.atRisk == TotalOf(map id | id in ids && s.txs[id].classification.decline == SoftDecline
                                     :: s.txs[id].event.amount)
            && m.revenue == TotalOf(map id | id in ids && s.txs[id].status == Recovered :: s.txs[id].event.amount)
            && m.cost == TotalOf(map id | id in ids :: s.txs[id].totalCost)
            && m.retries == TotalOf(map id | id in ids :: |s.txs[id].attempts|)
  {
    var ids := Created(s, start, end);
    RangeAmounts(s, start, end, AtRisk,
                 map id | id in ids && s.txs[id].classification.decline == SoftDecline :: s.txs[id].event.amount);
    RangeAmounts(s, start, end, Revenue, map id | id in ids && s.txs[id].status == Recovered :: s.txs[id].event.amount);
    RangeAmounts(s, start, end, Spent, map id | id in ids :: s.txs[id].totalCost);
    RangeAmounts(s, start, end, Tries, map id | id in ids :: |s.txs[id].attempts|);
  }

  /** The quotient of the part and the whole. */
  ghost predicate IsQuotient(q: real, part: int, whole: int) {
    q * whole as real == part as real
  }

  lemma QuotientIs(part: int, whole: int)
    requires whole > 0
    ensures IsQuotient(part as real / whole as real, part, whole)
  {
  }

  lemma RealQuotientIs(part: real, sum: int, whole: int)
    requires whole > 0 && part == sum as real
    ensures IsQuotient(part / whole as real, sum, whole)
  {
  }

  /** What the rate and the mean delay are quotients of. */
  lemma ReportQuotients(txs: seq<Tx>, start: int, end: int)
    ensures var m := RecoveryOf(txs, start, end);
            && (if m.soft > 0 then IsQuotient(m.recoveryRate, m.recovered, m.soft) else m.recoveryRate == 0.0)
            && (if m.retries > 0 then IsQuotient(m.latency, Sum(txs, Waited), m.retries)
                else m.latency == Sum(txs, Waited) as real)
  {
    hide IsQuotient, Sum, Breakdown;
    var m := Totals(txs, start, end);
    if m.soft > 0 {
      QuotientIs(m.recovered, m.soft);
    }
    if m.retries > 0 {
      RealQuotientIs(m.latency, Sum(txs, Waited), m.retries);
    }
  }

  /** Only the attempts of RATE_LIMIT_EXCEEDED records are delayed, 30 seconds each. */
  function DelayedTries(tx: Tx): int {
    if tx.event.code == RateLimitExceeded then 30 * |tx.attempts| else 0
  }

  lemma {:induction false} WaitIs(cat: Catalog, tx: Tx, n: nat)
    requires Booked(cat, tx) && n <= |tx.attempts|
    ensures Wait(tx.attempts[..n]) == if tx.event.code == RateLimitExceeded then 30 * n else 0
  {
    if n > 0 {
      WaitIs(cat, tx, n - 1);
      assert tx.attempts[..n][..n - 1] == tx.attempts[..n - 1];
      assert AttemptOk(cat, tx, n - 1);
    }
  }

  /** The mean delay: 30 seconds times the attempts of RATE_LIMIT_EXCEEDED records, per attempt. */
  lemma ReportLatency(cat: Catalog, s: Store, start: int, end: int)
    requires Enumerated(s) && forall id <- s.txs :: Booked(cat, s.txs[id])
    ensures Listed(s)
    ensures var m, ids := RecoveryOf(InRange(s, start, end), start, end), Created(s, start, end);
            var delays := map id | id in ids && s.txs[id].event.code == RateLimitExceeded :: 30 * |s.txs[id].attempts|;
            m.retries > 0 ==> IsQuotient(m.latency, TotalOf(delays), m.retries)
  {
    hide Booked, Wait, IsQuotient, RecoveryOf, Sum, TotalOf;
    DelaysInRange(cat, s, start, end);
    ReportQuotients(InRange(s, start, end), start, end);
    RetriesAre(InRange(s, start, end), start, end);
  }

  lemma RetriesAre(txs: seq<Tx>, start: int, end: int)
    ensures RecoveryOf(txs, start, end).retries == Sum(txs, Tries)
  {
  }

  lemma DelaysInRange(cat: Catalog, s: Store, start: int, end: int)
    requires Enumerated(s) && forall id <- s.txs :: Booked(cat, s.txs[id])
    ensures Listed(s)
    ensures var ids := Created(s, start, end);
            Sum(InRange(s, start, end), Waited) ==
            TotalOf(map id | id in ids && s.txs[id].event.code == RateLimitExceeded :: 30 * |s.txs[id].attempts|)
  {
    var ids := Created(s, start, end);
    forall id <- s.txs ensures Waited(s.txs[id]) == DelayedTries(s.txs[id]) {
      var tx := s.txs[id];
      WaitIs(cat, tx, |tx.attempts|);
      assert tx.attempts[..|tx.attempts|] == tx.attempts;
    }
    hide Booked, Wait, TotalOf, Sum;
    RangeAmounts(s, start, end, Waited,
                 map id | id in ids && s.txs[id].event.code == RateLimitExceeded :: 30 * |s.txs[id].attempts|);
  }

  /** On every run: the recovered records of a range are the soft declines whose last attempt succeeded or
      for which a success was reported from outside, and the exhausted ones are the other soft declines. */
  lemma RecoveriesOnRuns(cat: Catalog, o: World.Oracle, ops: seq<Op>, start: int, end: int)
    requires Usable(cat)
    ensures Listed(Run(cat, o, INITIAL, ops).store)
    ensures var s := Run(cat, o, INITIAL, ops).store;
            var m, ids := RecoveryOf(InRange(s, start, end), start, end), Created(s, start, end);
            && m.recovered == |set id | id in ids && Classify(s.txs[id].event).decline == SoftDecline
                                        && (LastSucceeded(s.txs[id]) || id in Confirmed(cat, o, ops))|
            && m.exhausted == |set id | id in ids && Classify(s.txs[id].event).decline == SoftDecline
                                        && !(LastSucceeded(s.txs[id]) || id in Confirmed(cat, o, ops))|
  {
    var s, confirmed := Run(cat, o, INITIAL, ops).store, Confirmed(cat, o, ops);
    ReachableStoresAreOk(cat, o, ops);
    forall id <- s.txs ensures StatusIs(s.txs[id], id in confirmed) {
      StatusOnRuns(cat, o, ops, id);
    }
    hide Run, StoreOk, RecoveryOf, StatusIs, Confirmed, Classify;
    ReportCounts(s, start, end);
    SameIds(s, Created(s, start, end), confirmed);
  }

  /** What decides the status of a record between calls. */
  ghost predicate StatusIs(tx: Tx, confirmed: bool) {
    var soft := Classify(tx.event).decline == SoftDecline;
    && (tx.status == Recovered <==> soft && (LastSucceeded(tx) || confirmed))
    && (tx.status == Exhausted <==> soft && !(LastSucceeded(tx) || confirmed))
  }

  lemma SameIds(s: Store, ids: set<Id>, confirmed: set<Id>)
    requires ids <= s.txs.Keys && forall id <- s.txs :: StatusIs(s.txs[id], id in confirmed)
    ensures (set id | id in ids && s.txs[id].status == Recovered) ==
            set id | id in ids && Classify(s.txs[id].event).decline == SoftDecline
                     && (LastSucceeded(s.txs[id]) || id in confirmed)
    ensures (set id | id in ids && s.txs[id].status == Exhausted) ==
            set id | id in ids && Classify(s.txs[id].event).decline == SoftDecline
                     && !(LastSucceeded(s.txs[id]) || id in confirmed)
  {
    hide LastSucceeded, Classify;
  }

  lemma StatusOnRuns(cat: Catalog, o: World.Oracle, ops: seq<Op>, id: Id)
    requires Usable(cat) && id in Run(cat, o, INITIAL, ops).store.txs
    ensures StatusIs(Run(cat, o, INITIAL, ops).store.txs[id], id in Confirmed(cat, o, ops))
  {
    var s := Run(cat, o, INITIAL, ops).store;
    ReachableStoresAreOk(cat, o, ops);
    assert RecordOk(cat, s, id);
    if s.txs[id].classification.decline == SoftDecline {
      RecoveredIffConfirmed(cat, o, ops, id);
    }
  }

  // ---------- the processor report ----------

  lemma {:induction false} PriceIs(cat: Catalog, tx: Tx, p: Processor, n: nat)
    requires Booked(cat, tx) && n <= |tx.attempts|
    ensures Price(tx.attempts[..n], p) == cat.Cost(p) * Uses(tx.attempts[..n], p, {true, false})
  {
    if n > 0 {
      PriceIs(cat, tx, p, n - 1);
      assert tx.attempts[..n][..n - 1] == tx.attempts[..n - 1];
      assert AttemptOk(cat, tx, n - 1);
    }
  }

  lemma {:induction false} PricesAre(cat: Catalog, txs: seq<Tx>, p: Processor)
    requires AllBooked(cat, txs)
    ensures Sum(txs, PriceOf(p)) == cat.Cost(p) * Sum(txs, UsesOf(p, {true, false}))
  {
    if txs != [] {
      var front, tx := txs[..|txs| - 1], txs[|txs| - 1];
      PricesAre(cat, front, p);
      PriceIs(cat, tx, p, |tx.attempts|);
      assert tx.attempts[..|tx.attempts|] == tx.attempts;
      Distributes(cat.Cost(p), Sum(front, UsesOf(p, {true, false})), Uses(tx.attempts, p, {true, false}));
    }
  }

  lemma Distributes(k: int, a: int, b: int)
    ensures k * (a + b) == k * a + k * b
  {
  }

  /** What a processor's entry says: it paid its own price for every attempt, and its success rate is the
      share of its successes. */
  lemma EntryIs(cat: Catalog, txs: seq<Tx>, p: Processor, health: Snapshot)
    requires AllBooked(cat, txs)
    ensures var m := ProcessorOf(txs, p, health);
            && m.processor == p && m.health == health
            && m.cost == cat.Cost(p) * m.attempts
            && (if m.attempts > 0 then IsQuotient(m.successRate, m.successes, m.attempts) else m.successRate == 0.0)
  {
    PricesAre(cat, txs, p);
    var m := TotalsOn(txs, p, health);
    if m.attempts > 0 {
      QuotientIs(m.successes, m.attempts);
    }
  }
}
