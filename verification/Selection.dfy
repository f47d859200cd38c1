/** The choice among alternative processors: filter, rank, fall back. */
module Selection {
  import opened Domain
  import opened Adaptive

  /** What planning has read about one alternative processor. */
  datatype Reading = Reading(name: Processor, state: HealthState, failureRate: real, adaptiveRate: real)

  datatype Candidate = Candidate(name: Processor, cost: int, failureRate: real, adaptiveRate: real)

  /** The comparator of the sort: adaptive rate descending, cost ascending, failure rate ascending. */
  predicate Better(a: Candidate, b: Candidate) {
    if a.adaptiveRate != b.adaptiveRate then a.adaptiveRate > b.adaptiveRate
    else if a.cost != b.cost then a.cost < b.cost
    else a.failureRate < b.failureRate
  }

  function CandidateOf(cat: Catalog, r: Reading): Candidate {
    Candidate(r.name, cat.Cost(r.name), r.failureRate, r.adaptiveRate)
  }

  /** The processors not read as DOWN, in catalogue order. */
  function Eligible(cat: Catalog, readings: seq<Reading>): seq<Candidate> {
    if readings == [] then []
    else
      var front, last := Eligible(cat, readings[..|readings| - 1]), readings[|readings| - 1];
      if last.state == Down then front else front + [CandidateOf(cat, last)]
  }

  function Best(candidates: seq<Candidate>): (best: Candidate)
    requires candidates != []
    ensures best in candidates
  {
    var last := candidates[|candidates| - 1];
    if |candidates| == 1 then last
    else
      var best := Best(candidates[..|candidates| - 1]);
      if Better(last, best) then last else best
  }

  /** The fallback search: the first name strictly cheaper than all before it and than the sentinel. */
  function Cheapest(cat: Catalog, readings: seq<Reading>): Option<Processor> {
    if readings == [] then None
    else
      var best, last := Cheapest(cat, readings[..|readings| - 1]), readings[|readings| - 1].name;
      if cat.Cost(last) < (if best.None? then COST_SENTINEL else cat.Cost(best.value)) then Some(last) else best
  }

  function Choose(cat: Catalog, readings: seq<Reading>): Option<Processor> {
    var candidates := Eligible(cat, readings);
    if candidates == [] then Cheapest(cat, readings) else Some(Best(candidates).name)
  }

  // ---------- the comparator ----------

  ghost predicate CostsDiffer(candidates: seq<Candidate>) {
    forall a <- candidates, b <- candidates :: a.cost == b.cost ==> a == b
  }

  /** With distinct costs the comparator is a strict total order, and the failure rate never
      gets to decide. */
  lemma ComparatorIsStrictTotalOrder(candidates: seq<Candidate>)
    requires CostsDiffer(candidates)
    ensures forall a <- candidates :: !Better(a, a)
    ensures forall a <- candidates, b <- candidates :: a != b ==> (Better(a, b) <==> !Better(b, a))
    ensures forall a <- candidates, b <- candidates, c <- candidates ::
              Better(a, b) && Better(b, c) ==> Better(a, c)
    ensures forall a <- candidates, b <- candidates :: a != b ==>
              (Better(a, b) <==>
                 a.adaptiveRate > b.adaptiveRate || (a.adaptiveRate == b.adaptiveRate && a.cost < b.cost))
  {
  }

  lemma {:induction false} BestBeatsAll(candidates: seq<Candidate>, d: Candidate)
    requires candidates != [] && CostsDiffer(candidates) && d in candidates
    ensures d == Best(candidates) || Better(Best(candidates), d)
  {
    if |candidates| > 1 {
      var front, last := candidates[..|candidates| - 1], candidates[|candidates| - 1];
      assert candidates == front + [last];
      BestBeatsAll(front, Best(front));
      if d in front {
        BestBeatsAll(front, d);
      }
      assert last in candidates && Best(front) in candidates;
    }
  }

  /** No element comes before one that is better. */
  ghost predicate Ranked(s: seq<Candidate>) {
    forall i, j :: 0 <= i < j < |s| ==> !Better(s[j], s[i])
  }

  /** Whatever correct sort is used, stable or not, its first element is the best candidate. */
  lemma AnySortPutsBestFirst(sorted: seq<Candidate>, candidates: seq<Candidate>)
    requires candidates != [] && CostsDiffer(candidates)
    requires multiset(sorted) == multiset(candidates)
    requires Ranked(sorted)
    ensures |sorted| == |candidates| && sorted[0] == Best(candidates)
  {
    assert |sorted| == |multiset(sorted)| == |multiset(candidates)| == |candidates|;
    var best := Best(candidates);
    assert best in multiset(sorted);
    var k :| 0 <= k < |sorted| && sorted[k] == best;
    assert sorted[0] in multiset(candidates);
    BestBeatsAll(candidates, sorted[0]);
  }

  method SwapDown(a: array<Candidate>, k: nat)
    requires 0 < k < a.Length
    modifies a
    ensures a[k] == old(a[k - 1]) && a[k - 1] == old(a[k])
    ensures forall i :: 0 <= i < a.Length && i != k && i != k - 1 ==> a[i] == old(a[i])
    ensures multiset(a[..]) == multiset(old(a[..]))
  {
    a[k], a[k - 1] := a[k - 1], a[k];
  }

  /** Moves the element after a ranked prefix to its place in it. */
  method SiftDown(a: array<Candidate>, n: nat)
    requires n < a.Length && Ranked(a[..n])
    modifies a
    ensures multiset(a[..]) == multiset(old(a[..]))
    ensures Ranked(a[..n + 1])
  {
    var k := n;
    while k > 0 && Better(a[k], a[k - 1])
      invariant k <= n
      invariant multiset(a[..]) == multiset(old(a[..]))
      invariant forall i, j :: 0 <= i < j <= n && j != k ==> !Better(a[j], a[i])
    {
      SwapDown(a, k);
      k := k - 1;
    }
  }

  /** Sorts in place by the comparator. */
  method SortSlice(a: array<Candidate>)
    modifies a
    ensures multiset(a[..]) == multiset(old(a[..]))
    ensures Ranked(a[..])
  {
    for n := 0 to a.Length
      invariant multiset(a[..]) == multiset(old(a[..]))
      invariant Ranked(a[..n])
    {
      SiftDown(a, n);
    }
    assert a[..a.Length] == a[..];
  }

  // ---------- what is chosen ----------

  /** Readings of pairwise different processors of the catalogue. */
  ghost predicate ReadingsOk(cat: Catalog, readings: seq<Reading>) {
    && cat.Ok()
    && (forall r <- readings :: r.name in cat.names)
    && (forall i, j :: 0 <= i < j < |readings| ==> readings[i].name != readings[j].name)
  }

  /** The k-th processor is the choice: unless all are DOWN it is up and beats every other that is
      up, by a higher adaptive rate or an equal one and a lower cost; if all are DOWN it is the
      cheapest. */
  ghost predicate IsChoice(cat: Catalog, readings: seq<Reading>, k: nat)
    requires k < |readings|
  {
    var r := readings[k];
    forall j | 0 <= j < |readings| && j != k :: Outranks(cat, r, readings[j])
  }

  ghost predicate Outranks(cat: Catalog, r: Reading, s: Reading) {
    if r.state == Down then s.state == Down && cat.Cost(r.name) < cat.Cost(s.name)
    else s.state != Down ==>
      r.adaptiveRate > s.adaptiveRate || (r.adaptiveRate == s.adaptiveRate && cat.Cost(r.name) < cat.Cost(s.name))
  }

  lemma {:induction false} EligibleHolds(cat: Catalog, readings: seq<Reading>)
    ensures forall r <- readings :: r.state != Down ==> CandidateOf(cat, r) in Eligible(cat, readings)
    ensures forall c <- Eligible(cat, readings) ::
              exists k :: 0 <= k < |readings| && readings[k].state != Down && c == CandidateOf(cat, readings[k])
  {
    if readings != [] {
      var front, last := readings[..|readings| - 1], readings[|readings| - 1];
      EligibleHolds(cat, front);
      assert readings == front + [last];
    }
  }

  lemma EligibleCostsDiffer(cat: Catalog, readings: seq<Reading>)
    requires ReadingsOk(cat, readings)
    ensures CostsDiffer(Eligible(cat, readings))
  {
    EligibleHolds(cat, readings);
  }

  lemma {:induction false} CheapestBeatsAll(cat: Catalog, readings: seq<Reading>) returns (k: nat)
    requires ReadingsOk(cat, readings) && readings != []
    ensures k < |readings| && Cheapest(cat, readings) == Some(readings[k].name)
    ensures forall j :: 0 <= j < |readings| && j != k ==> cat.Cost(readings[k].name) < cat.Cost(readings[j].name)
  {
    var n := |readings| - 1;
    var front := readings[..n];
    assert readings[n] in readings;
    if n == 0 {
      return 0;
    }
    assert ReadingsOk(cat, front);
    k := CheapestBeatsAll(cat, front);
    assert readings[k] in readings;
    if cat.Cost(readings[n].name) < cat.Cost(readings[k].name) {
      k := n;
    }
  }

  /** Among at least one alternative there always is a choice, and it is an IsChoice. */
  lemma ChoiceExists(cat: Catalog, readings: seq<Reading>) returns (k: nat)
    requires ReadingsOk(cat, readings) && readings != []
    ensures k < |readings| && IsChoice(cat, readings, k)
    ensures Choose(cat, readings) == Some(readings[k].name)
  {
    var candidates := Eligible(cat, readings);
    EligibleHolds(cat, readings);
    if candidates == [] {
      k := CheapestBeatsAll(cat, readings);
    } else {
      EligibleCostsDiffer(cat, readings);
      var best := Best(candidates);
      k :| 0 <= k < |readings| && readings[k].state != Down && best == CandidateOf(cat, readings[k]);
      forall j | 0 <= j < |readings| && j != k ensures Outranks(cat, readings[k], readings[j]) {
        if readings[j].state != Down {
          BestBeatsAll(candidates, CandidateOf(cat, readings[j]));
        }
      }
    }
  }

  /** Selection is exactly the lexicographic best: a processor is selected if and only if it is the
      choice in the declarative sense, which therefore is unique. */
  lemma ChooseIsTheChoice(cat: Catalog, readings: seq<Reading>, k: nat)
    requires ReadingsOk(cat, readings) && k < |readings|
    ensures Choose(cat, readings) == Some(readings[k].name) <==> IsChoice(cat, readings, k)
  {
    var c := ChoiceExists(cat, readings);
    if c != k {
      assert Outranks(cat, readings[c], readings[k]);
    }
  }

  /** If p is selected for a code and then succeeds, p is selected again as long as the same
      processors are up, whatever happened to the failure rates. */
  lemma SuccessKeepsSelection(cat: Catalog, a: Weights, code: Code, p: Processor,
                              before: seq<Reading>, after: seq<Reading>)
    requires ReadingsOk(cat, before) && |after| == |before|
    requires RecordOf(a, code, p).successes <= RecordOf(a, code, p).total
    requires forall i :: 0 <= i < |before| ==>
               && after[i].name == before[i].name
               && (after[i].state == Down <==> before[i].state == Down)
               && before[i].adaptiveRate == Rate(a, code, before[i].name)
               && after[i].adaptiveRate == Rate(Learn(a, code, p, true), code, before[i].name)
    requires Choose(cat, before) == Some(p)
    ensures Choose(cat, after) == Some(p)
  {
    LearningIsMonotone(a, code, p, true);
    if before != [] {
      var k := ChoiceExists(cat, before);
      forall r <- after ensures r.name in cat.names {
        var i :| 0 <= i < |after| && after[i] == r;
        assert before[i] in before;
      }
      forall j | 0 <= j < |after| && j != k ensures Outranks(cat, after[k], after[j]) {
        assert Outranks(cat, before[k], before[j]);
      }
      ChooseIsTheChoice(cat, after, k);
    }
  }
}
