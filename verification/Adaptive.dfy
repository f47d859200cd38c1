/** What retries teach: success ratios per failure code and processor. */
module Adaptive {
  import opened Domain

  datatype AdaptiveRecord = AdaptiveRecord(successes: nat, total: nat)

  type Weights = map<Code, map<Processor, AdaptiveRecord>>

  function RecordOf(a: Weights, c: Code, p: Processor): AdaptiveRecord {
    if c in a && p in a[c] then a[c][p] else AdaptiveRecord(0, 0)
  }

  function Learn(a: Weights, c: Code, p: Processor, success: bool): Weights {
    var row := if c in a then a[c] else map[];
    var rec := RecordOf(a, c, p);
    a[c := row[p := AdaptiveRecord(rec.successes + if success then 1 else 0, rec.total + 1)]]
  }

  /** The learned success ratio, neutral before the first record. */
  function Rate(a: Weights, c: Code, p: Processor): real {
    var rec := RecordOf(a, c, p);
    if rec.total == 0 then 0.5 else rec.successes as real / rec.total as real
  }

  /** One outcome that was learned from. */
  datatype Lesson = Lesson(code: Code, processor: Processor, success: bool)

  function LearnAll(a: Weights, lessons: seq<Lesson>): Weights {
    if lessons == [] then a
    else
      var l := lessons[|lessons| - 1];
      Learn(LearnAll(a, lessons[..|lessons| - 1]), l.code, l.processor, l.success)
  }

  /** How many lessons concern this code and processor, of those with the given outcomes. */
  function Count(lessons: seq<Lesson>, c: Code, p: Processor, outcomes: set<bool>): nat {
    if lessons == [] then 0
    else
      var l := lessons[|lessons| - 1];
      Count(lessons[..|lessons| - 1], c, p, outcomes)
      + if l.code == c && l.processor == p && l.success in outcomes then 1 else 0
  }

  lemma LearnChangesOneRecord(a: Weights, c: Code, p: Processor, success: bool, c': Code, p': Processor)
    ensures RecordOf(Learn(a, c, p, success), c', p') ==
            var rec := RecordOf(a, c', p');
            if c' == c && p' == p
            then AdaptiveRecord(rec.successes + if success then 1 else 0, rec.total + 1)
            else rec
  {
  }

  /** Totals and successes are exactly the lessons, and the successful lessons, of the pair. */
  lemma {:induction false} WeightsCountLessons(a: Weights, lessons: seq<Lesson>, c: Code, p: Processor)
    ensures RecordOf(LearnAll(a, lessons), c, p) ==
            AdaptiveRecord(RecordOf(a, c, p).successes + Count(lessons, c, p, {true}),
                           RecordOf(a, c, p).total + Count(lessons, c, p, {true, false}))
  {
    if lessons != [] {
      var front, l := lessons[..|lessons| - 1], lessons[|lessons| - 1];
      WeightsCountLessons(a, front, c, p);
      LearnChangesOneRecord(LearnAll(a, front), l.code, l.processor, l.success, c, p);
    }
  }

  lemma LearnOne(a: Weights, l: Lesson)
    ensures LearnAll(a, [l]) == Learn(a, l.code, l.processor, l.success)
  {
    assert [l][..0] == [];
  }

  lemma {:induction false} LearnAllConcat(a: Weights, xs: seq<Lesson>, ys: seq<Lesson>)
    ensures LearnAll(a, xs + ys) == LearnAll(LearnAll(a, xs), ys)
  {
    if ys == [] {
      assert xs + ys == xs;
    } else {
      LearnAllConcat(a, xs, ys[..|ys| - 1]);
      assert (xs + ys)[..|xs + ys| - 1] == xs + ys[..|ys| - 1];
    }
  }

  lemma {:induction false} CountConcat(xs: seq<Lesson>, ys: seq<Lesson>, c: Code, p: Processor, outcomes: set<bool>)
    ensures Count(xs + ys, c, p, outcomes) == Count(xs, c, p, outcomes) + Count(ys, c, p, outcomes)
  {
    if ys == [] {
      assert xs + ys == xs;
    } else {
      CountConcat(xs, ys[..|ys| - 1], c, p, outcomes);
      assert (xs + ys)[..|xs + ys| - 1] == xs + ys[..|ys| - 1];
    }
  }

  lemma {:induction false} SuccessesWithinTotal(lessons: seq<Lesson>, c: Code, p: Processor)
    ensures Count(lessons, c, p, {true}) <= Count(lessons, c, p, {true, false})
  {
    if lessons != [] {
      SuccessesWithinTotal(lessons[..|lessons| - 1], c, p);
    }
  }

  /** The share of successes among some outcomes, and neutral if there are none. */
  ghost predicate IsShare(rate: real, successes: nat, outcomes: nat) {
    if outcomes == 0 then rate == 0.5 else rate * outcomes as real == successes as real
  }

  lemma RateIsShare(a: Weights, c: Code, p: Processor)
    ensures IsShare(Rate(a, c, p), RecordOf(a, c, p).successes, RecordOf(a, c, p).total)
  {
  }

  // ---------- learning is monotone ----------

  lemma RatioSteps(s: nat, t: nat)
    requires s <= t && t > 0
    ensures 0.0 <= s as real / t as real <= 1.0
    ensures s as real / (t + 1) as real <= s as real / t as real <= (s + 1) as real / (t + 1) as real
  {
    var x, y := s as real, t as real;
    var r, down, up := x / y, x / (y + 1.0), (x + 1.0) / (y + 1.0);
    assert r * y == x && down * (y + 1.0) == x && up * (y + 1.0) == x + 1.0;
    assert (r - 1.0) * y <= 0.0;
    assert (r - down) * y == down;
    assert (up - r) * (y + 1.0) == 1.0 - r;
  }

  /** A failure never raises the pair's rate and a success never lowers it, from the neutral 0.5 on;
      no other pair's rate moves. */
  lemma LearningIsMonotone(a: Weights, c: Code, p: Processor, success: bool)
    requires RecordOf(a, c, p).successes <= RecordOf(a, c, p).total
    ensures var before, after := Rate(a, c, p), Rate(Learn(a, c, p, success), c, p);
            0.0 <= after <= 1.0 && if success then before <= after else after <= before
    ensures forall c', p' :: (c', p') != (c, p) ==> Rate(Learn(a, c, p, success), c', p') == Rate(a, c', p')
  {
    var rec := RecordOf(a, c, p);
    LearnChangesOneRecord(a, c, p, success, c, p);
    if rec.total > 0 {
      RatioSteps(rec.successes, rec.total);
      RatioSteps(rec.successes + if success then 1 else 0, rec.total + 1);
    }
    forall c', p' | (c', p') != (c, p)
      ensures Rate(Learn(a, c, p, success), c', p') == Rate(a, c', p')
    {
      LearnChangesOneRecord(a, c, p, success, c', p');
    }
  }
}
