/** Sums over lists of records and over maps. */
module Tallies {
  import opened Domain
  import opened Ledger

  function Sum(s: seq<Tx>, f: Tx -> int): int {
    if s == [] then 0 else Sum(s[..|s| - 1], f) + f(s[|s| - 1])
  }

  lemma SumAppend(s: seq<Tx>, tx: Tx, f: Tx -> int)
    ensures Sum(s + [tx], f) == Sum(s, f) + f(tx)
  {
    assert (s + [tx])[..|s|] == s;
  }

  /** Equal measures, record by record, have equal sums. */
  lemma {:induction false} SumSame(s: seq<Tx>, t: seq<Tx>, f: Tx -> int, g: Tx -> int)
    requires |s| == |t| && forall i :: 0 <= i < |s| ==> f(s[i]) == g(t[i])
    ensures Sum(s, f) == Sum(t, g)
  {
    if s != [] {
      SumSame(s[..|s| - 1], t[..|t| - 1], f, g);
    }
  }

  lemma {:induction false} SumAtMost(s: seq<Tx>, f: Tx -> int, g: Tx -> int)
    requires forall tx <- s :: f(tx) <= g(tx)
    ensures Sum(s, f) <= Sum(s, g)
  {
    if s != [] {
      SumAtMost(s[..|s| - 1], f, g);
    }
  }

  /** A measure that is the sum of two others, record by record, sums to the sum of their sums. */
  lemma {:induction false} SumSplits(s: seq<Tx>, f: Tx -> int, g: Tx -> int, h: Tx -> int)
    requires forall tx <- s :: f(tx) == g(tx) + h(tx)
    ensures Sum(s, f) == Sum(s, g) + Sum(s, h)
  {
    if s != [] {
      SumSplits(s[..|s| - 1], f, g, h);
    }
  }

  lemma {:induction false} SumScaled(s: seq<Tx>, f: Tx -> int, k: int, g: Tx -> int)
    requires forall tx <- s :: f(tx) <= k * g(tx)
    ensures Sum(s, f) <= k * Sum(s, g)
  {
    if s != [] {
      SumScaled(s[..|s| - 1], f, k, g);
      var last := s[|s| - 1];
      assert k * (Sum(s[..|s| - 1], g) + g(last)) == k * Sum(s[..|s| - 1], g) + k * g(last);
    }
  }

  lemma {:induction false} SumNonNegative(s: seq<Tx>, f: Tx -> int)
    requires forall tx <- s :: f(tx) >= 0
    ensures Sum(s, f) >= 0
  {
    if s != [] {
      SumNonNegative(s[..|s| - 1], f);
    }
  }

  /** Selecting two disjoint classes of records splits the sum. */
  lemma {:induction false} SumOfSelections(s: seq<Tx>, f: Tx -> int, both: Tx -> bool, one: Tx -> bool,
                                           other: Tx -> bool)
    requires forall tx <- s :: (both(tx) <==> one(tx) || other(tx)) && !(one(tx) && other(tx))
    ensures Sum(Select(s, both), f) == Sum(Select(s, one), f) + Sum(Select(s, other), f)
  {
    if s != [] {
      var front, last := s[..|s| - 1], s[|s| - 1];
      SumOfSelections(front, f, both, one, other);
      SumAppend(Select(front, both), last, f);
      SumAppend(Select(front, one), last, f);
      SumAppend(Select(front, other), last, f);
    }
  }

  // ---------- sums over maps ----------

  ghost function TotalOf<K(!new)>(m: map<K, int>): int {
    if m == map[] then 0 else var c :| c in m; m[c] + TotalOf(m - {c})
  }

  lemma {:induction false} TotalWithout<K(!new)>(m: map<K, int>, c: K)
    requires c in m
    ensures TotalOf(m) == m[c] + TotalOf(m - {c})
    decreases m.Keys
  {
    var d :| d in m && TotalOf(m) == m[d] + TotalOf(m - {d});
    if d != c {
      assert (m - {d}).Keys == m.Keys - {d} && (m - {c}).Keys == m.Keys - {c};
      TotalWithout(m - {d}, c);
      TotalWithout(m - {c}, d);
      assert m - {d} - {c} == m - {c} - {d};
    }
  }

  /** Changing one entry changes the total by as much. */
  lemma TotalWith<K(!new)>(m: map<K, int>, k: K, v: int)
    ensures TotalOf(m[k := v]) == TotalOf(m) - (if k in m then m[k] else 0) + v
  {
    TotalWithout(m[k := v], k);
    if k in m {
      TotalWithout(m, k);
      assert m[k := v] - {k} == m - {k};
    } else {
      assert m[k := v] - {k} == m;
    }
  }
}
