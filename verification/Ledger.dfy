/** The store as a value: records by ID, their insertion order and the decision log. */
module Ledger {
  import opened Domain

  datatype Store = Store(txs: map<Id, Tx>, logs: map<Id, seq<Decision>>, order: seq<Id>)

  const EMPTY: Store := Store(map[], map[], [])

  /** The order list enumerates the keys of the record map, each exactly once. */
  ghost predicate Enumerated(s: Store) {
    multiset(s.order) == multiset(s.txs.Keys)
  }

  function LogOf(s: Store, id: Id): seq<Decision> {
    if id in s.logs then s.logs[id] else []
  }

  /** A rejected save (the ID exists) leaves the store as it was. */
  function Save(s: Store, tx: Tx): Store {
    if tx.id in s.txs then s
    else s.(txs := s.txs[tx.id := tx], order := s.order + [tx.id])
  }

  /** An update of an unknown ID is rejected and changes nothing. */
  function Update(s: Store, tx: Tx): Store {
    if tx.id in s.txs then s.(txs := s.txs[tx.id := tx]) else s
  }

  function Log(s: Store, d: Decision): Store {
    s.(logs := s.logs[d.id := LogOf(s, d.id) + [d]])
  }

  /** All records in insertion order. */
  function All(s: Store): seq<Tx>
    requires forall id <- s.order :: id in s.txs
  {
    seq(|s.order|, i requires 0 <= i < |s.order| => s.txs[s.order[i]])
  }

  function Select(s: seq<Tx>, keep: Tx -> bool): seq<Tx> {
    if s == [] then []
    else
      var front := Select(s[..|s| - 1], keep);
      if keep(s[|s| - 1]) then front + [s[|s| - 1]] else front
  }

  datatype Filter = Filter(status: Option<Status>, processor: Option<Processor>, limit: int, offset: int)

  function Matching(status: Option<Status>, processor: Option<Processor>): Tx -> bool {
    (tx: Tx) => && (status.Some? ==> tx.status == status.value)
                && (processor.Some? ==> tx.event.processor == processor.value)
  }

  function Within(start: int, end: int): Tx -> bool {
    (tx: Tx) => start <= tx.createdAt <= end
  }

  /** Offset then limit; a non-positive offset skips nothing and a non-positive limit cuts nothing. */
  function Page(r: seq<Tx>, offset: int, limit: int): seq<Tx> {
    var rest := if offset <= 0 then r else if offset >= |r| then [] else r[offset..];
    if limit > 0 && |rest| > limit then rest[..limit] else rest
  }

  function List(s: Store, f: Filter): seq<Tx>
    requires forall id <- s.order :: id in s.txs
  {
    Page(Select(All(s), Matching(f.status, f.processor)), f.offset, f.limit)
  }

  function InRange(s: Store, start: int, end: int): seq<Tx>
    requires forall id <- s.order :: id in s.txs
  {
    Select(All(s), Within(start, end))
  }

  // ---------- the order list stays an enumeration ----------

  lemma EnumeratedMeans(s: Store)
    ensures Enumerated(s) <==>
              && (forall id :: id in s.order <==> id in s.txs)
              && (forall i, j :: 0 <= i < j < |s.order| ==> s.order[i] != s.order[j])
  {
    forall id ensures id in s.order <==> id in multiset(s.order) {
    }
    if Enumerated(s) {
      forall i, j | 0 <= i < j < |s.order| ensures s.order[i] != s.order[j] {
        assert s.order == s.order[..j] + [s.order[j]] + s.order[j + 1..];
        assert s.order[i] in multiset(s.order[..j]);
        assert multiset(s.order)[s.order[j]] <= 1;
      }
    } else if forall i, j :: 0 <= i < j < |s.order| ==> s.order[i] != s.order[j] {
      forall id ensures multiset(s.order)[id] <= 1 {
        DistinctMeansOnce(s.order, id);
      }
    }
  }

  lemma {:induction false} DistinctMeansOnce(order: seq<Id>, id: Id)
    requires forall i, j :: 0 <= i < j < |order| ==> order[i] != order[j]
    ensures multiset(order)[id] <= 1
  {
    if order != [] {
      var front, last := order[..|order| - 1], order[|order| - 1];
      DistinctMeansOnce(front, id);
      assert order == front + [last];
      assert last !in front;
    }
  }

  lemma SaveKeepsEnumeration(s: Store, tx: Tx)
    requires Enumerated(s)
    ensures Enumerated(Save(s, tx))
  {
    if tx.id !in s.txs {
      assert Save(s, tx).txs.Keys == s.txs.Keys + {tx.id};
    }
  }

  /** A save appends to the list or, for a duplicate ID, changes nothing. */
  lemma SaveAppends(s: Store, tx: Tx)
    requires Enumerated(s)
    ensures Enumerated(Save(s, tx))
    ensures forall id <- s.order :: id in s.txs
    ensures forall id <- Save(s, tx).order :: id in Save(s, tx).txs
    ensures All(Save(s, tx)) == if tx.id in s.txs then All(s) else All(s) + [tx]
    ensures Save(s, tx).logs == s.logs
  {
    SaveKeepsEnumeration(s, tx);
    EnumeratedMeans(s);
    EnumeratedMeans(Save(s, tx));
  }

  lemma UpdateKeepsEnumeration(s: Store, tx: Tx)
    requires Enumerated(s)
    ensures Enumerated(Update(s, tx))
  {
    if tx.id in s.txs {
      assert Update(s, tx).txs.Keys == s.txs.Keys;
    }
  }

  /** An update changes the list of all records at the position of its ID only. */
  lemma UpdateReplaces(s: Store, tx: Tx)
    requires Enumerated(s)
    ensures forall id <- s.order :: id in s.txs
    ensures Update(s, tx).logs == s.logs
    ensures Update(s, tx).order == s.order && forall id <- s.order :: id in Update(s, tx).txs
    ensures forall i :: 0 <= i < |s.order| ==> All(Update(s, tx))[i] == if s.order[i] == tx.id then tx else All(s)[i]
  {
    EnumeratedMeans(s);
  }

  /** A decision goes to the end of the log of its ID; no other log and no record changes. */
  lemma LogAppends(s: Store, d: Decision, id: Id)
    ensures LogOf(Log(s, d), id) == if id == d.id then LogOf(s, id) + [d] else LogOf(s, id)
    ensures Log(s, d).txs == s.txs && Log(s, d).order == s.order
  {
  }

  // ---------- listing ----------

  /** A selection holds the records that pass, each as often as the list does, and nothing else. */
  lemma {:induction false} SelectionIsExact(s: seq<Tx>, keep: Tx -> bool)
    ensures forall tx :: multiset(Select(s, keep))[tx] == if keep(tx) then multiset(s)[tx] else 0
  {
    if s != [] {
      var front, last := s[..|s| - 1], s[|s| - 1];
      SelectionIsExact(front, keep);
      assert s == front + [last];
    }
  }

  /** It keeps the order: what is selected from the first part comes before the rest. */
  lemma {:induction false} SelectionKeepsOrder(s: seq<Tx>, t: seq<Tx>, keep: Tx -> bool)
    ensures Select(s + t, keep) == Select(s, keep) + Select(t, keep)
  {
    if t == [] {
      assert s + t == s;
    } else {
      var front, last := t[..|t| - 1], t[|t| - 1];
      SelectionKeepsOrder(s, front, keep);
      assert (s + t)[..|s + t| - 1] == s + front;
    }
  }

  /** Unpaginated, a listing shows exactly the stored records with the status and the original processor
      asked for, if any. */
  lemma ListIsFiltered(s: Store, status: Option<Status>, processor: Option<Processor>, tx: Tx)
    requires forall id <- s.order :: id in s.txs
    ensures tx in List(s, Filter(status, processor, 0, 0)) <==>
              && tx in All(s)
              && (status == None || tx.status == status.value)
              && (processor == None || tx.event.processor == processor.value)
  {
    var listed := Select(All(s), Matching(status, processor));
    SelectionIsExact(All(s), Matching(status, processor));
    assert tx in listed <==> tx in multiset(listed);
    assert tx in All(s) <==> tx in multiset(All(s));
  }

  /** A range shows exactly the stored records created between its ends, both included. */
  lemma RangeIsFiltered(s: Store, start: int, end: int, tx: Tx)
    requires forall id <- s.order :: id in s.txs
    ensures tx in InRange(s, start, end) <==> tx in All(s) && start <= tx.createdAt && tx.createdAt <= end
  {
    SelectionIsExact(All(s), Within(start, end));
    assert tx in InRange(s, start, end) <==> tx in multiset(InRange(s, start, end));
    assert tx in All(s) <==> tx in multiset(All(s));
  }

  /** A page is the part of the list between its offset and its limit, both cut to what there is. */
  lemma PageIsSlice(r: seq<Tx>, offset: int, limit: int)
    ensures var from := if offset < 0 then 0 else if offset < |r| then offset else |r|;
            var to := if limit > 0 && from + limit < |r| then from + limit else |r|;
            Page(r, offset, limit) == r[from..to]
  {
  }

  /** The pages at offsets 0, limit, 2*limit, ... (k of them), one after the other. */
  function Pages(s: Store, f: Filter, k: nat): seq<Tx>
    requires forall id <- s.order :: id in s.txs
  {
    if k == 0 then []
    else Pages(s, f, k - 1) + List(s, f.(offset := (k - 1) * f.limit))
  }

  function Take(r: seq<Tx>, n: nat): seq<Tx> {
    if n <= |r| then r[..n] else r
  }

  lemma NextPage(r: seq<Tx>, done: nat, limit: nat)
    requires limit > 0
    ensures Take(r, done) + Page(r, done, limit) == Take(r, done + limit)
  {
  }

  /** Pages tile the unpaginated list: k pages are its first k*limit records, so enough pages
      are the whole list, in insertion order. */
  lemma {:induction false} PagesTile(s: Store, f: Filter, k: nat)
    requires forall id <- s.order :: id in s.txs
    requires f.limit > 0
    ensures k * f.limit >= 0
    ensures Pages(s, f, k) == Take(List(s, f.(offset := 0, limit := 0)), k * f.limit)
  {
    var whole := Select(All(s), Matching(f.status, f.processor));
    if k > 0 {
      PagesTile(s, f, k - 1);
      assert k * f.limit == (k - 1) * f.limit + f.limit;
      NextPage(whole, (k - 1) * f.limit, f.limit);
    }
  }
}
