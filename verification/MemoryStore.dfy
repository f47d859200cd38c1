/** The store on the heap: transaction objects, the arrays their attempts live in, and which of
    those objects are shared with callers. */
module Storage {
  import opened Domain
  import opened Ledger

  class Transaction {
    var id: Id
    var event: FailureEvent
    var classification: Classification
    var status: Status
    var retryCount: int
    var maxRetries: int
    var attempts: array<RetryAttempt>
    var totalCost: int
    var createdAt: int
    var updatedAt: int
    var recoveredAt: Option<int>

    /** The record this object stands for. An empty array has no content, hence is not read. */
    ghost function Value(): Tx
      reads this, if attempts.Length == 0 then {} else {attempts}
    {
      Tx(id, event, classification, status, retryCount, maxRetries,
         if attempts.Length == 0 then [] else attempts[..],
         totalCost, createdAt, updatedAt, recoveredAt)
    }

    /** A new record without attempts. */
    constructor (event: FailureEvent, classification: Classification, status: Status)
      ensures Value() == Tx(event.id, event, classification, status, 0, MAX_RETRIES, [], 0,
                            event.timestamp, event.timestamp, None)
      ensures fresh(attempts) && attempts.Length == 0
    {
      this.id, this.event, this.classification, this.status := event.id, event, classification, status;
      this.retryCount, this.maxRetries, this.totalCost := 0, MAX_RETRIES, 0;
      this.attempts := new RetryAttempt[0];
      this.createdAt, this.updatedAt, this.recoveredAt := event.timestamp, event.timestamp, None;
    }

    /** Copies the fields; the copy shares the attempts array. */
    constructor Shallow(from: Transaction)
      ensures Value() == from.Value() && attempts == from.attempts
    {
      id, event, classification, status := from.id, from.event, from.classification, from.status;
      retryCount, maxRetries, attempts, totalCost := from.retryCount, from.maxRetries, from.attempts, from.totalCost;
      createdAt, updatedAt, recoveredAt := from.createdAt, from.updatedAt, from.recoveredAt;
    }

    /** Adds an attempt; the longer list lives in a new array. */
    method Append(a: RetryAttempt, now: int)
      modifies this
      ensures fresh(attempts)
      ensures var was := old(Value());
              Value() == was.(attempts := was.attempts + [a], retryCount := was.retryCount + 1,
                              totalCost := was.totalCost + a.cost, updatedAt := now)
    {
      var longer := attempts[..] + [a];
      attempts := new RetryAttempt[|longer|](i requires 0 <= i < |longer| => longer[i]);
      assert attempts[..] == longer;
      retryCount, totalCost, updatedAt := retryCount + 1, totalCost + a.cost, now;
    }
  }

  /** A field-by-field copy whose attempts live in an array of its own. */
  method Clone(from: Transaction) returns (clone: Transaction)
    ensures fresh(clone) && fresh(clone.attempts) && clone.Value() == from.Value()
  {
    clone := new Transaction.Shallow(from);
    var source := from.attempts;
    clone.attempts := new RetryAttempt[source.Length](i requires 0 <= i < source.Length reads source => source[i]);
    assert clone.attempts[..] == source[..];
  }

  /** The objects stand for the records, one for one. */
  ghost predicate Copies(found: seq<Transaction>, values: seq<Tx>)
    reads found, set t | t in found :: t.attempts
  {
    && |found| == |values|
    && forall k :: 0 <= k < |found| ==> found[k].Value() == values[k]
  }

  ghost predicate Among(found: seq<Transaction>, objects: set<object>)
    reads found
  {
    forall k :: 0 <= k < |found| ==> found[k] in objects && found[k].attempts in objects
  }

  ghost function NonEmpty(a: array<RetryAttempt>): set<array<RetryAttempt>> {
    if a.Length == 0 then {} else {a}
  }

  /** Appends a deep copy of `tx` to the result slice. */
  method AppendClone(result: seq<Transaction>, tx: Transaction, ghost values: seq<Tx>, ghost given: set<object>)
    returns (longer: seq<Transaction>, ghost made: set<object>)
    requires Copies(result, values) && Among(result, given)
    ensures Copies(longer, values + [tx.Value()]) && Among(longer, given + made) && fresh(made)
  {
    var clone := Clone(tx);
    longer, made := result + [clone], {clone, clone.attempts};
  }

  method Cut(found: seq<Transaction>, offset: int, limit: int, ghost values: seq<Tx>, ghost given: set<object>)
    returns (result: seq<Transaction>)
    requires Copies(found, values) && Among(found, given)
    ensures Copies(result, Page(values, offset, limit)) && Among(result, given)
  {
    result := found;
    if offset > 0 {
      if offset >= |result| {
        return [];
      }
      result := result[offset..];
    }
    if limit > 0 && |result| > limit {
      result := result[..limit];
    }
  }

  class MemoryStore {
    var transactions: map<Id, Transaction>
    var decisions: map<Id, seq<Decision>>
    var txOrder: seq<Id>
    ghost var contents: map<Id, Tx>             // what the stored records stand for
    ghost var records: set<Transaction>         // every object that is or was a stored record
    ghost var arrays: set<array<RetryAttempt>>  // the non-empty attempts arrays of those
    ghost var shared: set<object>               // every object a caller passed in or was given

    ghost function View(): Store
      reads `contents, `decisions, `txOrder
    {
      Store(contents, decisions, txOrder)
    }

    ghost predicate Stored(id: Id, t: Transaction)
      reads `contents, `records, `arrays, records, arrays
    {
      && t in records
      && (t.attempts.Length == 0 || t.attempts in arrays)
      && id in contents
      && t.Value() == contents[id]
    }

    /** The objects stand for the contents. */
    ghost predicate Linked()
      reads `transactions, `contents, `records, `arrays, records, arrays
    {
      && contents.Keys == transactions.Keys
      && forall id {:trigger Stored(id, transactions[id])} | id in transactions :: Stored(id, transactions[id])
    }

    /** And the order list enumerates them. */
    ghost predicate Valid()
      reads `transactions, `contents, `txOrder, `decisions, `records, `arrays, records, arrays
    {
      Linked() && Enumerated(View())
    }

    /** No caller holds an object through which the stored records could change. */
    ghost predicate Isolated()
      reads this
    {
      && (forall t <- records :: t !in shared)
      && (forall a <- arrays :: a !in shared)
    }

    constructor ()
      ensures Valid() && Isolated() && View() == EMPTY
      ensures records == {} && arrays == {} && shared == {}
    {
      transactions, decisions, txOrder := map[], map[], [];
      contents, records, arrays, shared := map[], {}, {}, {};
    }

    /** Makes `clone` the record of its ID. */
    method Put(clone: Transaction)
      requires Linked()
      modifies `transactions, `contents, `records, `arrays
      ensures Linked()
      ensures transactions == old(transactions)[clone.id := clone]
      ensures contents == old(contents)[clone.id := clone.Value()]
      ensures records == old(records) + {clone}
      ensures arrays == old(arrays) + NonEmpty(clone.attempts)
    {
      transactions := transactions[clone.id := clone];
      contents := contents[clone.id := clone.Value()];
      records := records + {clone};
      arrays := arrays + NonEmpty(clone.attempts);
      forall id <- transactions ensures Stored(id, transactions[id]) {
        assert id != clone.id ==> old(Stored(id, transactions[id]));
      }
    }

    method PutShallow(tx: Transaction)
      requires Linked()
      modifies `transactions, `contents, `records, `arrays
      ensures Linked() && contents == old(contents)[tx.id := tx.Value()]
      ensures transactions[tx.id].attempts == tx.attempts
      ensures fresh(records - old(records)) && arrays == old(arrays) + NonEmpty(tx.attempts)
    {
      ghost var value := tx.Value();
      var clone := new Transaction.Shallow(tx);
      Put(clone);
      assert tx.Value() == value;
    }

    method PutDeep(tx: Transaction)
      requires Linked()
      modifies `transactions, `contents, `records, `arrays
      ensures Linked() && contents == old(contents)[tx.id := tx.Value()]
      ensures fresh(records - old(records)) && fresh(arrays - old(arrays))
    {
      ghost var value := tx.Value();
      var clone := Clone(tx);
      Put(clone);
      assert tx.Value() == value;
    }

    /** Notes that a caller holds `tx` and its attempts array. */
    ghost method Share(tx: Transaction)
      requires Valid()
      modifies `shared
      ensures Valid() && shared == old(shared) + {tx, tx.attempts}
    {
      shared := shared + {tx, tx.attempts};
    }

    /** Saves a shallow copy: a non-empty attempts array becomes the store's and stays the caller's. */
    method SaveTransaction(tx: Transaction) returns (ok: bool)
      requires Valid()
      modifies this
      ensures Valid()
      ensures ok <==> tx.id !in old(View()).txs
      ensures View() == Save(old(View()), tx.Value())
      ensures fresh(records - old(records))
      ensures arrays == old(arrays) + if ok then NonEmpty(tx.attempts) else {}
      ensures shared == old(shared) + {tx, tx.attempts}
      ensures ok ==> tx.id in transactions && transactions[tx.id].attempts == tx.attempts
    {
      hide Enumerated;
      ok := tx.id !in transactions;
      SaveKeepsEnumeration(View(), tx.Value());
      if ok {
        PutShallow(tx);
        txOrder := txOrder + [tx.id];
      }
      Share(tx);
    }

    /** Replaces the record by a deep copy of the caller's, whatever happened to it since. */
    method UpdateTransaction(tx: Transaction) returns (ok: bool)
      requires Valid()
      modifies this
      ensures Valid()
      ensures ok <==> tx.id in old(View()).txs
      ensures View() == Update(old(View()), tx.Value())
      ensures fresh(records - old(records)) && fresh(arrays - old(arrays))
      ensures shared == old(shared) + {tx, tx.attempts}
    {
      hide Enumerated;
      ok := tx.id in transactions;
      UpdateKeepsEnumeration(View(), tx.Value());
      if ok {
        PutDeep(tx);
      }
      Share(tx);
    }

    /** A deep copy of the record, or null when the ID is unknown. */
    method GetTransaction(id: Id) returns (tx: Transaction?)
      requires Valid()
      modifies `shared
      ensures Valid()
      ensures tx == null <==> id !in View().txs
      ensures tx != null ==> fresh(tx) && fresh(tx.attempts) && tx.Value() == View().txs[id]
      ensures shared == old(shared) + if tx == null then {} else {tx, tx.attempts}
    {
      if id !in transactions {
        return null;
      }
      assert Stored(id, transactions[id]);
      var clone := Clone(transactions[id]);
      shared := shared + {clone, clone.attempts};
      return clone;
    }

    method SaveDecisionLog(d: Decision)
      requires Valid()
      modifies `decisions
      ensures Valid() && View() == Log(old(View()), d)
    {
      decisions := decisions[d.id := (if d.id in decisions then decisions[d.id] else []) + [d]];
    }

    method GetDecisionLogs(id: Id) returns (logs: seq<Decision>)
      ensures logs == LogOf(View(), id)
    {
      if id !in decisions {
        return [];
      }
      logs := decisions[id];
    }

    method Reset()
      modifies this
      ensures Valid() && View() == EMPTY
      ensures shared == old(shared) && records == {} && arrays == {}
    {
      transactions, decisions, txOrder := map[], map[], [];
      contents, records, arrays := map[], {}, {};
    }

    /** Notes that a caller holds the objects given. */
    ghost method ShareAll(given: set<object>)
      requires Valid()
      modifies `shared
      ensures Valid() && shared == old(shared) + given
    {
      shared := shared + given;
    }

    /** `all` lists the stored records in the order of the order list. */
    ghost predicate Lists(all: seq<Tx>)
      reads `transactions, `contents, `txOrder
    {
      && |all| == |txOrder|
      && forall i :: 0 <= i < |all| ==>
           txOrder[i] in transactions && txOrder[i] in contents && all[i] == contents[txOrder[i]]
    }

    lemma AllListed()
      requires Valid()
      ensures forall id <- View().order :: id in View().txs
      ensures Lists(All(View()))
    {
      EnumeratedMeans(View());
    }

    /** The record at position i, as an object. */
    method At(i: nat, ghost all: seq<Tx>) returns (tx: Transaction)
      requires Linked() && Lists(all) && i < |txOrder|
      ensures i < |all| && tx.Value() == all[i]
    {
      tx := transactions[txOrder[i]];
      assert Stored(txOrder[i], tx);
    }

    method CloneMatching(f: Filter, ghost all: seq<Tx>) returns (result: seq<Transaction>, ghost given: set<object>)
      requires Linked() && Lists(all)
      ensures Copies(result, Select(all, Matching(f.status, f.processor))) && Among(result, given) && fresh(given)
    {
      ghost var keep := Matching(f.status, f.processor);
      result, given := [], {};
      for i := 0 to |txOrder|
        invariant Copies(result, Select(all[..i], keep)) && Among(result, given) && fresh(given)
      {
        var tx := At(i, all);
        assert all[..i + 1][..i] == all[..i];
        if (f.status.Some? && tx.status != f.status.value)
           || (f.processor.Some? && tx.event.processor != f.processor.value) {
          continue;
        }
        ghost var made;
        result, made := AppendClone(result, tx, Select(all[..i], keep), given);
        given := given + made;
      }
      assert all[..|txOrder|] == all;
    }

    /** The matching records in insertion order, one page of them, as deep copies. */
    method ListTransactions(f: Filter) returns (result: seq<Transaction>, ghost given: set<object>)
      requires Valid()
      modifies `shared
      ensures Valid() && shared == old(shared) + given && fresh(given)
      ensures forall id <- View().order :: id in View().txs
      ensures Copies(result, List(View(), f)) && Among(result, given)
    {
      AllListed();
      result, given := CloneMatching(f, All(View()));
      result := Cut(result, f.offset, f.limit, Select(All(View()), Matching(f.status, f.processor)), given);
      ShareAll(given);
    }

    method CloneWithin(start: int, end: int, ghost all: seq<Tx>)
      returns (result: seq<Transaction>, ghost given: set<object>)
      requires Linked() && Lists(all)
      ensures Copies(result, Select(all, Within(start, end))) && Among(result, given) && fresh(given)
    {
      result, given := [], {};
      for i := 0 to |txOrder|
        invariant Copies(result, Select(all[..i], Within(start, end))) && Among(result, given) && fresh(given)
      {
        var tx := At(i, all);
        assert all[..i + 1][..i] == all[..i];
        if start <= tx.createdAt && tx.createdAt <= end {
          ghost var made;
          result, made := AppendClone(result, tx, Select(all[..i], Within(start, end)), given);
          given := given + made;
        }
      }
      assert all[..|txOrder|] == all;
    }

    /** The records created between the two times, both included, as deep copies. */
    method GetAllTransactionsInRange(start: int, end: int) returns (result: seq<Transaction>, ghost given: set<object>)
      requires Valid()
      modifies `shared
      ensures Valid() && shared == old(shared) + given && fresh(given)
      ensures forall id <- View().order :: id in View().txs
      ensures Copies(result, InRange(View(), start, end)) && Among(result, given)
    {
      AllListed();
      result, given := CloneWithin(start, end, All(View()));
      ShareAll(given);
    }
  }
}
