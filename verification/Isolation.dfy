/** Clone isolation: no write through an object that a caller holds reaches the store. */
module Isolation {
  import opened Domain
  import Ledger
  import opened Storage

  /** Whatever happens to the objects callers hold (nothing is assumed about those), the records
      of an isolated store keep the values the store reports, so every later read agrees. */
  twostate lemma WritesByCallersAreInvisible(s: MemoryStore)
    requires old(s.Valid() && s.Isolated()) && unchanged(s)
    requires forall t <- s.records :: t !in s.shared ==> unchanged(t)
    requires forall a <- s.arrays :: a !in s.shared ==> unchanged(a)
    ensures s.Valid() && s.Isolated() && s.View() == old(s.View())
  {
    forall id <- s.transactions ensures s.Stored(id, s.transactions[id]) {
      var t := s.transactions[id];
      assert old(s.Stored(id, t));
      assert t in s.records && t !in s.shared;
      assert t.attempts.Length == 0 || unchanged(t.attempts);
    }
  }

  /** Reading hands out new objects only. */
  method ReadsKeepIsolation(s: MemoryStore, id: Id)
    requires s.Valid() && s.Isolated()
    modifies s
    ensures s.Valid() && s.Isolated()
  {
    var t := s.GetTransaction(id);
  }

  method ListingKeepsIsolation(s: MemoryStore, f: Ledger.Filter)
    requires s.Valid() && s.Isolated()
    modifies s
    ensures s.Valid() && s.Isolated()
  {
    var page, given := s.ListTransactions(f);
  }

  method RangesKeepIsolation(s: MemoryStore, start: int, end: int)
    requires s.Valid() && s.Isolated()
    modifies s
    ensures s.Valid() && s.Isolated()
  {
    var range, given := s.GetAllTransactionsInRange(start, end);
  }

  /** An update keeps a copy of its own. */
  method UpdatesKeepIsolation(s: MemoryStore, tx: Transaction)
    requires s.Valid() && s.Isolated()
    requires tx !in s.records && tx.attempts !in s.arrays
    modifies s
    ensures s.Valid() && s.Isolated()
  {
    var ok := s.UpdateTransaction(tx);
  }

  /** SaveTransaction copies shallowly: it keeps an isolated store isolated exactly when it rejects
      the record or the record has no attempts. */
  method SaveKeepsIsolationIff(s: MemoryStore, tx: Transaction) returns (ok: bool)
    requires s.Valid() && s.Isolated()
    requires tx !in s.records && tx.attempts !in s.arrays
    modifies s
    ensures s.Isolated() <==> tx.id in old(s.View()).txs || tx.attempts.Length == 0
  {
    ok := s.SaveTransaction(tx);
  }

  /** The failing case: after saving a record with attempts, a write to the caller's array changes
      the stored record. */
  method SavedAttemptsAreShared(s: MemoryStore, tx: Transaction, other: RetryAttempt)
    requires s.Valid() && tx.id !in s.View().txs
    requires tx.attempts.Length > 0 && tx.attempts[0] != other
    modifies s, tx.attempts
    ensures tx.id in s.transactions
    ensures s.transactions[tx.id].Value() != old(tx.Value())
  {
    var ok := s.SaveTransaction(tx);
    tx.attempts[0] := other;
    assert s.transactions[tx.id].Value().attempts[0] == other;
    assert old(tx.Value()).attempts[0] == old(tx.attempts[0]);
  }
}
