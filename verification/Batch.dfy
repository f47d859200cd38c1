/** Batch submission: validation, one ProcessFailure per valid item, and the counters. */
module Batch {
  import opened Domain
  import Ledger
  import opened World
  import opened RetryEngine
  import opened Invariant
  import Reachable

  datatype FailureRequest = FailureRequest(
    id: Id, amount: int, currency: string, code: Code, processor: Processor, timestamp: Option<int>)

  const CURRENCIES: set<string> := {"IDR", "MYR", "PHP", "USD", "EUR", "GBP", "SGD"}

  /** No validation error: an ID, a positive amount, a known currency, a code and a known processor. */
  predicate Valid(r: FailureRequest) {
    && r.id != Id("") && r.amount > 0 && r.currency in CURRENCIES
    && r.code != UnknownCode("") && r.processor in {ProcessorA, ProcessorB, ProcessorC}
  }

  /** A missing or unreadable timestamp becomes the time of the call. */
  function ToEvent(r: FailureRequest, now: int): FailureEvent {
    FailureEvent(r.id, r.amount, r.currency, r.code, r.processor, if r.timestamp.Some? then r.timestamp.value else now)
  }

  datatype ItemResult = Rejected(id: Id, error: Option<Error>) | Handled(id: Id, status: Status, shouldRetry: bool)

  datatype Response = Response(
    total: nat, processed: nat, errors: nat, results: seq<ItemResult>,
    hard: nat, soft: nat, recovered: nat, exhausted: nat, retrying: nat)

  const NO_ITEMS: Response := Response(0, 0, 0, [], 0, 0, 0, 0, 0)

  /** Counting an item that was processed. */
  function Counted(r: Response, p: Processed): Response {
    r.(processed := r.processed + 1,
       results := r.results + [Handled(p.id, p.finalStatus, p.shouldRetry)],
       hard := r.hard + if p.classification.decline == HardDecline then 1 else 0,
       soft := r.soft + if p.classification.decline == SoftDecline then 1 else 0,
       recovered := r.recovered + if p.finalStatus == Recovered then 1 else 0,
       exhausted := r.exhausted + if p.finalStatus == Exhausted then 1 else 0,
       retrying := r.retrying + if p.finalStatus == Retrying then 1 else 0)
  }

  function Failed(r: Response, id: Id, error: Option<Error>): Response {
    r.(errors := r.errors + 1, results := r.results + [Rejected(id, error)])
  }

  function Item(cat: Catalog, o: Oracle, e: Engine, r: Response, req: FailureRequest): (Engine, Response) {
    if !Valid(req) then (e, Failed(r, req.id, None))
    else
      var (e', result) := Process(cat, o, e.(tick := e.tick + 1), ToEvent(req, o.clock(e.tick)));
      (e', match result case Ok(p) => Counted(r, p) case Err(error) => Failed(r, req.id, Some(error)))
  }

  /** The state and the counters after a list of items, one after the other. */
  function Items(cat: Catalog, o: Oracle, e: Engine, r: Response, reqs: seq<FailureRequest>): (Engine, Response) {
    if reqs == [] then (e, r)
    else
      var (e', r') := Items(cat, o, e, r, reqs[..|reqs| - 1]);
      Item(cat, o, e', r', reqs[|reqs| - 1])
  }

  /** An empty batch is rejected as a whole. */
  function SubmitBatch(cat: Catalog, o: Oracle, e: Engine, reqs: seq<FailureRequest>): (Engine, Option<Response>) {
    if reqs == [] then (e, None)
    else
      var (e', r) := Items(cat, o, e, NO_ITEMS.(total := |reqs|), reqs);
      (e', Some(r))
  }

  // ---------- accounting ----------

  /** The ID that an item adds to those stored, if any. */
  function Gain(stored: set<Id>, req: FailureRequest): set<Id> {
    if Valid(req) && req.id !in stored then {req.id} else {}
  }

  /** The distinct IDs of the valid items that are not stored yet. */
  function NewIds(stored: set<Id>, reqs: seq<FailureRequest>): set<Id> {
    if reqs == [] then {}
    else
      var ids := NewIds(stored, reqs[..|reqs| - 1]);
      ids + Gain(stored + ids, reqs[|reqs| - 1])
  }

  /** The new IDs are those of items that name an ID, a positive amount, one of the seven currencies, a
      failure code and a processor of the real table, and that were not stored before. */
  lemma {:induction false} NewIdsAreNew(stored: set<Id>, reqs: seq<FailureRequest>, id: Id)
    ensures id in NewIds(stored, reqs) <==>
              && id !in stored && id.text != ""
              && exists i :: 0 <= i < |reqs| && reqs[i].id == id && WellFormed(reqs[i])
  {
    hide Valid, WellFormed;
    if reqs != [] {
      var front := reqs[..|reqs| - 1];
      NewIdsAreNew(stored, front, id);
      assert forall i :: 0 <= i < |front| ==> reqs[i] == front[i];
      ValidIs(reqs[|reqs| - 1]);
    }
  }

  predicate WellFormed(r: FailureRequest) {
    && r.amount >= 1
    && (r.currency == "IDR" || r.currency == "MYR" || r.currency == "PHP" || r.currency == "USD"
        || r.currency == "EUR" || r.currency == "GBP" || r.currency == "SGD")
    && (r.code.UnknownCode? ==> r.code.text != "")
    && r.processor in REAL_CATALOG.names
  }

  lemma ValidIs(r: FailureRequest)
    ensures Valid(r) <==> r.id.text != "" && WellFormed(r)
  {
  }

  /** A rejected duplicate changes health only: the event's own window, at the price of a clock reading. */
  lemma DuplicateChangesHealthOnly(cat: Catalog, o: Oracle, e: Engine, event: FailureEvent)
    requires event.id in e.store.txs
    ensures var (e', r) := Process(cat, o, e, event);
            && r == Err(DuplicateId)
            && e'.store == e.store && e'.weights == e.weights && e'.flip == e.flip && e'.tick == e.tick + 1
            && (forall p :: p != event.processor ==>
                  (p in e'.windows <==> p in e.windows) && (p in e.windows ==> e'.windows[p] == e.windows[p]))
  {
  }

  ghost predicate Balanced(r: Response, items: nat, accepted: nat) {
    && r.processed + r.errors == items == |r.results|
    && r.processed == accepted
    && r.hard + r.soft == r.processed
    && r.recovered + r.exhausted == r.soft
    && r.retrying == 0
  }

  /** What the caller of ProcessFailure learns about a new ID. */
  lemma NewIdIsSettled(cat: Catalog, o: Oracle, e: Engine, event: FailureEvent)
    requires Usable(cat) && StoreOk(cat, e.store) && event.id !in e.store.txs
    ensures var (e', r) := Process(cat, o, e, event);
            && StoreOk(cat, e'.store) && e'.store.txs.Keys == e.store.txs.Keys + {event.id}
            && r.Ok? && r.value.id == event.id
            && (r.value.shouldRetry <==> r.value.classification.decline == SoftDecline)
            && (r.value.classification.decline == HardDecline ==> r.value.finalStatus == HardDeclined)
            && (r.value.classification.decline == SoftDecline ==> r.value.finalStatus in {Recovered, Exhausted})
  {
    var tx := Reachable.ProcessAccepts(cat, o, e, event);
    var (e', r) := Process(cat, o, e, event);
    Reachable.AcceptedKeepsStore(cat, e, event, e', r.value, tx);
  }

  lemma ItemBalances(cat: Catalog, o: Oracle, e: Engine, r: Response, req: FailureRequest, items: nat, accepted: nat)
    requires Usable(cat) && StoreOk(cat, e.store) && Balanced(r, items, accepted)
    ensures var (e', r') := Item(cat, o, e, r, req);
            && StoreOk(cat, e'.store) && r'.total == r.total
            && Balanced(r', items + 1, accepted + |Gain(e.store.txs.Keys, req)|)
            && e'.store.txs.Keys == e.store.txs.Keys + Gain(e.store.txs.Keys, req)
  {
    hide Process, Valid, StoreOk;
    var e1, event := e.(tick := e.tick + 1), ToEvent(req, o.clock(e.tick));
    if req.id in e.store.txs {
      DuplicateChangesHealthOnly(cat, o, e1, event);
    } else {
      NewIdIsSettled(cat, o, e1, event);
    }
  }

  lemma OneMore(stored: set<Id>, ids: set<Id>, req: FailureRequest)
    ensures var gain := Gain(stored + ids, req);
            |ids + gain| == |ids| + |gain| && stored + (ids + gain) == stored + ids + gain
  {
    hide Valid;
    assert Gain(stored + ids, req) !! ids;
  }

  /** The store gained the new IDs of the items, and the counters say so. */
  ghost predicate Accounted(cat: Catalog, stored: set<Id>, total: nat, reqs: seq<FailureRequest>, after: Ledger.Store,
                            r: Response) {
    && StoreOk(cat, after) && r.total == total
    && Balanced(r, |reqs|, |NewIds(stored, reqs)|)
    && after.txs.Keys == stored + NewIds(stored, reqs)
  }

  lemma AccountedStep(cat: Catalog, o: Oracle, e: Engine, r: Response, stored: set<Id>, total: nat,
                      reqs: seq<FailureRequest>)
    requires Usable(cat) && reqs != [] && Accounted(cat, stored, total, reqs[..|reqs| - 1], e.store, r)
    ensures var (e', r') := Item(cat, o, e, r, reqs[|reqs| - 1]);
            Accounted(cat, stored, total, reqs, e'.store, r')
  {
    hide StoreOk, Item, Balanced, Gain;
    var ids, req := NewIds(stored, reqs[..|reqs| - 1]), reqs[|reqs| - 1];
    ItemBalances(cat, o, e, r, req, |reqs| - 1, |ids|);
    OneMore(stored, ids, req);
  }

  lemma {:induction false} ItemsAccounted(cat: Catalog, o: Oracle, e: Engine, total: nat, reqs: seq<FailureRequest>)
    requires Usable(cat) && StoreOk(cat, e.store)
    ensures var (e', r) := Items(cat, o, e, NO_ITEMS.(total := total), reqs);
            Accounted(cat, e.store.txs.Keys, total, reqs, e'.store, r)
  {
    if reqs != [] {
      hide StoreOk, Accounted, Item;
      var front := reqs[..|reqs| - 1];
      ItemsAccounted(cat, o, e, total, front);
      var (e1, r1) := Items(cat, o, e, NO_ITEMS.(total := total), front);
      AccountedStep(cat, o, e1, r1, e.store.txs.Keys, total, reqs);
    }
  }

  /** Batch accounting, for any items against any reachable store: every item is processed or an
      error; those processed are as many as there are distinct new IDs among the valid items, and
      those IDs are what the store gains; hard and soft, recovered and exhausted partition them; none
      is left retrying. */
  lemma BatchAccounting(cat: Catalog, o: Oracle, e: Engine, reqs: seq<FailureRequest>)
    requires Usable(cat) && StoreOk(cat, e.store) && reqs != []
    ensures var (e', response) := SubmitBatch(cat, o, e, reqs);
            && response.Some?
            && var r := response.value;
               && r.total == r.processed + r.errors == |r.results| == |reqs|
               && r.processed == |NewIds(e.store.txs.Keys, reqs)|
               && r.hard + r.soft == r.processed
               && r.recovered + r.exhausted == r.soft
               && r.retrying == 0
               && StoreOk(cat, e'.store)
               && e'.store.txs.Keys == e.store.txs.Keys + NewIds(e.store.txs.Keys, reqs)
  {
    ItemsAccounted(cat, o, e, |reqs|, reqs);
  }

  /** The event is the one that the request asks for; without a readable timestamp it bears that of a clock
      reading. */
  ghost predicate Asked(o: Oracle, req: FailureRequest, event: FailureEvent) {
    && event.id == req.id && event.amount == req.amount && event.currency == req.currency
    && event.code == req.code && event.processor == req.processor
    && (if req.timestamp.Some? then event.timestamp == req.timestamp.value
        else exists k: nat :: event.timestamp == o.clock(k))
  }

  /** The i-th result is about the i-th item. It was handled if and only if it is valid and its ID was
      neither stored before nor taken by an earlier item; then what was asked for is stored, and what was
      reported is what is stored. Otherwise the item was invalid, or a duplicate. */
  ghost predicate ResultOk(o: Oracle, stored: set<Id>, reqs: seq<FailureRequest>, after: Ledger.Store, r: ItemResult,
                           i: nat)
    requires i < |reqs|
  {
    && r.id == reqs[i].id
    && (r.Handled? <==> Gain(stored + NewIds(stored, reqs[..i]), reqs[i]) != {})
    && (r.Rejected? ==> r.error == if Valid(reqs[i]) then Some(DuplicateId) else None)
    && (r.Handled? ==> r.id in after.txs && Truthful(o, reqs[i], r, after.txs[r.id]))
  }

  /** The result tells the status of the record, and whether it was retried. */
  ghost predicate Truthful(o: Oracle, req: FailureRequest, r: ItemResult, tx: Tx)
    requires r.Handled?
  {
    && Asked(o, req, tx.event) && tx.status == r.status
    && (r.shouldRetry <==> tx.classification.decline == SoftDecline)
  }

  lemma AskedFor(o: Oracle, req: FailureRequest, k: nat)
    ensures Asked(o, req, ToEvent(req, o.clock(k)))
  {
  }

  lemma ItemResultOk(cat: Catalog, o: Oracle, e: Engine, r: Response, req: FailureRequest)
    requires Usable(cat) && StoreOk(cat, e.store)
    ensures var (e', r') := Item(cat, o, e, r, req);
            && |r'.results| == |r.results| + 1 && r'.results[..|r.results|] == r.results
            && var result := r'.results[|r.results|];
               && result.id == req.id
               && (result.Handled? <==> Gain(e.store.txs.Keys, req) != {})
               && (result.Rejected? ==> result.error == if Valid(req) then Some(DuplicateId) else None)
               && (result.Handled? ==> result.id in e'.store.txs && Truthful(o, req, result, e'.store.txs[result.id]))
  {
    hide Valid, StoreOk, Process, Settled, Audit, Asked, ToEvent;
    var e1, event := e.(tick := e.tick + 1), ToEvent(req, o.clock(e.tick));
    AskedFor(o, req, e.tick);
    EventIsFor(req, o.clock(e.tick));
    if req.id in e.store.txs {
      DuplicateChangesHealthOnly(cat, o, e1, event);
    } else {
      var tx := Reachable.ProcessAccepts(cat, o, e1, event);
    }
  }

  lemma EventIsFor(req: FailureRequest, now: int)
    ensures ToEvent(req, now).id == req.id
  {
  }

  lemma ItemKeepsRecord(cat: Catalog, o: Oracle, e: Engine, r: Response, req: FailureRequest, id: Id)
    requires Usable(cat) && StoreOk(cat, e.store) && id in e.store.txs
    ensures var s' := Item(cat, o, e, r, req).0.store; id in s'.txs && s'.txs[id] == e.store.txs[id]
  {
    hide Process, Valid, StoreOk;
    Reachable.SubmitKeepsRecord(cat, o, e.(tick := e.tick + 1), ToEvent(req, o.clock(e.tick)), id);
  }

  lemma ItemsCounted(cat: Catalog, o: Oracle, e: Engine, total: nat, reqs: seq<FailureRequest>)
    requires Usable(cat) && StoreOk(cat, e.store)
    ensures var (e', r) := Items(cat, o, e, NO_ITEMS.(total := total), reqs);
            && StoreOk(cat, e'.store) && |r.results| == |reqs|
            && e'.store.txs.Keys == e.store.txs.Keys + NewIds(e.store.txs.Keys, reqs)
  {
    hide StoreOk, Items, NewIds;
    ItemsAccounted(cat, o, e, total, reqs);
  }

  lemma ResultStep(cat: Catalog, o: Oracle, e: Engine, r: Response, stored: set<Id>, reqs: seq<FailureRequest>, i: nat)
    requires Usable(cat) && StoreOk(cat, e.store) && i < |reqs| == |r.results| + 1
    requires e.store.txs.Keys == stored + NewIds(stored, reqs[..|reqs| - 1])
    requires i < |reqs| - 1 ==> ResultOk(o, stored, reqs[..|reqs| - 1], e.store, r.results[i], i)
    ensures var (e', r') := Item(cat, o, e, r, reqs[|reqs| - 1]);
            |r'.results| == |reqs| && ResultOk(o, stored, reqs, e'.store, r'.results[i], i)
  {
    hide StoreOk, Item, Gain, NewIds, Truthful, Valid;
    var front, req := reqs[..|reqs| - 1], reqs[|reqs| - 1];
    ItemResultOk(cat, o, e, r, req);
    if i < |front| {
      assert Item(cat, o, e, r, req).1.results[i] == r.results[i];
      assert front[..i] == reqs[..i];
      if r.results[i].Handled? {
        ItemKeepsRecord(cat, o, e, r, req, r.results[i].id);
      }
    }
  }

  lemma {:induction false} ItemResultsOk(cat: Catalog, o: Oracle, e: Engine, total: nat, reqs: seq<FailureRequest>,
                                         i: nat)
    requires Usable(cat) && StoreOk(cat, e.store) && i < |reqs|
    ensures var (e', r) := Items(cat, o, e, NO_ITEMS.(total := total), reqs);
            |r.results| == |reqs| && ResultOk(o, e.store.txs.Keys, reqs, e'.store, r.results[i], i)
  {
    hide StoreOk, Item, NewIds, ResultOk;
    var front := reqs[..|reqs| - 1];
    ItemsCounted(cat, o, e, total, front);
    var (e1, r1) := Items(cat, o, e, NO_ITEMS.(total := total), front);
    if i < |front| {
      ItemResultsOk(cat, o, e, total, front, i);
    }
    ResultStep(cat, o, e1, r1, e.store.txs.Keys, reqs, i);
  }

  /** Every result of a batch tells the truth about its item, in the order of the items. */
  lemma BatchResults(cat: Catalog, o: Oracle, e: Engine, reqs: seq<FailureRequest>)
    requires Usable(cat) && StoreOk(cat, e.store) && reqs != []
    ensures var (e', response) := SubmitBatch(cat, o, e, reqs);
            && response.Some? && |response.value.results| == |reqs|
            && forall i :: 0 <= i < |reqs| ==>
                ResultOk(o, e.store.txs.Keys, reqs, e'.store, response.value.results[i], i)
  {
    hide StoreOk, ResultOk, Items;
    ItemResultsOk(cat, o, e, |reqs|, reqs, 0);
    forall i | 0 <= i < |reqs|
      ensures ResultOk(o, e.store.txs.Keys, reqs, SubmitBatch(cat, o, e, reqs).0.store,
                       SubmitBatch(cat, o, e, reqs).1.value.results[i], i)
    {
      ItemResultsOk(cat, o, e, |reqs|, reqs, i);
    }
  }

  // ---------- the summary ----------

  /** The positions of the items that ended with this status. */
  ghost function EndedIn(results: seq<ItemResult>, status: Status): set<nat> {
    set i: nat | i < |results| && results[i].Handled? && results[i].status == status
  }

  ghost function Retried(results: seq<ItemResult>): set<nat> {
    set i: nat | i < |results| && results[i].Handled? && results[i].shouldRetry
  }

  /** The summary counts the results. */
  ghost predicate Summarised(r: Response) {
    && r.hard == |EndedIn(r.results, HardDeclined)|
    && r.recovered == |EndedIn(r.results, Recovered)|
    && r.exhausted == |EndedIn(r.results, Exhausted)|
    && r.retrying == |EndedIn(r.results, Retrying)|
    && r.soft == |Retried(r.results)|
  }

  /** The positions, with one more at the end or not. */
  lemma OneMorePosition(before: set<nat>, n: nat, after: set<nat>, more: bool)
    requires forall i <- before :: i < n
    requires forall i :: i in after <==> i in before || (more && i == n)
    ensures |after| == |before| + if more then 1 else 0
  {
    assert after == if more then before + {n} else before;
  }

  lemma EndedInAppend(results: seq<ItemResult>, x: ItemResult, status: Status)
    ensures |EndedIn(results + [x], status)| ==
            |EndedIn(results, status)| + if x.Handled? && x.status == status then 1 else 0
  {
    var n, longer := |results|, results + [x];
    assert longer[n] == x && forall i :: 0 <= i < n ==> longer[i] == results[i];
    OneMorePosition(EndedIn(results, status), n, EndedIn(longer, status), x.Handled? && x.status == status);
  }

  lemma RetriedAppend(results: seq<ItemResult>, x: ItemResult)
    ensures |Retried(results + [x])| == |Retried(results)| + if x.Handled? && x.shouldRetry then 1 else 0
  {
    var n, longer := |results|, results + [x];
    assert longer[n] == x && forall i :: 0 <= i < n ==> longer[i] == results[i];
    OneMorePosition(Retried(results), n, Retried(longer), x.Handled? && x.shouldRetry);
  }

  lemma OneMoreResult(r: Response, x: ItemResult)
    ensures var results := r.results + [x];
            && |EndedIn(results, HardDeclined)| ==
               |EndedIn(r.results, HardDeclined)| + (if x.Handled? && x.status == HardDeclined then 1 else 0)
            && |EndedIn(results, Recovered)| ==
               |EndedIn(r.results, Recovered)| + (if x.Handled? && x.status == Recovered then 1 else 0)
            && |EndedIn(results, Exhausted)| ==
               |EndedIn(r.results, Exhausted)| + (if x.Handled? && x.status == Exhausted then 1 else 0)
            && |EndedIn(results, Retrying)| ==
               |EndedIn(r.results, Retrying)| + (if x.Handled? && x.status == Retrying then 1 else 0)
            && |Retried(results)| == |Retried(r.results)| + if x.Handled? && x.shouldRetry then 1 else 0
  {
    hide EndedIn, Retried;
    EndedInAppend(r.results, x, HardDeclined);
    EndedInAppend(r.results, x, Recovered);
    EndedInAppend(r.results, x, Exhausted);
    EndedInAppend(r.results, x, Retrying);
    RetriedAppend(r.results, x);
  }

  /** Counting an item whose status goes with its classification. */
  lemma CountedIsSummarised(r: Response, p: Processed)
    requires Summarised(r)
    requires p.classification.decline == HardDecline ==> p.finalStatus == HardDeclined && !p.shouldRetry
    requires p.classification.decline == SoftDecline ==> p.finalStatus in {Recovered, Exhausted} && p.shouldRetry
    ensures Summarised(Counted(r, p))
  {
    hide EndedIn, Retried;
    OneMoreResult(r, Handled(p.id, p.finalStatus, p.shouldRetry));
  }

  lemma FailedIsSummarised(r: Response, id: Id, error: Option<Error>)
    requires Summarised(r)
    ensures Summarised(Failed(r, id, error))
  {
    hide EndedIn, Retried;
    OneMoreResult(r, Rejected(id, error));
  }

  lemma ItemIsSummarised(cat: Catalog, o: Oracle, e: Engine, r: Response, req: FailureRequest)
    requires Usable(cat) && StoreOk(cat, e.store) && Summarised(r)
    ensures Summarised(Item(cat, o, e, r, req).1)
  {
    hide Process, Valid, StoreOk, Summarised, Counted, Failed, ToEvent;
    var e1, event := e.(tick := e.tick + 1), ToEvent(req, o.clock(e.tick));
    EventIsFor(req, o.clock(e.tick));
    FailedIsSummarised(r, req.id, None);
    if req.id in e.store.txs {
      DuplicateChangesHealthOnly(cat, o, e1, event);
      FailedIsSummarised(r, req.id, Some(DuplicateId));
    } else {
      NewIdIsSettled(cat, o, e1, event);
      CountedIsSummarised(r, Process(cat, o, e1, event).1.value);
    }
  }

  lemma {:induction false} ItemsAreSummarised(cat: Catalog, o: Oracle, e: Engine, total: nat, reqs: seq<FailureRequest>)
    requires Usable(cat) && StoreOk(cat, e.store)
    ensures Summarised(Items(cat, o, e, NO_ITEMS.(total := total), reqs).1)
  {
    hide StoreOk, Item, Summarised, NewIds;
    if reqs == [] {
      NothingIsSummarised(total);
    } else {
      var front := reqs[..|reqs| - 1];
      ItemsAreSummarised(cat, o, e, total, front);
      ItemsCounted(cat, o, e, total, front);
      var (e1, r1) := Items(cat, o, e, NO_ITEMS.(total := total), front);
      ItemIsSummarised(cat, o, e1, r1, reqs[|reqs| - 1]);
    }
  }

  lemma NothingIsSummarised(total: nat)
    ensures Summarised(NO_ITEMS.(total := total))
  {
    assert forall status :: EndedIn([], status) == {};
    assert Retried([]) == {};
  }

  /** The summary of a batch says how many of its results are HARD_DECLINED, RECOVERED, EXHAUSTED and
      RETRYING, and how many items were retried. */
  lemma BatchSummary(cat: Catalog, o: Oracle, e: Engine, reqs: seq<FailureRequest>)
    requires Usable(cat) && StoreOk(cat, e.store) && reqs != []
    ensures var response := SubmitBatch(cat, o, e, reqs).1;
            response.Some? && response.value.total == |reqs| && Summarised(response.value)
  {
    hide StoreOk, Summarised, Items;
    ItemsAreSummarised(cat, o, e, |reqs|, reqs);
    BatchAccounting(cat, o, e, reqs);
  }

  // ---------- a batch is a run ----------

  /** The calls that a list of items amounts to: reading the clock, then submitting, if valid. */
  function BatchOps(cat: Catalog, o: Oracle, e: Engine, reqs: seq<FailureRequest>): seq<Op> {
    if reqs == [] then []
    else
      var front, req := reqs[..|reqs| - 1], reqs[|reqs| - 1];
      var ops := BatchOps(cat, o, e, front);
      if Valid(req) then ops + [Query(1), Submit(ToEvent(req, o.clock(Run(cat, o, e, ops).tick)))] else ops
  }

  lemma RunTwoMore(cat: Catalog, o: Oracle, e: Engine, ops: seq<Op>, a: Op, b: Op)
    ensures Run(cat, o, e, ops + [a, b]) == Step(cat, o, Step(cat, o, Run(cat, o, e, ops), a), b)
  {
    hide Step;
    assert (ops + [a, b])[..|ops| + 1] == ops + [a];
    assert (ops + [a])[..|ops|] == ops;
  }

  /** A batch has the effect of its calls one by one, so everything proved of runs holds of batches. */
  lemma {:induction false} BatchIsARun(cat: Catalog, o: Oracle, e: Engine, r: Response, reqs: seq<FailureRequest>)
    ensures Items(cat, o, e, r, reqs).0 == Run(cat, o, e, BatchOps(cat, o, e, reqs))
  {
    if reqs != [] {
      var front, req := reqs[..|reqs| - 1], reqs[|reqs| - 1];
      BatchIsARun(cat, o, e, r, front);
      if Valid(req) {
        var ops := BatchOps(cat, o, e, front);
        var e1 := Run(cat, o, e, ops);
        RunTwoMore(cat, o, e, ops, Query(1), Submit(ToEvent(req, o.clock(e1.tick))));
      }
    }
  }

  /** Validation ensures what the metrics results ask of a run: only positive amounts of known processors
      are submitted, and never an empty ID. */
  lemma {:induction false} BatchOpsAreValid(cat: Catalog, o: Oracle, e: Engine, reqs: seq<FailureRequest>, op: Op)
    requires op in BatchOps(cat, o, e, reqs) && op.Submit?
    ensures op.event.amount > 0 && op.event.processor in REAL_CATALOG.names && op.event.id.text != ""
  {
    var front, req := reqs[..|reqs| - 1], reqs[|reqs| - 1];
    if op in BatchOps(cat, o, e, front) {
      BatchOpsAreValid(cat, o, e, front, op);
    } else {
      assert Valid(req) && op == Submit(ToEvent(req, o.clock(Run(cat, o, e, BatchOps(cat, o, e, front)).tick)));
    }
  }
}
