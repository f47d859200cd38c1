/** The handlers that change state, and the engine they are wired to. */
module Handling {
  import opened Domain
  import HealthTracking
  import Storage
  import World
  import opened RetryEngine
  import Invariant
  import Reachable
  import Orchestration
  import opened Batch

  class Handler {
    const orchestrator: Orchestration.Orchestrator

    constructor (orchestrator: Orchestration.Orchestrator)
      ensures this.orchestrator == orchestrator
    {
      this.orchestrator := orchestrator;
    }

    method SubmitBatch(reqs: seq<FailureRequest>) returns (response: Option<Response>)
      requires orchestrator.Valid()
      modifies orchestrator, orchestrator.world, orchestrator.tracker, orchestrator.store
      ensures orchestrator.Valid()
      ensures (orchestrator.State(), response) ==
              Batch.SubmitBatch(orchestrator.cat, orchestrator.world.oracle, old(orchestrator.State()), reqs)
    {
      if reqs == [] {
        return None;
      }
      ghost var e := orchestrator.State();
      var resp := NO_ITEMS.(total := |reqs|);
      for i := 0 to |reqs|
        invariant orchestrator.Valid()
        invariant (orchestrator.State(), resp) ==
                  Items(orchestrator.cat, orchestrator.world.oracle, e, NO_ITEMS.(total := |reqs|), reqs[..i])
      {
        assert reqs[..i + 1][..i] == reqs[..i];
        resp := HandleItem(reqs[i], resp);
      }
      assert reqs[..|reqs|] == reqs;
      response := Some(resp);
    }

    method HandleItem(req: FailureRequest, resp: Response) returns (r: Response)
      requires orchestrator.Valid()
      modifies orchestrator, orchestrator.world, orchestrator.tracker, orchestrator.store
      ensures orchestrator.Valid()
      ensures (orchestrator.State(), r) ==
              Item(orchestrator.cat, orchestrator.world.oracle, old(orchestrator.State()), resp, req)
    {
      hide Process;
      if !Batch.Valid(req) {
        return resp.(errors := resp.errors + 1, results := resp.results + [Rejected(req.id, None)]);
      }
      var now := orchestrator.ReadClock();
      var result := orchestrator.ProcessFailure(ToEvent(req, now));
      match result {
        case Err(error) =>
          r := resp.(errors := resp.errors + 1, results := resp.results + [Rejected(req.id, Some(error))]);
        case Ok(p) =>
          r := CountProcessed(resp, p);
      }
    }

    method CountProcessed(resp: Response, p: Processed) returns (r: Response)
      ensures r == Counted(resp, p)
    {
      r := resp.(processed := resp.processed + 1,
                 results := resp.results + [Handled(p.id, p.finalStatus, p.shouldRetry)]);
      match p.classification.decline {
        case HardDecline => r := r.(hard := r.hard + 1);
        case SoftDecline => r := r.(soft := r.soft + 1);
      }
      match p.finalStatus {
        case Recovered => r := r.(recovered := r.recovered + 1);
        case Exhausted => r := r.(exhausted := r.exhausted + 1);
        case Retrying => r := r.(retrying := r.retrying + 1);
        case _ =>
      }
    }

    /** Clears the store, then the health windows; nothing clears what was learned. */
    method ResetData()
      requires orchestrator.Valid()
      modifies orchestrator.store, orchestrator.tracker
      ensures orchestrator.Valid() && orchestrator.State() == Reset(old(orchestrator.State()))
    {
      orchestrator.store.Reset();
      orchestrator.tracker.Reset();
    }

    /** One call, whichever it is. */
    method Call(op: Op)
      requires orchestrator.Valid()
      modifies orchestrator, orchestrator.world, orchestrator.tracker, orchestrator.store
      ensures orchestrator.Valid()
      ensures orchestrator.State() == Step(orchestrator.cat, orchestrator.world.oracle, old(orchestrator.State()), op)
    {
      hide Process, Report;
      match op {
        case Submit(event) => var result := orchestrator.ProcessFailure(event);
        case ReportOutcome(id, p, success) => var result := orchestrator.RecordRetryOutcome(id, p, success);
        case Query(readings) => ReadClock(readings);
        case ResetAll => ResetData();
      }
    }

    method ReadClock(readings: nat)
      requires orchestrator.Valid()
      modifies orchestrator.world`tick
      ensures orchestrator.Valid()
      ensures var e := old(orchestrator.State()); orchestrator.State() == e.(tick := e.tick + readings)
    {
      for i := 0 to readings
        invariant orchestrator.Valid()
        invariant var e := old(orchestrator.State()); orchestrator.State() == e.(tick := e.tick + i)
      {
        var now := orchestrator.ReadClock();
      }
    }

    /** Any calls, one after the other: the objects go through exactly the states of the run. */
    method Serve(ops: seq<Op>)
      requires orchestrator.Valid()
      modifies orchestrator, orchestrator.world, orchestrator.tracker, orchestrator.store
      ensures orchestrator.Valid()
      ensures orchestrator.State() == Run(orchestrator.cat, orchestrator.world.oracle, old(orchestrator.State()), ops)
    {
      hide Step;
      ghost var e := orchestrator.State();
      for i := 0 to |ops|
        invariant orchestrator.Valid()
        invariant orchestrator.State() == Run(orchestrator.cat, orchestrator.world.oracle, e, ops[..i])
      {
        assert ops[..i + 1][..i] == ops[..i];
        Call(ops[i]);
      }
      assert ops[..|ops|] == ops;
    }
  }

  /** A new engine, wired up, and any calls on it: what is proved of runs holds of these objects. */
  method Launch(cat: Catalog, oracle: World.Oracle, ops: seq<Op>) returns (handler: Handler)
    requires Invariant.Usable(cat)
    ensures handler.orchestrator.Valid()
    ensures handler.orchestrator.State() == Run(cat, oracle, INITIAL, ops)
    ensures Invariant.StoreOk(cat, handler.orchestrator.store.View())
  {
    hide Invariant.StoreOk;
    var world := new World.Environment(oracle);
    var tracker := new HealthTracking.HealthTracker(world);
    var store := new Storage.MemoryStore();
    var orchestrator := new Orchestration.Orchestrator(cat, tracker, store);
    handler := new Handler(orchestrator);
    assert orchestrator.State() == INITIAL;
    handler.Serve(ops);
    Reachable.ReachableStoresAreOk(cat, oracle, ops);
  }
}
