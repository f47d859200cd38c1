/** The rolling-window tracker: append and in-place compaction on write, counting on read. */
module HealthTracking {
  import opened Domain
  import opened Health
  import World

  /** The pruning loop: slide every surviving outcome down to the write index n, which never
      passes the read index, and report how many survived. */
  method Compact(outcomes: array<Outcome>, cutoff: int) returns (n: nat)
    modifies outcomes
    ensures n <= outcomes.Length
    ensures outcomes[..n] == Keep(old(outcomes[..]), cutoff)
  {
    n := 0;
    ghost var was := outcomes[..];
    for i := 0 to outcomes.Length
      invariant n <= i
      invariant outcomes[..n] == Keep(was[..i], cutoff)
      invariant outcomes[i..] == was[i..]
    {
      var o := outcomes[i];
      assert o == was[i];
      KeepAppend(was[..i], o, cutoff);
      assert was[..i + 1] == was[..i] + [o];
      if o.timestamp >= cutoff {
        outcomes[n] := o;
        n := n + 1;
      }
    }
    assert was[..outcomes.Length] == was;
  }

  class HealthTracker {
    var windows: Windows
    const world: World.Environment

    constructor (world: World.Environment)
      ensures this.world == world && windows == map[]
    {
      this.world := world;
      windows := map[];
    }

    method RecordOutcome(p: Processor, success: bool, ts: int)
      modifies this, world`tick
      ensures windows == Record(old(windows), p, success, ts, world.oracle.clock(old(world.tick)))
      ensures world.tick == old(world.tick) + 1
    {
      var w := if p in windows then windows[p] else [];
      var grown := w + [Outcome(ts, success)];
      var buffer := new Outcome[|grown|](i requires 0 <= i < |grown| => grown[i]);
      assert buffer[..] == grown;
      var now := world.Now();
      var n := Compact(buffer, now - WINDOW);
      windows := windows[p := buffer[..n]];
    }

    method GetHealth(p: Processor) returns (snap: Snapshot)
      modifies world`tick
      ensures snap == SnapshotOf(windows, p, world.oracle.clock(old(world.tick)))
      ensures world.tick == old(world.tick) + 1
    {
      var now := world.Now();
      var cutoff := now - WINDOW;
      if p !in windows {
        return Snapshot(p, Healthy, 0.0, 0, 0, 0, cutoff, now);
      }
      var outcomes := windows[p];
      var total, failures, successes := 0, 0, 0;
      for i := 0 to |outcomes|
        invariant successes == Tally(outcomes[..i], true, cutoff)
        invariant failures == Tally(outcomes[..i], false, cutoff)
        invariant total == failures + successes
      {
        assert outcomes[..i + 1][..i] == outcomes[..i];
        if outcomes[i].timestamp >= cutoff {
          total := total + 1;
          if outcomes[i].success {
            successes := successes + 1;
          } else {
            failures := failures + 1;
          }
        }
      }
      assert outcomes[..|outcomes|] == outcomes;
      if total < MIN_SAMPLES {
        return Snapshot(p, Healthy, 0.0, total, failures, successes, cutoff, now);
      }
      var rate := failures as real / total as real;
      var state := if rate >= 0.80 then Down else if rate >= 0.50 then Degraded else Healthy;
      snap := Snapshot(p, state, rate, total, failures, successes, cutoff, now);
    }

    /** One snapshot per listed processor, each taken at its own clock reading. */
    method GetAllHealth(names: seq<Processor>) returns (all: map<Processor, Snapshot>)
      requires forall i, j :: 0 <= i < j < |names| ==> names[i] != names[j]
      modifies world`tick
      ensures all.Keys == set p | p in names
      ensures forall i :: 0 <= i < |names| ==>
                all[names[i]] == SnapshotOf(windows, names[i], world.oracle.clock(old(world.tick) + i))
      ensures world.tick == old(world.tick) + |names|
    {
      hide SnapshotOf;
      all := map[];
      for i := 0 to |names|
        invariant all.Keys == set p | p in names[..i]
        invariant forall k :: 0 <= k < i ==>
                    all[names[k]] == SnapshotOf(windows, names[k], world.oracle.clock(old(world.tick) + k))
        invariant world.tick == old(world.tick) + i
      {
        var snap := GetHealth(names[i]);
        all := all[names[i] := snap];
        assert names[..i + 1] == names[..i] + [names[i]];
      }
      assert names[..|names|] == names;
    }

    method Reset()
      modifies this
      ensures windows == map[]
    {
      windows := map[];
    }
  }
}
