/** Fault descriptions and how they are lowered onto the timeline
    (crates/propsim-sim/src/faults.rs), the run horizon, and the configuration of a run
    (`run_horizon`, `data_with_ops` and the set-up of `run_deterministic` in lib.rs). */
module FaultPlan {
  import opened Ops
  import opened Engine
  import opened Replay

  datatype FaultKind =
    | Partitions
    | CrashRestart
    | Latency(lo: u64, hi: u64)
    | Drop(p: Prob)
    | Duplicate(p: Prob)
    | Reorder

  datatype Mode = Safety | Liveness

  datatype FaultSpec = Swarm(kinds: seq<FaultKind>) | Scripted(events: seq<(nat, FaultAction)>)

  datatype Faults = Faults(spec: FaultSpec, mode: Mode)

  /** Where lowering a swarm stands. `rng` is the position on the fault tape. */
  datatype Lowering = Lowering(model: NetworkModel, faults: seq<(nat, FaultAction)>, rng: nat, partitioned: bool)

  /** `range_u64` on the fault tape. */
  function Pick(tape: nat -> u64, rng: nat, lo: u64, hi: u64): (r: (nat, nat))
    ensures hi > lo ==> lo <= r.0 < hi && r.1 == rng + 1
    ensures hi <= lo ==> r == (lo, rng)
  {
    if hi <= lo then (lo, rng) else (lo + tape(rng) % (hi - lo), rng + 1)
  }

  /** Each kind survives a fair coin: the top bit of one draw. */
  function Survivors(tape: nat -> u64, rng: nat, kinds: seq<FaultKind>): seq<FaultKind> {
    if kinds == [] then []
    else
      var last := |kinds| - 1;
      Survivors(tape, rng, kinds[..last]) + (if tape(rng + last) < TWO_63 then [kinds[last]] else [])
  }

  function Nodes(lo: nat, hi: nat): (s: seq<nat>)
    requires lo <= hi
    ensures |s| == hi - lo && forall i :: 0 <= i < |s| ==> s[i] == lo + i
  {
    seq(hi - lo, i requires 0 <= i => lo + i)
  }

  function LowerKind(tape: nat -> u64, nodeCount: u64, mode: Mode, st: Lowering, kind: FaultKind): Lowering {
    match kind
    case Latency(lo, hi) => st.(model := st.model.(delayLo := lo, delayHi := hi))
    case Drop(p) => st.(model := st.model.(loss := p))
    case Duplicate(p) => st.(model := st.model.(duplicate := p))
    case Reorder => st.(model := st.model.(ordered := false))
    case Partitions =>
      if nodeCount < 2 then st
      else
        var (cut, rng1) := Pick(tape, st.rng, 1, nodeCount);
        var (at, rng2) := Pick(tape, rng1, 100, 1000);
        st.(faults := st.faults + [(at * MILLIS, Partition(Nodes(0, cut), Nodes(cut, nodeCount)))], rng := rng2,
            partitioned := true)
    case CrashRestart =>
      var (victim, rng1) := Pick(tape, st.rng, 0, if nodeCount < 1 then 1 else nodeCount);
      var (crashAt, rng2) := Pick(tape, rng1, 100, 1000);
      var crashed := st.faults + [(crashAt * MILLIS, Crash(victim))];
      if mode.Safety? then st.(faults := crashed, rng := rng2)
      else
        var (wait, rng3) := Pick(tape, rng2, 500, 2000);
        st.(faults := crashed + [(crashAt * MILLIS + wait * MILLIS, Restart(victim))], rng := rng3)
  }

  function LowerKinds(tape: nat -> u64, nodeCount: u64, mode: Mode, st: Lowering, kinds: seq<FaultKind>): Lowering {
    if kinds == [] then st
    else LowerKind(tape, nodeCount, mode, LowerKinds(tape, nodeCount, mode, st, kinds[..|kinds| - 1]),
        kinds[|kinds| - 1])
  }

  function LowerSwarm(
    tape: nat -> u64, nodeCount: u64, mode: Mode, model: NetworkModel, kinds: seq<FaultKind>): Lowering
  {
    var st := LowerKinds(tape, nodeCount, mode, Lowering(model, [], |kinds|, false), Survivors(tape, 0, kinds));
    if mode.Liveness? && st.partitioned then
      var (healAt, rng) := Pick(tape, st.rng, 2000, 4000);
      st.(faults := st.faults + [(healAt * MILLIS, HealAll)], rng := rng)
    else st
  }

  /** The model and the timed faults a description stands for. */
  function Lower(tape: nat -> u64, nodeCount: u64, faults: Option<Faults>, model: NetworkModel)
    : (NetworkModel, seq<(nat, FaultAction)>)
  {
    match faults
    case None => (model, [])
    case Some(Faults(Scripted(events), _)) => (model, events)
    case Some(Faults(Swarm(kinds), mode)) =>
      var st := LowerSwarm(tape, nodeCount, mode, model, kinds);
      (st.model, st.faults)
  }

  /** `lower_swarm` as it runs: the active model, the timeline and the fault generator are updated
      kind by kind. */
  class SwarmLowering {
    const tape: nat -> u64
    const nodeCount: u64
    const mode: Mode
    var model: NetworkModel
    var faults: seq<(nat, FaultAction)>
    var rng: nat
    var partitioned: bool

    ghost function State(): Lowering
      reads this
    {
      Lowering(model, faults, rng, partitioned)
    }

    constructor (tape: nat -> u64, nodeCount: u64, mode: Mode, model: NetworkModel)
      ensures this.tape == tape && this.nodeCount == nodeCount && this.mode == mode
      ensures State() == Lowering(model, [], 0, false)
    {
      this.tape, this.nodeCount, this.mode, this.model := tape, nodeCount, mode, model;
      faults, rng, partitioned := [], 0, false;
    }

    method RangeU64(lo: u64, hi: u64) returns (v: nat)
      modifies this`rng
      ensures (v, rng) == Pick(tape, old(rng), lo, hi)
    {
      if hi <= lo {
        return lo;
      }
      v := lo + tape(rng) % (hi - lo);
      rng := rng + 1;
    }

    method Enable(kinds: seq<FaultKind>) returns (enabled: seq<FaultKind>)
      modifies this`rng
      ensures rng == old(rng) + |kinds|
      ensures enabled == Survivors(tape, old(rng), kinds)
    {
      enabled := [];
      for i := 0 to |kinds|
        invariant rng == old(rng) + i
        invariant enabled == Survivors(tape, old(rng), kinds[..i])
      {
        assert kinds[..i + 1][..i] == kinds[..i];
        if tape(rng) < TWO_63 {
          enabled := enabled + [kinds[i]];
        }
        rng := rng + 1;
      }
      assert kinds[..|kinds|] == kinds;
    }

    method LowerOne(kind: FaultKind)
      modifies this
      ensures State() == LowerKind(tape, nodeCount, mode, old(State()), kind)
    {
      match kind
      case Latency(lo, hi) => model := model.(delayLo := lo, delayHi := hi);
      case Drop(p) => model := model.(loss := p);
      case Duplicate(p) => model := model.(duplicate := p);
      case Reorder => model := model.(ordered := false);
      case Partitions => LowerPartition();
      case CrashRestart => LowerCrash();
    }

    method LowerPartition()
      modifies this
      ensures State() == LowerKind(tape, nodeCount, mode, old(State()), Partitions)
    {
      if nodeCount >= 2 {
        var cut := RangeU64(1, nodeCount);
        var at := RangeU64(100, 1000);
        faults := faults + [(at * MILLIS, Partition(Nodes(0, cut), Nodes(cut, nodeCount)))];
        partitioned := true;
      }
    }

    method LowerCrash()
      modifies this
      ensures State() == LowerKind(tape, nodeCount, mode, old(State()), CrashRestart)
    {
      var victim := RangeU64(0, if nodeCount < 1 then 1 else nodeCount);
      var crashAt := RangeU64(100, 1000);
      faults := faults + [(crashAt * MILLIS, Crash(victim))];
      if mode.Liveness? {
        var wait := RangeU64(500, 2000);
        faults := faults + [(crashAt * MILLIS + wait * MILLIS, Restart(victim))];
      }
    }

    method Run(kinds: seq<FaultKind>)
      requires State() == Lowering(model, [], 0, false)
      modifies this
      ensures State() == LowerSwarm(tape, nodeCount, mode, old(model), kinds)
    {
      var enabled := Enable(kinds);
      for i := 0 to |enabled|
        invariant State() == LowerKinds(tape, nodeCount, mode, Lowering(old(model), [], |kinds|, false), enabled[..i])
      {
        assert enabled[..i + 1][..i] == enabled[..i];
        LowerOne(enabled[i]);
      }
      assert enabled[..|enabled|] == enabled;
      if mode.Liveness? && partitioned {
        var healAt := RangeU64(2000, 4000);
        faults := faults + [(healAt * MILLIS, HealAll)];
      }
    }
  }

  // ----- Plans -----

  datatype Scenario = Scenario(ops: seq<FrozenOp>, faults: Faults)

  datatype PlanData = PlanData(
    nodes: u64, network: Option<NetworkModel>, faults: Option<Faults>, seeds: nat, replay: Option<Scenario>)

  const SECONDS: nat := 1000 * MILLIS

  const SWARM: Faults := Faults(Swarm([]), Safety)

  const ORDERED_RELIABLE: NetworkModel := NetworkModel(0, 0, Never, Never, true)

  function Latest(events: seq<(nat, FaultAction)>, floor: nat): (t: nat)
    ensures t >= floor
  {
    if events == [] then floor
    else
      var t := Latest(events[..|events| - 1], floor);
      if events[|events| - 1].0 > t then events[|events| - 1].0 else t
  }

  /** `run_horizon`: ten seconds beyond the last scripted fault, taking that to be at 5 s or later. */
  function RunHorizon(data: PlanData): nat {
    var faults := if data.faults.Some? then data.faults
                  else if data.replay.Some? then Some(data.replay.value.faults) else None;
    var latest := if faults.Some? && faults.value.spec.Scripted?
                  then Latest(faults.value.spec.events, 5 * SECONDS) else 5 * SECONDS;
    latest + 10 * SECONDS
  }

  /** `data_with_ops`: the plan with its op stream pinned. */
  function DataWithOps(data: PlanData, ops: seq<FrozenOp>): PlanData {
    data.(replay := Some(Scenario(ops, if data.faults.Some? then data.faults.value else SWARM)))
  }

  /** The configuration and the timed faults of a run. `sampled` is the op stream a workload would
      yield; a replay scenario takes precedence. */
  function Setup(
    data: PlanData, def: NodeDef, codec: Option<Codec>, tape: nat -> u64, faultTape: nat -> u64, sampled: seq<FrozenOp>)
    : (r: (Config, seq<(nat, FaultAction)>))
    ensures r.0.nodeCount > 0
  {
    var nodeCount := if data.nodes < 1 then 1 else data.nodes;
    var model := if data.network.Some? then data.network.value else ORDERED_RELIABLE;
    var (lowered, faults) := Lower(faultTape, nodeCount, data.faults, model);
    var ops := if data.replay.Some? then data.replay.value.ops else sampled;
    (Config(def, codec, tape, lowered, RunHorizon(data), nodeCount, ops), faults)
  }

  /** A replayed scenario whose faults the plan does not state itself scripts nothing later than five
      seconds. */
  predicate ScriptIsShort(data: PlanData) {
    data.faults.None? && data.replay.Some? && data.replay.value.faults.spec.Scripted? ==>
      forall i :: 0 <= i < |data.replay.value.faults.spec.events| ==>
        data.replay.value.faults.spec.events[i].0 <= 5 * SECONDS
  }

  lemma {:induction false} LatestIsFloor(events: seq<(nat, FaultAction)>, floor: nat)
    ensures Latest(events, floor) == floor <==> forall i :: 0 <= i < |events| ==> events[i].0 <= floor
  {
    if events == [] {
    } else {
      var last := |events| - 1;
      LatestIsFloor(events[..last], floor);
      if forall i :: 0 <= i < |events| ==> events[i].0 <= floor {
        assert forall i :: 0 <= i < last ==> events[..last][i] == events[i];
      } else {
        var i :| 0 <= i < |events| && events[i].0 > floor;
        assert i < last ==> events[..last][i] == events[i];
      }
    }
  }

  /** Pinning the ops keeps the horizon exactly when no script is lost that reaches beyond five
      seconds: `data_with_ops` drops the faults of a replayed scenario. */
  lemma HorizonPreserved(data: PlanData, ops: seq<FrozenOp>)
    ensures RunHorizon(DataWithOps(data, ops)) == RunHorizon(data) <==> ScriptIsShort(data)
  {
    if data.faults.None? && data.replay.Some? && data.replay.value.faults.spec.Scripted? {
      LatestIsFloor(data.replay.value.faults.spec.events, 5 * SECONDS);
    }
  }

  /** A replayed scenario that heals the network after six seconds. */
  const LATE_HEAL: PlanData :=
    PlanData(1, None, None, 1, Some(Scenario([], Faults(Scripted([(6 * SECONDS, HealAll)]), Safety))))

  /** With it, pinning the ops ends the run a second earlier. */
  lemma PinningShortens()
    ensures RunHorizon(LATE_HEAL) == 16 * SECONDS && RunHorizon(DataWithOps(LATE_HEAL, [])) == 15 * SECONDS
  {
    var events := LATE_HEAL.replay.value.faults.spec.events;
    assert Latest(events[..0], 5 * SECONDS) == 5 * SECONDS;
    assert Latest(events, 5 * SECONDS) == 6 * SECONDS;
  }

  lemma PinnedSetup(
    data: PlanData, def: NodeDef, codec: Option<Codec>, tape: nat -> u64, faultTape: nat -> u64,
    sampled: seq<FrozenOp>, ops: seq<FrozenOp>)
    requires RunHorizon(DataWithOps(data, ops)) == RunHorizon(data)
    ensures var (cfg, faults) := Setup(data, def, codec, tape, faultTape, sampled);
            Setup(DataWithOps(data, ops), def, codec, tape, faultTape, []) == (cfg.(ops := ops), faults)
  {
  }

  /** Shrinking's replay at plan level: if no op that has time is routed elsewhere and no late script
      is lost, pinning the recovered ops reproduces the completed run. */
  lemma PinnedPlanReproduces(
    data: PlanData, def: NodeDef, codec: Option<Codec>, tape: nat -> u64, faultTape: nat -> u64,
        sampled: seq<FrozenOp>, n: nat)
    requires var (cfg, faults) := Setup(data, def, codec, tape, faultTape, sampled);
             RoutesOk(cfg) && !Run(cfg, Init(cfg, faults), n).1
    requires ScriptIsShort(data)
    ensures var (cfg, faults) := Setup(data, def, codec, tape, faultTape, sampled);
            var a := Run(cfg, Init(cfg, faults), n).0;
            var pinned := DataWithOps(data, CollectOps(Finish(a).core.history));
            var (cfg', faults') := Setup(pinned, def, codec, tape, faultTape, []);
            var (b, more) := Run(cfg', Init(cfg', faults'), n);
            && !more && b.frames == a.frames && b.nodes == a.nodes
            && b.core.events == a.core.events && b.core.history == a.core.history
            && SameUpToTimes(Finish(a).core.history, Finish(b).core.history, |a.core.history|)
  {
    var (cfg, faults) := Setup(data, def, codec, tape, faultTape, sampled);
    var h := Finish(Run(cfg, Init(cfg, faults), n).0).core.history;
    HorizonPreserved(data, CollectOps(h));
    PinnedSetup(data, def, codec, tape, faultTape, sampled, CollectOps(h));
    ReplayReproduces(cfg, faults, n);
  }
}
