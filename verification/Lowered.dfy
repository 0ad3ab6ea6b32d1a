/** What lowering a swarm of faults comes to, kind by kind, in either mode: the network model it leaves and
    the timeline it schedules (`lower_swarm`, crates/propsim-sim/src/faults.rs). */
module Lowered {
  import opened Ops
  import opened Engine
  import opened FaultPlan

  // ----- Which kinds survive -----

  /** A fair coin: the first draws of the fault generator, one for each kind, with the top bit clear. */
  predicate Survives(tape: nat -> u64, i: nat) {
    tape(i) < 0x8000_0000_0000_0000
  }

  /** The last surviving kind of a sort. */
  ghost predicate LastOf(tape: nat -> u64, kinds: seq<FaultKind>, sort: FaultKind -> bool, i: nat) {
    && i < |kinds| && Survives(tape, i) && sort(kinds[i])
    && forall j :: i < j < |kinds| && Survives(tape, j) ==> !sort(kinds[j])
  }

  ghost predicate NoneOf(tape: nat -> u64, kinds: seq<FaultKind>, sort: FaultKind -> bool) {
    forall i :: 0 <= i < |kinds| && Survives(tape, i) ==> !sort(kinds[i])
  }

  /** `value` is what the last surviving kind of a sort states, or `otherwise` if there is none. */
  ghost predicate SetByLast<T(!new)>(tape: nat -> u64, kinds: seq<FaultKind>, sort: FaultKind -> bool,
      stated: (FaultKind, T) -> bool, otherwise: T, value: T)
  {
    && (forall i: nat :: LastOf(tape, kinds, sort, i) ==> stated(kinds[i], value))
    && (NoneOf(tape, kinds, sort) ==> value == otherwise)
  }

  /** One kind more leaves the setting alone, unless it survives and states it. */
  lemma SetByOneMore<T(!new)>(tape: nat -> u64, kinds: seq<FaultKind>, sort: FaultKind -> bool,
      stated: (FaultKind, T) -> bool, otherwise: T, value: T)
    requires kinds != []
    requires if Survives(tape, |kinds| - 1) && sort(kinds[|kinds| - 1]) then stated(kinds[|kinds| - 1], value)
             else SetByLast(tape, kinds[..|kinds| - 1], sort, stated, otherwise, value)
    ensures SetByLast(tape, kinds, sort, stated, otherwise, value)
  {
    var n := |kinds| - 1;
    var init := kinds[..n];
    assert forall i :: 0 <= i < n ==> init[i] == kinds[i];
    if Survives(tape, n) && sort(kinds[n]) {
      assert !NoneOf(tape, kinds, sort);
      assert forall i: nat :: LastOf(tape, kinds, sort, i) ==> i == n;
    } else {
      forall i: nat | LastOf(tape, kinds, sort, i) ensures stated(kinds[i], value) {
        assert LastOf(tape, init, sort, i);
      }
      assert NoneOf(tape, kinds, sort) ==> NoneOf(tape, init, sort);
    }
  }

  // ----- The network model -----

  /** Each setting is that of the last surviving kind that states it, or the network's own. */
  ghost predicate ModelIsLast(tape: nat -> u64, kinds: seq<FaultKind>, base: NetworkModel, model: NetworkModel) {
    && SetByLast(tape, kinds, (k: FaultKind) => k.Drop?,
         (k: FaultKind, p: Prob) => k.Drop? && p == k.p, base.loss, model.loss)
    && SetByLast(tape, kinds, (k: FaultKind) => k.Duplicate?,
         (k: FaultKind, p: Prob) => k.Duplicate? && p == k.p, base.duplicate, model.duplicate)
    && SetByLast(tape, kinds, (k: FaultKind) => k.Latency?,
         (k: FaultKind, d: (u64, u64)) => k.Latency? && d == (k.lo, k.hi),
         (base.delayLo, base.delayHi), (model.delayLo, model.delayHi))
    && (model.ordered <==> base.ordered && NoneOf(tape, kinds, (k: FaultKind) => k.Reorder?))
  }

  /** What lowering the survivors among the first kinds has come to. */
  function LoweredSo(tape: nat -> u64, nodeCount: u64, mode: Mode, base: NetworkModel, draws: nat,
      kinds: seq<FaultKind>): Lowering
  {
    LowerKinds(tape, nodeCount, mode, Lowering(base, [], draws, false), Survivors(tape, 0, kinds))
  }

  lemma OneMore(tape: nat -> u64, nodeCount: u64, mode: Mode, base: NetworkModel, draws: nat, kinds: seq<FaultKind>)
    returns (before: Lowering)
    requires kinds != []
    ensures before == LoweredSo(tape, nodeCount, mode, base, draws, kinds[..|kinds| - 1])
    ensures LoweredSo(tape, nodeCount, mode, base, draws, kinds)
         == if Survives(tape, |kinds| - 1) then LowerKind(tape, nodeCount, mode, before, kinds[|kinds| - 1])
            else before
  {
    var n := |kinds| - 1;
    before := LoweredSo(tape, nodeCount, mode, base, draws, kinds[..n]);
    var s := Survivors(tape, 0, kinds);
    if Survives(tape, n) {
      assert s[..|s| - 1] == Survivors(tape, 0, kinds[..n]);
    } else {
      assert s == Survivors(tape, 0, kinds[..n]);
    }
  }

  /** One kind states one setting and leaves the others alone. */
  lemma KindSets(tape: nat -> u64, nodeCount: u64, mode: Mode, st: Lowering, kind: FaultKind)
    returns (model: NetworkModel)
    ensures model == LowerKind(tape, nodeCount, mode, st, kind).model
    ensures model.loss == if kind.Drop? then kind.p else st.model.loss
    ensures model.duplicate == if kind.Duplicate? then kind.p else st.model.duplicate
    ensures (model.delayLo, model.delayHi)
         == if kind.Latency? then (kind.lo, kind.hi) else (st.model.delayLo, st.model.delayHi)
    ensures model.ordered <==> st.model.ordered && !kind.Reorder?
  {
    model := LowerKind(tape, nodeCount, mode, st, kind).model;
  }

  lemma NoneOfOneMore(tape: nat -> u64, kinds: seq<FaultKind>, sort: FaultKind -> bool)
    requires kinds != []
    ensures NoneOf(tape, kinds, sort)
       <==> NoneOf(tape, kinds[..|kinds| - 1], sort)
            && !(Survives(tape, |kinds| - 1) && sort(kinds[|kinds| - 1]))
  {
    assert forall i :: 0 <= i < |kinds| - 1 ==> kinds[..|kinds| - 1][i] == kinds[i];
  }

  lemma {:induction false} ModelSoFar(
    tape: nat -> u64, nodeCount: u64, mode: Mode, base: NetworkModel, draws: nat, kinds: seq<FaultKind>)
    returns (model: NetworkModel)
    ensures model == LoweredSo(tape, nodeCount, mode, base, draws, kinds).model
    ensures ModelIsLast(tape, kinds, base, model)
  {
    if kinds == [] {
      model := base;
    } else {
      var n := |kinds| - 1;
      var was := ModelSoFar(tape, nodeCount, mode, base, draws, kinds[..n]);
      var before := OneMore(tape, nodeCount, mode, base, draws, kinds);
      model := was;
      if Survives(tape, n) {
        model := KindSets(tape, nodeCount, mode, before, kinds[n]);
      }
      SetByOneMore(tape, kinds, (k: FaultKind) => k.Drop?,
          (k: FaultKind, p: Prob) => k.Drop? && p == k.p, base.loss, model.loss);
      SetByOneMore(tape, kinds, (k: FaultKind) => k.Duplicate?,
          (k: FaultKind, p: Prob) => k.Duplicate? && p == k.p, base.duplicate, model.duplicate);
      SetByOneMore(tape, kinds, (k: FaultKind) => k.Latency?,
          (k: FaultKind, d: (u64, u64)) => k.Latency? && d == (k.lo, k.hi),
          (base.delayLo, base.delayHi), (model.delayLo, model.delayHi));
      NoneOfOneMore(tape, kinds, (k: FaultKind) => k.Reorder?);
    }
  }

  /** For all kinds, draws and either mode: every setting of the lowered network is that of the last
      surviving kind that states it, or the plan's own. */
  lemma LoweredModel(tape: nat -> u64, nodeCount: u64, mode: Mode, base: NetworkModel, kinds: seq<FaultKind>)
    ensures ModelIsLast(tape, kinds, base, LowerSwarm(tape, nodeCount, mode, base, kinds).model)
  {
    var _ := ModelSoFar(tape, nodeCount, mode, base, |kinds|, kinds);
  }

  // ----- The timeline -----

  type Timeline = seq<(nat, FaultAction)>

  /** The draw at `r`, taken down to `lo` and up to before `hi`, in milliseconds. */
  function Drawn(tape: nat -> u64, r: nat, lo: nat, hi: nat): nat
    requires lo < hi
  {
    (lo + tape(r) % (hi - lo)) * 1_000_000
  }

  /** The groups are the nodes below some point and those from it on, neither empty. */
  ghost predicate CutInTwo(nodeCount: nat, left: seq<nat>, right: seq<nat>) {
    && left != [] && right != [] && |left| + |right| == nodeCount
    && forall n :: 0 <= n < nodeCount ==> (left + right)[n] == n
  }

  /** What one surviving kind puts on the timeline, with the draws from `r` on: a partition of the nodes at a drawn
      point and time; or a crash of a drawn node at a drawn time, and in liveness mode its restart a drawn time
      later. */
  ghost predicate Contributes(tape: nat -> u64, r: nat, nodeCount: nat, mode: Mode, kind: FaultKind, part: Timeline) {
    match kind
    case Partitions =>
      if nodeCount < 2 then part == []
      else
        && |part| == 1 && part[0].0 == Drawn(tape, r + 1, 100, 1000) && part[0].1.Partition?
        && CutInTwo(nodeCount, part[0].1.left, part[0].1.right)
        && |part[0].1.left| == 1 + tape(r) % (nodeCount - 1)
    case CrashRestart =>
      var victim := if nodeCount == 0 then 0 else tape(r) % nodeCount;
      var at := Drawn(tape, r + 1, 100, 1000);
      part == [(at, Crash(victim))]
              + if mode.Liveness? then [(at + Drawn(tape, r + 2, 500, 2000), Restart(victim))] else []
    case _ => part == []
  }

  /** How many draws that takes. */
  function DrawsFor(nodeCount: nat, mode: Mode, kind: FaultKind): nat {
    match kind
    case Partitions => if nodeCount < 2 then 0 else 2
    case CrashRestart => if mode.Liveness? then 3 else 2
    case _ => 0
  }

  /** The parts one after the other. */
  function Joined(parts: seq<Timeline>): Timeline {
    if parts == [] then [] else Joined(parts[..|parts| - 1]) + parts[|parts| - 1]
  }

  ghost predicate PartOf(tape: nat -> u64, nodeCount: nat, mode: Mode, kinds: seq<FaultKind>, parts: seq<Timeline>,
      draws: seq<nat>, i: nat)
    requires i < |kinds| == |parts| && |draws| == |kinds| + 1
  {
    if Survives(tape, i) then
      Contributes(tape, draws[i], nodeCount, mode, kinds[i], parts[i])
      && draws[i + 1] == draws[i] + DrawsFor(nodeCount, mode, kinds[i])
    else parts[i] == [] && draws[i + 1] == draws[i]
  }

  /** Each surviving kind contributes its part, drawing where the one before stopped, after one draw for each
      kind. */
  ghost predicate PartsOf(tape: nat -> u64, nodeCount: nat, mode: Mode, kinds: seq<FaultKind>, parts: seq<Timeline>,
      draws: seq<nat>, first: nat)
  {
    && |parts| == |kinds| && |draws| == |kinds| + 1 && draws[0] == first
    && forall i :: 0 <= i < |kinds| ==> PartOf(tape, nodeCount, mode, kinds, parts, draws, i)
  }

  /** Some partition was scheduled. */
  ghost predicate Partitioned(tape: nat -> u64, nodeCount: nat, kinds: seq<FaultKind>) {
    nodeCount >= 2 && exists i :: 0 <= i < |kinds| && Survives(tape, i) && kinds[i].Partitions?
  }

  lemma KindContributes(tape: nat -> u64, nodeCount: u64, mode: Mode, st: Lowering, kind: FaultKind)
    returns (st': Lowering, part: Timeline)
    ensures st' == LowerKind(tape, nodeCount, mode, st, kind)
    ensures st'.faults == st.faults + part && Contributes(tape, st.rng, nodeCount, mode, kind, part)
    ensures st'.rng == st.rng + DrawsFor(nodeCount, mode, kind)
    ensures st'.partitioned == (st.partitioned || (kind.Partitions? && nodeCount >= 2))
  {
    st' := LowerKind(tape, nodeCount, mode, st, kind);
    part := st'.faults[|st.faults|..];
  }

  lemma PartitionedLonger(tape: nat -> u64, nodeCount: nat, kinds: seq<FaultKind>)
    requires kinds != []
    ensures var n := |kinds| - 1;
            Partitioned(tape, nodeCount, kinds) <==>
              Partitioned(tape, nodeCount, kinds[..n])
              || (nodeCount >= 2 && Survives(tape, n) && kinds[n].Partitions?)
  {
    var n := |kinds| - 1;
    if Partitioned(tape, nodeCount, kinds[..n]) {
      var i :| 0 <= i < n && Survives(tape, i) && kinds[..n][i].Partitions?;
      assert kinds[i].Partitions?;
    }
    if Partitioned(tape, nodeCount, kinds) {
      var i :| 0 <= i < |kinds| && Survives(tape, i) && kinds[i].Partitions?;
      assert i < n ==> kinds[..n][i].Partitions?;
    }
  }

  lemma OnePartMore(tape: nat -> u64, nodeCount: nat, mode: Mode, kinds: seq<FaultKind>, parts: seq<Timeline>,
      draws: seq<nat>, part: Timeline, next: nat, first: nat)
    requires kinds != [] && PartsOf(tape, nodeCount, mode, kinds[..|kinds| - 1], parts, draws, first)
    requires PartOf(tape, nodeCount, mode, kinds, parts + [part], draws + [next], |kinds| - 1)
    ensures PartsOf(tape, nodeCount, mode, kinds, parts + [part], draws + [next], first)
  {
    forall i | 0 <= i < |kinds| ensures PartOf(tape, nodeCount, mode, kinds, parts + [part], draws + [next], i) {
      if i < |kinds| - 1 {
        assert PartOf(tape, nodeCount, mode, kinds[..|kinds| - 1], parts, draws, i);
      }
    }
  }

  lemma {:induction false} TimelineSoFar(
    tape: nat -> u64, nodeCount: u64, mode: Mode, base: NetworkModel, first: nat, kinds: seq<FaultKind>)
    returns (st: Lowering, parts: seq<Timeline>, draws: seq<nat>)
    ensures st == LoweredSo(tape, nodeCount, mode, base, first, kinds)
    ensures PartsOf(tape, nodeCount, mode, kinds, parts, draws, first)
    ensures st.faults == Joined(parts) && st.rng == draws[|kinds|]
    ensures st.partitioned <==> Partitioned(tape, nodeCount, kinds)
  {
    if kinds == [] {
      st, parts, draws := Lowering(base, [], first, false), [], [first];
    } else {
      var n := |kinds| - 1;
      var before, earlier, sofar := TimelineSoFar(tape, nodeCount, mode, base, first, kinds[..n]);
      var _ := OneMore(tape, nodeCount, mode, base, first, kinds);
      PartitionedLonger(tape, nodeCount, kinds);
      var part := [];
      st := before;
      if Survives(tape, n) {
        st, part := KindContributes(tape, nodeCount, mode, before, kinds[n]);
      }
      parts, draws := earlier + [part], sofar + [st.rng];
      OnePartMore(tape, nodeCount, mode, kinds, earlier, sofar, part, st.rng, first);
      assert parts[..n] == earlier;
    }
  }

  /** After any partition a liveness swarm heals the network, once, at a drawn time. */
  ghost predicate IsHeal(tape: nat -> u64, r: nat, nodeCount: nat, mode: Mode, kinds: seq<FaultKind>, heal: Timeline) {
    heal == if mode.Liveness? && Partitioned(tape, nodeCount, kinds)
            then [(Drawn(tape, r, 2000, 4000), HealAll)] else []
  }

  /** `faults` is the timeline of a swarm: what its surviving kinds contribute, in order, and the heal. */
  ghost predicate IsTimeline(tape: nat -> u64, nodeCount: nat, mode: Mode, kinds: seq<FaultKind>, faults: Timeline) {
    exists parts, draws, heal
      {:trigger PartsOf(tape, nodeCount, mode, kinds, parts, draws, |kinds|), Joined(parts) + heal} ::
      && PartsOf(tape, nodeCount, mode, kinds, parts, draws, |kinds|)
      && IsHeal(tape, draws[|kinds|], nodeCount, mode, kinds, heal) && faults == Joined(parts) + heal
  }

  /** For all kinds, draws and either mode: the timeline is what the surviving kinds contribute, in order,
      one partition or crash each, a restart only in liveness mode; and there, after any partition, one
      heal. */
  lemma LoweredTimeline(tape: nat -> u64, nodeCount: u64, mode: Mode, base: NetworkModel, kinds: seq<FaultKind>)
    ensures IsTimeline(tape, nodeCount, mode, kinds, LowerSwarm(tape, nodeCount, mode, base, kinds).faults)
  {
    var st, parts, draws := TimelineSoFar(tape, nodeCount, mode, base, |kinds|, kinds);
    var heal := LowerSwarm(tape, nodeCount, mode, base, kinds).faults[|st.faults|..];
    assert LowerSwarm(tape, nodeCount, mode, base, kinds).faults == Joined(parts) + heal;
  }

  // ----- A plan -----

  /** What a run is set up with: at least one node, the ops of a replay if there is one, the plan's network or the
      reliable one that keeps order, and the faults the plan states, a swarm being lowered. */
  lemma PlanIs(
    data: PlanData, def: NodeDef, codec: Option<Codec>, tape: nat -> u64, faultTape: nat -> u64, sampled: seq<FrozenOp>)
    returns (cfg: Config, faults: Timeline, base: NetworkModel)
    ensures (cfg, faults) == Setup(data, def, codec, tape, faultTape, sampled)
    ensures cfg.nodeCount == (if data.nodes == 0 then 1 else data.nodes)
    ensures cfg.ops == match data.replay case Some(scenario) => scenario.ops case None => sampled
    ensures base == match data.network case Some(network) => network case None => NetworkModel(0, 0, Never, Never, true)
    ensures match data.faults
            case None => cfg.model == base && faults == []
            case Some(Faults(Scripted(events), _)) => cfg.model == base && faults == events
            case Some(Faults(Swarm(kinds), mode)) =>
              ModelIsLast(faultTape, kinds, base, cfg.model)
              && IsTimeline(faultTape, cfg.nodeCount, mode, kinds, faults)
  {
    var setup := Setup(data, def, codec, tape, faultTape, sampled);
    cfg, faults := setup.0, setup.1;
    base := match data.network case Some(network) => network case None => NetworkModel(0, 0, Never, Never, true);
    match data.faults
    case Some(Faults(Swarm(kinds), mode)) =>
      LoweredModel(faultTape, cfg.nodeCount, mode, base, kinds);
      LoweredTimeline(faultTape, cfg.nodeCount, mode, base, kinds);
    case _ =>
  }

  // ----- How long it runs -----

  /** The script that counts: the plan's own, or else that of the scenario it replays. */
  function ScriptOf(data: PlanData): Timeline {
    match (data.faults, data.replay)
    case (Some(Faults(Scripted(events), _)), _) => events
    case (None, Some(Scenario(_, Faults(Scripted(events), _)))) => events
    case _ => []
  }

  lemma {:induction false} LatestIsLast(events: Timeline, floor: nat)
    ensures forall e :: e in events ==> e.0 <= Latest(events, floor)
    ensures Latest(events, floor) == floor || exists e :: e in events && e.0 == Latest(events, floor)
    decreases |events|
  {
    if events == [] {
    } else {
      var init, last := events[..|events| - 1], events[|events| - 1];
      LatestIsLast(init, floor);
      assert last in events && events == init + [last];
      if e :| e in init && e.0 == Latest(init, floor) {
        assert e in events;
      }
    }
  }

  /** A run ends ten seconds after the last fault scripted, or after the first five seconds. */
  lemma HorizonIsTenPast(data: PlanData) returns (last: nat)
    ensures RunHorizon(data) == last + 10_000_000_000 && last >= 5_000_000_000
    ensures forall e :: e in ScriptOf(data) ==> e.0 <= last
    ensures last == 5_000_000_000 || exists e :: e in ScriptOf(data) && e.0 == last
  {
    last := RunHorizon(data) - 10_000_000_000;
    LatestIsLast(ScriptOf(data), 5_000_000_000);
  }
}
