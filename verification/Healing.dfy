/** Injure, then heal: under a liveness swarm every crash and partition is undone, so from four
    virtual seconds on the network is whole and every node is up. */
module Healing {
  import opened Ops
  import opened Engine
  import opened Runs
  import opened Clock
  import opened Links
  import opened FaultPlan

  const HEALED: nat := 4 * SECONDS

  /** Fault `f` is undone later, before everything must be healed. */
  ghost predicate UndoneBy(f: (nat, FaultAction), g: (nat, FaultAction)) {
    && f.0 < g.0 < HEALED
    && match f.1
       case Crash(n) => g.1 == Restart(n)
       case Partition(_, _) => g.1 == HealAll
       case _ => true
  }

  ghost predicate Injures(f: (nat, FaultAction)) {
    f.1.Crash? || f.1.Partition?
  }

  /** A timeline on which every injury is undone. */
  ghost predicate Heals(faults: seq<(nat, FaultAction)>) {
    && (forall f :: f in faults ==> f.0 < HEALED)
    && (forall f :: f in faults && Injures(f) ==> exists g :: g in faults && UndoneBy(f, g))
  }

  /** A split of all nodes into two non-empty groups without overlap. */
  ghost predicate Splits(nodeCount: nat, left: seq<nat>, right: seq<nat>) {
    && left != [] && right != []
    && (forall n :: n in left ==> n !in right)
    && (forall n: nat :: n < nodeCount <==> n in left || n in right)
  }

  // ----- What lowering produces -----

  /** While kinds are lowered: crashes are undone already, partitions only once the heal is added. */
  ghost predicate HealsBut(nodeCount: nat, st: Lowering) {
    && (forall f :: f in st.faults ==> f.0 < HEALED)
    && (forall f :: f in st.faults && f.1.Crash? ==> exists g :: g in st.faults && UndoneBy(f, g))
    && (forall f :: f in st.faults && f.1.Partition? ==>
          f.0 < 2 * SECONDS && st.partitioned && Splits(nodeCount, f.1.left, f.1.right))
  }

  lemma CutSplits(nodeCount: nat, cut: nat)
    requires 1 <= cut < nodeCount
    ensures Splits(nodeCount, Nodes(0, cut), Nodes(cut, nodeCount))
  {
    var left, right := Nodes(0, cut), Nodes(cut, nodeCount);
    forall n: nat ensures n < nodeCount <==> n in left || n in right {
      if n < cut {
        assert left[n] == n;
      } else if n < nodeCount {
        assert right[n - cut] == n;
      }
    }
  }

  lemma CrashHeals(nodeCount: nat, st: Lowering, crash: (nat, FaultAction), restart: (nat, FaultAction), st': Lowering)
    requires HealsBut(nodeCount, st) && crash.1.Crash? && UndoneBy(crash, restart)
    requires st'.faults == st.faults + [crash] + [restart] && st'.partitioned == st.partitioned
    ensures HealsBut(nodeCount, st')
  {
    forall f | f in st'.faults && f.1.Crash? ensures exists g :: g in st'.faults && UndoneBy(f, g) {
      if f in st.faults {
        var g :| g in st.faults && UndoneBy(f, g);
        assert g in st'.faults;
      } else {
        assert restart in st'.faults && UndoneBy(f, restart);
      }
    }
  }

  lemma KindHeals(tape: nat -> u64, nodeCount: u64, st: Lowering, kind: FaultKind)
    requires HealsBut(nodeCount, st)
    ensures HealsBut(nodeCount, LowerKind(tape, nodeCount, Liveness, st, kind))
  {
    var st' := LowerKind(tape, nodeCount, Liveness, st, kind);
    match kind
    case Partitions =>
      if nodeCount >= 2 {
        var (cut, rng1) := Pick(tape, st.rng, 1, nodeCount);
        var (at, rng2) := Pick(tape, rng1, 100, 1000);
        CutSplits(nodeCount, cut);
        assert forall f :: f in st.faults ==> f in st'.faults;
      }
    case CrashRestart =>
      var (victim, rng1) := Pick(tape, st.rng, 0, if nodeCount < 1 then 1 else nodeCount);
      var (crashAt, rng2) := Pick(tape, rng1, 100, 1000);
      var (wait, rng3) := Pick(tape, rng2, 500, 2000);
      CrashHeals(nodeCount, st, (crashAt * MILLIS, Crash(victim)),
          (crashAt * MILLIS + wait * MILLIS, Restart(victim)), st');
    case _ =>
  }

  lemma {:induction false} KindsHeal(tape: nat -> u64, nodeCount: u64, st: Lowering, kinds: seq<FaultKind>)
    requires HealsBut(nodeCount, st)
    ensures HealsBut(nodeCount, LowerKinds(tape, nodeCount, Liveness, st, kinds))
  {
    if kinds == [] {
    } else {
      KindsHeal(tape, nodeCount, st, kinds[..|kinds| - 1]);
      KindHeals(tape, nodeCount, LowerKinds(tape, nodeCount, Liveness, st, kinds[..|kinds| - 1]), kinds[|kinds| - 1]);
    }
  }

  /** For every list of kinds, repeats included, and all draws: each injected partition splits all
      nodes in two, and every injury is undone before four seconds. */
  lemma LivenessSwarmHeals(tape: nat -> u64, nodeCount: u64, model: NetworkModel, kinds: seq<FaultKind>)
    ensures Heals(LowerSwarm(tape, nodeCount, Liveness, model, kinds).faults)
    ensures forall f :: f in LowerSwarm(tape, nodeCount, Liveness, model, kinds).faults && f.1.Partition? ==>
              Splits(nodeCount, f.1.left, f.1.right)
  {
    var st := LowerKinds(tape, nodeCount, Liveness, Lowering(model, [], |kinds|, false), Survivors(tape, 0, kinds));
    KindsHeal(tape, nodeCount, Lowering(model, [], |kinds|, false), Survivors(tape, 0, kinds));
    var faults := LowerSwarm(tape, nodeCount, Liveness, model, kinds).faults;
    forall f | f in faults && Injures(f) ensures exists g :: g in faults && UndoneBy(f, g) {
      if f.1.Crash? {
        var g :| g in st.faults && UndoneBy(f, g);
        assert g in faults;
      } else {
        var heal := faults[|faults| - 1];
        assert UndoneBy(f, heal);
      }
    }
  }

  // ----- What a run makes of it -----

  ghost predicate Mends(e: Scheduled, n: nat) {
    e.kind == Fault(Restart(n))
  }

  /** Every injury in force or still to come has its remedy on the queue, later than itself. */
  ghost predicate Mending(c: Core) {
    && (forall e :: e in c.queue && e.kind.Fault? ==> e.at < HEALED)
    && (forall n :: n in c.crashed ==> exists r :: r in c.queue && Mends(r, n))
    && (c.partitions != [] ==> exists r :: r in c.queue && r.kind == Fault(HealAll))
    && (forall e :: e in c.queue && e.kind.Fault? && e.kind.action.Crash? ==>
          exists r :: r in c.queue && Mends(r, e.kind.action.node) && e.at < r.at)
    && (forall e :: e in c.queue && e.kind.Fault? && e.kind.action.Partition? ==>
          exists r :: r in c.queue && r.kind == Fault(HealAll) && e.at < r.at)
  }

  lemma MoreQueued(c: Core, c': Core)
    requires Mending(c) && c'.crashed == c.crashed && c'.partitions == c.partitions
    requires forall e :: e in c.queue ==> e in c'.queue
    requires forall e :: e in c'.queue && e.kind.Fault? ==> e in c.queue
    ensures Mending(c')
  {
    forall n | n in c'.crashed ensures exists r :: r in c'.queue && Mends(r, n) {
      var r :| r in c.queue && Mends(r, n);
      assert r in c'.queue;
    }
    if c'.partitions != [] {
      var r :| r in c.queue && r.kind == Fault(HealAll);
      assert r in c'.queue;
    }
    forall e | e in c'.queue && e.kind.Fault? && e.kind.action.Crash?
      ensures exists r :: r in c'.queue && Mends(r, e.kind.action.node) && e.at < r.at
    {
      var r :| r in c.queue && Mends(r, e.kind.action.node) && e.at < r.at;
      assert r in c'.queue;
    }
    forall e | e in c'.queue && e.kind.Fault? && e.kind.action.Partition?
      ensures exists r :: r in c'.queue && r.kind == Fault(HealAll) && e.at < r.at
    {
      var r :| r in c.queue && r.kind == Fault(HealAll) && e.at < r.at;
      assert r in c'.queue;
    }
  }

  /** Remedies of injuries still queued outlast the head. */
  lemma QueuedMending(c: Core, c': Core, head: Scheduled)
    requires Mending(c) && head in c.queue
    requires forall e :: e in c'.queue <==> e in c.queue && e != head
    requires forall e :: e in c'.queue ==> Before(head, e)
    ensures forall e :: e in c'.queue && e.kind.Fault? && e.kind.action.Crash? ==>
              exists r :: r in c'.queue && Mends(r, e.kind.action.node) && e.at < r.at
    ensures forall e :: e in c'.queue && e.kind.Fault? && e.kind.action.Partition? ==>
              exists r :: r in c'.queue && r.kind == Fault(HealAll) && e.at < r.at
  {
    forall e | e in c'.queue && e.kind.Fault? && e.kind.action.Crash?
      ensures exists r :: r in c'.queue && Mends(r, e.kind.action.node) && e.at < r.at
    {
      var r :| r in c.queue && Mends(r, e.kind.action.node) && e.at < r.at;
      assert r in c'.queue;
    }
    forall e | e in c'.queue && e.kind.Fault? && e.kind.action.Partition?
      ensures exists r :: r in c'.queue && r.kind == Fault(HealAll) && e.at < r.at
    {
      var r :| r in c.queue && r.kind == Fault(HealAll) && e.at < r.at;
      assert r in c'.queue;
    }
  }

  /** Remedies of injuries in force after the head has acted. */
  lemma InForceMending(c: Core, d: Core, c': Core, head: Scheduled)
    requires Mending(c) && head in c.queue
    requires forall e :: e in c'.queue <==> e in c.queue && e != head
    requires d.crashed == c.crashed && d.partitions == c.partitions
    requires c'.crashed == (if head.kind.Fault? then Inject(d, head.kind.action).crashed else c.crashed)
    requires c'.partitions == (if head.kind.Fault? then Inject(d, head.kind.action).partitions else c.partitions)
    ensures forall n :: n in c'.crashed ==> exists r :: r in c'.queue && Mends(r, n)
    ensures c'.partitions != [] ==> exists r :: r in c'.queue && r.kind == Fault(HealAll)
  {
    forall n | n in c'.crashed ensures exists r :: r in c'.queue && Mends(r, n) {
      if head.kind == Fault(Crash(n)) {
        var r :| r in c.queue && Mends(r, n) && head.at < r.at;
        assert r in c'.queue;
      } else {
        assert n in c.crashed;
        var r :| r in c.queue && Mends(r, n);
        assert r in c'.queue;
      }
    }
    if c'.partitions == [] {
    } else {
      if head.kind.Fault? && head.kind.action.Partition? {
        var r :| r in c.queue && r.kind == Fault(HealAll) && head.at < r.at;
        assert r in c'.queue;
      } else {
        var r :| r in c.queue && r.kind == Fault(HealAll);
        assert r in c'.queue;
      }
    }
  }

  lemma TakeMends(cfg: Config, c: Core)
    requires Mending(c) && c.queue != [] && Ordered(c.queue) && cfg.horizon >= HEALED
    ensures Mending(TakeHead(cfg, c))
  {
    var head, c' := TakeRest(cfg, c);
    TakeShape(cfg, c, head, c');
    QueuedMending(c, c', head);
    if head.at < cfg.horizon {
      var d := c.(queue := c'.queue, now := head.at, log := c'.log);
      InForceMending(c, d, c', head);
    } else {
      InForceMending(c, c, c', head);
    }
  }

  /** Whenever an event due at four seconds or later is taken, nothing is broken. */
  ghost predicate HealedLog(log: seq<LogEvent>) {
    forall j, n: nat :: 0 <= j < |log| && log[j].Taken? && log[j].taken.at >= HEALED ==>
      !CrashedBy(log[..j], n) && GroupsBy(log[..j]) == []
  }

  ghost predicate HealingOk(cfg: Config, c: Core) {
    ClockOk(cfg, c) && NetworkOk(c) && Mending(c) && HealedLog(c.log)
  }

  lemma NothingBroken(c: Core)
    requires Mending(c) && NetworkOk(c) && forall e :: e in c.queue ==> e.at >= HEALED
    ensures c.partitions == [] && forall n :: n !in c.crashed
    ensures GroupsBy(c.log) == [] && forall n :: !CrashedBy(c.log, n)
  {
  }

  lemma HealedSnoc(log: seq<LogEvent>, note: LogEvent)
    requires HealedLog(log)
    requires note.Taken? && note.taken.at >= HEALED ==> GroupsBy(log) == [] && forall n :: !CrashedBy(log, n)
    ensures HealedLog(log + [note])
  {
    var log' := log + [note];
    forall j, n: nat | 0 <= j < |log'| && log'[j].Taken? && log'[j].taken.at >= HEALED
      ensures !CrashedBy(log'[..j], n) && GroupsBy(log'[..j]) == []
    {
      assert log'[..j] == log[..j];
      assert log[..|log|] == log;
    }
  }

  lemma TakeHealed(cfg: Config, c: Core)
    requires HealingOk(cfg, c) && c.queue != []
    ensures HealedLog(TakeHead(cfg, c).log)
  {
    var head, c' := TakeRest(cfg, c);
    TakeShape(cfg, c, head, c');
    if head.at < cfg.horizon {
      if head.at >= HEALED {
        assert forall e :: e in c.queue ==> e == head || e in c'.queue;
        NothingBroken(c);
      }
      HealedSnoc(c.log, Taken(head, Fires(cfg, c, head.kind)));
    }
  }

  lemma NoteHeals(c: Core, c': Core, note: LogEvent)
    requires NetworkOk(c) && HealedLog(c.log) && c'.log == c.log + [note] && !note.Taken?
    requires c'.crashed == c.crashed && c'.partitions == c.partitions
    ensures NetworkOk(c') && HealedLog(c'.log)
  {
    QuietNote(c, c', note);
    HealedSnoc(c.log, note);
  }

  lemma QuietQueue(cfg: Config, c: Core, m: Move)
    requires Enabled(cfg, c, m) && !m.Taking?
    ensures var c' := Apply(cfg, c, m);
            && c'.crashed == c.crashed && c'.partitions == c.partitions
            && (forall e :: e in c.queue ==> e in c'.queue)
            && (forall e :: e in c'.queue && e.kind.Fault? ==> e in c.queue)
  {
  }

  lemma QuietMove(cfg: Config, c: Core, m: Move)
    requires HealingOk(cfg, c) && Enabled(cfg, c, m) && !m.Taking?
    ensures NetworkOk(Apply(cfg, c, m)) && Mending(Apply(cfg, c, m)) && HealedLog(Apply(cfg, c, m).log)
  {
    var c' := Apply(cfg, c, m);
    QuietQueue(cfg, c, m);
    MoreQueued(c, c');
    if m.Transmitting? || m.Arming? || m.Disarming? {
      var note :| c'.log == c.log + [note] && !note.Taken?;
      NoteHeals(c, c', note);
    } else {
      assert c'.log == c.log;
    }
  }

  lemma MoveHeals(cfg: Config, c: Core, m: Move)
    requires HealingOk(cfg, c) && Enabled(cfg, c, m) && cfg.horizon >= HEALED
    ensures HealingOk(cfg, Apply(cfg, c, m))
  {
    var c' := Apply(cfg, c, m);
    assert ClockOk(cfg, c') by {
      MoveOk(cfg, c, m);
    }
    if m.Taking? {
      TakeNetwork(cfg, c);
      TakeMends(cfg, c);
      TakeHealed(cfg, c);
    } else {
      QuietMove(cfg, c, m);
    }
  }

  lemma KeepsHealing(cfg: Config)
    requires cfg.horizon >= HEALED
    ensures KeptByMoves(cfg, c => HealingOk(cfg, c))
  {
    forall c, m {:trigger Apply(cfg, c, m)} | HealingOk(cfg, c) && Enabled(cfg, c, m)
      ensures HealingOk(cfg, Apply(cfg, c, m)) {
      MoveHeals(cfg, c, m);
    }
  }

  lemma {:induction false} ScheduledAs(c: Core, faults: seq<(nat, FaultAction)>)
    ensures forall e :: e in ScheduleFaults(c, faults).queue ==>
              e in c.queue || exists f :: f in faults && e.at == f.0 && e.kind == Fault(f.1)
    ensures forall e :: e in c.queue ==> e in ScheduleFaults(c, faults).queue
    ensures forall f :: f in faults ==>
            exists e :: e in ScheduleFaults(c, faults).queue && e.at == f.0 && e.kind == Fault(f.1)
    decreases |faults|
  {
    if faults == [] {
    } else {
      var c1 := Enqueue(c, faults[0].0, Fault(faults[0].1));
      ScheduledAs(c1, faults[1..]);
      var e0 := Scheduled(faults[0].0, c.seqNo, Fault(faults[0].1));
      assert c1.queue == c.queue + [e0] && e0 in c1.queue;
    }
  }

  lemma Remedy(faults: seq<(nat, FaultAction)>, c: Core, e: Scheduled) returns (r: Scheduled)
    requires Heals(faults) && c == ScheduleFaults(NewCore(), faults)
    requires e in c.queue && e.kind.Fault? && (e.kind.action.Crash? || e.kind.action.Partition?)
    ensures r in c.queue && e.at < r.at
    ensures r.kind == if e.kind.action.Crash? then Fault(Restart(e.kind.action.node)) else Fault(HealAll)
  {
    ScheduledAs(NewCore(), faults);
    var f :| f in faults && e.at == f.0 && e.kind == Fault(f.1);
    assert Injures(f);
    var g :| g in faults && UndoneBy(f, g);
    r :| r in c.queue && r.at == g.0 && r.kind == Fault(g.1);
  }

  lemma BootMends(faults: seq<(nat, FaultAction)>)
    requires Heals(faults)
    ensures Mending(ScheduleFaults(NewCore(), faults))
  {
    var c := ScheduleFaults(NewCore(), faults);
    ScheduledAs(NewCore(), faults);
    FaultsOnlyQueue(NewCore(), faults);
    forall e | e in c.queue && e.kind.Fault? && e.kind.action.Crash?
      ensures exists r :: r in c.queue && Mends(r, e.kind.action.node) && e.at < r.at
    {
      var r := Remedy(faults, c, e);
    }
    forall e | e in c.queue && e.kind.Fault? && e.kind.action.Partition?
      ensures exists r :: r in c.queue && r.kind == Fault(HealAll) && e.at < r.at
    {
      var r := Remedy(faults, c, e);
    }
  }

  /** On a timeline that heals, whenever an event due at four seconds or later is taken, no node
      is down and no partition is in force: at every such event, in every run. */
  lemma HealedFromFourSeconds(cfg: Config, faults: seq<(nat, FaultAction)>, n: nat)
    requires cfg.nodeCount > 0 && cfg.horizon >= HEALED && Heals(faults)
    ensures HealedLog(Run(cfg, Init(cfg, faults), n).0.core.log)
  {
    BootMends(faults);
    ScheduledFaultsOk(cfg, NewCore(), faults);
    FaultsOnlyQueue(NewCore(), faults);
    KeepsHealing(cfg);
    RunKeeps(cfg, faults, n, c => HealingOk(cfg, c));
  }

  /** The same for a plan with a liveness swarm, whatever its kinds, workload, nodes and seeds. */
  lemma LivenessPlansHeal(
    data: PlanData, kinds: seq<FaultKind>, def: NodeDef, codec: Option<Codec>, tape: nat -> u64, faultTape: nat -> u64,
    sampled: seq<FrozenOp>, n: nat)
    requires data.faults == Some(Faults(Swarm(kinds), Liveness))
    ensures var (cfg, faults) := Setup(data, def, codec, tape, faultTape, sampled);
            HealedLog(Run(cfg, Init(cfg, faults), n).0.core.log)
  {
    var (cfg, faults) := Setup(data, def, codec, tape, faultTape, sampled);
    var nodeCount := if data.nodes < 1 then 1 else data.nodes;
    LivenessSwarmHeals(faultTape, nodeCount, if data.network.Some? then data.network.value else ORDERED_RELIABLE,
        kinds);
    HealedFromFourSeconds(cfg, faults, n);
  }
}
