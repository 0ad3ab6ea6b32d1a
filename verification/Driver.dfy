/** The driver loop as it is written (`run_deterministic`, `pump_client_ops` and the dispatch helpers
    of crates/propsim-sim/src/lib.rs), on top of the mutable scheduler. */
module Driver {
  import opened Ops
  import opened Engine
  import opened Scheduler

  lemma ScheduleFaultsSnoc(c: Core, faults: seq<(nat, FaultAction)>, f: (nat, FaultAction))
    ensures ScheduleFaults(c, faults + [f]) == Engine.Enqueue(ScheduleFaults(c, faults), f.0, Fault(f.1))
    decreases |faults|
  {
    if faults == [] {
      assert ([] + [f])[1..] == [];
    } else {
      assert (faults + [f])[1..] == faults[1..] + [f];
      ScheduleFaultsSnoc(Engine.Enqueue(c, faults[0].0, Fault(faults[0].1)), faults[1..], f);
    }
  }

  /** A loop that has stopped does nothing more. */
  lemma {:induction false} StoppedStays(cfg: Config, w: World, i: nat, n: nat)
    requires i <= n
    requires i == n || !Run(cfg, w, i).1
    ensures Run(cfg, w, n) == Run(cfg, w, i)
    decreases n
  {
    if i == n {
    } else {
      StoppedStays(cfg, w, i, n - 1);
    }
  }

  class Deterministic {
    const cfg: Config
    const core: SchedCore
    var nodes: seq<NodeState>
    var perProcess: seq<seq<nat>>
    var scheduled: seq<nat>
    var frames: seq<(nat, seq<NodeState>)>

    ghost predicate Valid()
      reads this
    {
      core.cfg == cfg && |nodes| == |perProcess| == |scheduled| == cfg.nodeCount > 0
    }

    ghost function View(): World
      reads this, core
    {
      World(core.View(), nodes, perProcess, scheduled, frames)
    }

    constructor (cfg: Config, faults: seq<(nat, FaultAction)>)
      requires cfg.nodeCount > 0
      ensures Valid() && fresh(core) && this.cfg == cfg
      ensures View() == Boot(cfg, faults)
    {
      this.cfg := cfg;
      var c := new SchedCore(cfg);
      for i := 0 to |faults|
        invariant c.View() == ScheduleFaults(NewCore(), faults[..i])
      {
        ScheduleFaultsSnoc(NewCore(), faults[..i], faults[i]);
        assert faults[..i + 1] == faults[..i] + [faults[i]];
        c.Enqueue(faults[i].0, Fault(faults[i].1));
      }
      assert faults[..|faults|] == faults;
      core := c;
      nodes := seq(cfg.nodeCount, _ => cfg.def.default);
      perProcess := seq(cfg.nodeCount, _ => []);
      scheduled := seq(cfg.nodeCount, _ => 0);
      frames := [];
      new;
      GroupOps();
      assert nodes == Boot(cfg, faults).nodes && scheduled == Boot(cfg, faults).scheduled;
    }

    /** Sort the ops by process. */
    method GroupOps()
      requires Valid() && perProcess == seq(cfg.nodeCount, _ => [])
      modifies this`perProcess
      ensures Valid() && perProcess == seq(cfg.nodeCount, p requires 0 <= p => Queued(cfg, p, |cfg.ops|))
    {
      for i := 0 to |cfg.ops|
        invariant Valid()
        invariant forall p: nat :: p < cfg.nodeCount ==> perProcess[p] == Queued(cfg, p, i)
      {
        var p := cfg.ops[i].process % cfg.nodeCount;
        perProcess := perProcess[p := perProcess[p] + [i]];
      }
    }

    // ----- Dispatch -----

    method RunNode(id: nat, callback: Callback<NodeState>)
      requires Valid() && id < |nodes|
      modifies this`nodes, core
      ensures Valid() && View() == Engine.RunNode(cfg, old(View()), id, callback)
    {
      var state := core.RunCallback(id, callback);
      nodes := nodes[id := state];
    }

    method DispatchStart(id: nat)
      requires Valid()
      modifies this`nodes, core
      ensures Valid() && View() == Engine.DispatchStart(cfg, old(View()), id)
    {
      if id < |nodes| {
        RunNode(id, cfg.def.onStart(id, core.now, nodes[id]));
      }
    }

    method DispatchClientOp(process: nat, op: FrozenOp)
      requires Valid()
      modifies this`nodes, core
      ensures Valid() && View() == Engine.DispatchClientOp(cfg, old(View()), process, op)
    {
      var target := if op.route.Some? then op.route.value % |nodes| else process % |nodes|;
      var decoded := if cfg.codec.Some? then cfg.codec.value.decode(op.op) else None;
      if decoded == None {
        var token := core.OpenOp(process, OpFunction(op.op), op.op);
        core.CloseOp(token, Fail, Nil);
        return;
      }
      var (f, clientOp) := decoded.value;
      var token := core.OpenOp(process, f, op.op);
      var result := core.RunCallback(target, cfg.def.onClientOp(target, core.now, clientOp, token, nodes[target]));
      nodes := nodes[target := result.0];
      match result.1 {
        case Done(response) => core.CloseOp(token, Ok, cfg.codec.value.encode(f, response));
        case Pending =>
      }
    }

    method Dispatch(kind: EventKind)
      requires Valid()
      modifies this`nodes, core
      ensures Valid() && View() == Engine.Dispatch(cfg, old(View()), kind)
    {
      match kind {
        case Deliver(from, to, msg) =>
          if to < |nodes| {
            RunNode(to, cfg.def.onMsg(to, core.now, from, msg, nodes[to]));
          }
        case Fire(node, timer, _) =>
          if node < |nodes| {
            RunNode(node, cfg.def.onTimer(node, core.now, timer, nodes[node]));
          }
        case Issue(process, index) =>
          if index < |cfg.ops| {
            DispatchClientOp(process, cfg.ops[index]);
          }
        case Fault(action) =>
          if action.Restart? {
            DispatchStart(action.node);
          }
      }
    }

    // ----- Issuing client ops -----

    /** `pump_client_ops`: the next op of every process none of whose ops is in flight. */
    method Pump()
      requires Valid()
      modifies this`perProcess, this`scheduled, core
      ensures Valid() && View() == Engine.Pump(old(View()), cfg.nodeCount)
    {
      for p := 0 to cfg.nodeCount
        invariant Valid() && View() == Engine.Pump(old(View()), p)
      {
        var closed := ClosedFor(core.history, p);
        if scheduled[p] > closed {
          continue;
        }
        if perProcess[p] != [] {
          var index := perProcess[p][0];
          perProcess := perProcess[p := perProcess[p][1..]];
          scheduled := scheduled[p := scheduled[p] + 1];
          core.Enqueue(core.now + MILLIS, Issue(p, index));
        }
      }
    }

    method Snapshot()
      requires Valid()
      modifies this`frames
      ensures Valid() && View() == Engine.Snapshot(old(View()))
    {
      frames := frames + [(core.now, nodes)];
    }

    // ----- The run -----

    method Start()
      requires Valid()
      modifies this, core
      ensures Valid()
      ensures View() == Engine.Pump(Engine.Snapshot(StartAll(cfg, old(View()), cfg.nodeCount)), cfg.nodeCount)
    {
      for id := 0 to cfg.nodeCount
        invariant Valid() && View() == StartAll(cfg, old(View()), id)
      {
        DispatchStart(id);
      }
      Snapshot();
      Pump();
    }

    /** One round of the main loop, unless nothing is left to do. */
    method Turn() returns (more: bool)
      requires Valid()
      modifies this, core
      ensures Valid() && (View(), more) == Step(cfg, old(View()))
    {
      var next := core.Pop();
      if next == None {
        return false;
      }
      Dispatch(next.value);
      Pump();
      Snapshot();
      more := true;
    }

    /** The main loop, for at most this many rounds. */
    method Loop(rounds: nat) returns (running: bool)
      requires Valid()
      modifies this, core
      ensures Valid() && (View(), running) == Run(cfg, old(View()), rounds)
    {
      running := true;
      var i := 0;
      while running && i < rounds
        invariant Valid() && i <= rounds
        invariant (View(), running) == Run(cfg, old(View()), i)
        decreases rounds - i
      {
        running := Turn();
        i := i + 1;
      }
      StoppedStays(cfg, old(View()), i, rounds);
    }
  }

  lemma {:induction false} EventsStay(c: Core, tokens: seq<nat>)
    ensures CloseAll(c, tokens).events == c.events
    decreases |tokens|
  {
    if tokens == [] {
    } else {
      EventsStay(CloseOp(c, tokens[0], Info, Nil), tokens[1..]);
    }
  }

  lemma CloseAllEvents(c: Core)
    ensures ForceClosePending(c).events == c.events
  {
    EventsStay(c, PendingTokens(c.pending, c.nextToken, None));
  }

  /** `run_deterministic`, stopped after `rounds` rounds of its main loop unless it stopped by itself. */
  method RunDeterministic(cfg: Config, faults: seq<(nat, FaultAction)>, rounds: nat)
    returns (history: seq<OpEntry>, frames: seq<(nat, seq<NodeState>)>, events: seq<RunEvent>, running: bool)
    requires cfg.nodeCount > 0
    ensures var (w, going) := Run(cfg, Init(cfg, faults), rounds);
            && running == going
            && history == Finish(w).core.history
            && frames == w.frames
            && events == w.core.events
  {
    var d := new Deterministic(cfg, faults);
    d.Start();
    running := d.Loop(rounds);
    CloseAllEvents(d.core.View());
    d.core.ForceClosePending();
    history, frames, events := d.core.history, d.frames, d.core.events;
  }
}
