/** The gate does not stall: between two rounds of the main loop, every process that still has ops to
    issue is waiting for one of its own (`pump_client_ops`, crates/propsim-sim/src/lib.rs). */
module Progress {
  import opened Ops
  import opened Engine
  import opened Gate
  import opened OpFlow

  ghost predicate BusyOrDone(w: World, p: nat) {
    p < |w.perProcess| == |w.scheduled| ==>
      w.perProcess[p] == [] || w.scheduled[p] == ClosedFor(w.core.history, p) + 1
  }

  lemma OneTurn(cfg: Config, w: World, p: nat)
    requires WorldGate(cfg, w, None)
    ensures BusyOrDone(PumpOne(w, p), p)
    ensures forall q :: BusyOrDone(w, q) && q != p ==> BusyOrDone(PumpOne(w, p), q)
  {
    var w' := PumpOne(w, p);
    if p < |w.scheduled| && w' != w {
      assert w.core.history[..|w.core.history|] == w.core.history;
      assert w.scheduled[p] == ClosedFor(w.core.history, p);
    }
  }

  lemma {:induction false} PumpLeavesNoneIdle(cfg: Config, w: World, upTo: nat)
    requires WorldGate(cfg, w, None)
    ensures forall p :: 0 <= p < upTo ==> BusyOrDone(Pump(w, upTo), p)
  {
    if upTo == 0 {
    } else {
      PumpGate(cfg, w, upTo - 1);
      PumpLeavesNoneIdle(cfg, w, upTo - 1);
      OneTurn(cfg, Pump(w, upTo - 1), upTo - 1);
    }
  }

  lemma RoundLeavesNoneIdle(cfg: Config, w: World)
    requires WorldGate(cfg, w, None) && Step(cfg, w).1
    ensures forall p :: 0 <= p < cfg.nodeCount ==> BusyOrDone(Step(cfg, w).0, p)
  {
    PopGate(cfg, w.core, w.scheduled);
    var (c, popped) := Pop(cfg, w.core);
    var w1 := w.(core := c);
    DispatchGate(cfg, w1, popped.value);
    var dispatched := Dispatch(cfg, w1, popped.value);
    var pumped := Pump(dispatched, cfg.nodeCount);
    PumpLeavesNoneIdle(cfg, dispatched, cfg.nodeCount);
    assert Step(cfg, w).0 == Snapshot(pumped);
    forall p | 0 <= p < cfg.nodeCount ensures BusyOrDone(Snapshot(pumped), p) {
      assert BusyOrDone(pumped, p);
    }
  }

  /** As long as the main loop goes on, a process with ops left has exactly one in flight. */
  lemma NobodyIdles(cfg: Config, faults: seq<(nat, FaultAction)>, n: nat, p: nat)
    requires p < cfg.nodeCount && Run(cfg, Init(cfg, faults), n).1
    ensures BusyOrDone(Run(cfg, Init(cfg, faults), n).0, p)
  {
    if n == 0 {
      BootGate(cfg, faults);
      StartAllGate(cfg, Boot(cfg, faults), cfg.nodeCount);
      PumpLeavesNoneIdle(cfg, Snapshot(StartAll(cfg, Boot(cfg, faults), cfg.nodeCount)), cfg.nodeCount);
    } else {
      RunGate(cfg, faults, n - 1);
      RoundLeavesNoneIdle(cfg, Run(cfg, Init(cfg, faults), n - 1).0);
    }
  }

  /** Conservation: what a process has issued, what it has in flight and what it has left are its part
      of the op stream, in order, at every moment of a run. */
  lemma StreamIsConserved(cfg: Config, faults: seq<(nat, FaultAction)>, n: nat, p: nat)
    requires p < cfg.nodeCount && Run(cfg, Init(cfg, faults), n).1
    ensures var w := Run(cfg, Init(cfg, faults), n).0;
            && p < |w.perProcess|
            && Stream(cfg, p)
            == Issued(w.core.history, p) + (Flying(cfg, w.core.queue, p) + Values(cfg, w.perProcess[p]))
  {
    RunFlow(cfg, faults, n);
    var w := Run(cfg, Init(cfg, faults), n).0;
    assert InHand(None, p) + Waiting(cfg, w.core.queue, w.perProcess[p], p)
        == Waiting(cfg, w.core.queue, w.perProcess[p], p);
  }

  /** Every op of the stream belongs to one process, the one of its number or what is left of that when the nodes are
      counted off, and each process has its ops in the order of the stream. */
  lemma {:induction false} OpsAreShared(cfg: Config, p: nat, upTo: nat)
    requires upTo <= |cfg.ops| && cfg.nodeCount > 0
    ensures var mine := Queued(cfg, p, upTo);
            && (forall i :: i in mine <==> 0 <= i < upTo && cfg.ops[i].process % cfg.nodeCount == p)
            && (forall j, k :: 0 <= j < k < |mine| ==> mine[j] < mine[k])
  {
    if upTo == 0 {
    } else {
      OpsAreShared(cfg, p, upTo - 1);
      var before := Queued(cfg, p, upTo - 1);
      assert forall j :: 0 <= j < |before| ==> before[j] in before;
    }
  }
}
