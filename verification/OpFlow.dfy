/** Where each client op is: the ops of a process are issued in order, so what was issued, what is
    in flight and what is still queued always add up to the process's part of the op stream. */
module OpFlow {
  import opened Ops
  import opened Engine
  import opened Runs
  import opened Gate

  /** The payloads `p` has issued, in order. */
  function Issued(h: seq<OpEntry>, p: nat): seq<Value> {
    if h == [] then []
    else
      var e := h[|h| - 1];
      Issued(h[..|h| - 1], p) + (if e.kind.Invoke? && e.process == p then [e.value] else [])
  }

  function OpAt(cfg: Config, index: nat): Value {
    if index < |cfg.ops| then cfg.ops[index].op else Nil
  }

  /** The payloads of `p` that are scheduled but not issued yet. */
  function Flying(cfg: Config, q: seq<Scheduled>, p: nat): seq<Value> {
    if q == [] then []
    else
      var e := q[|q| - 1];
      Flying(cfg, q[..|q| - 1], p) + (if e.kind.Issue? && e.kind.process == p then [OpAt(cfg, e.kind.index)] else [])
  }

  function Values(cfg: Config, indices: seq<nat>): (v: seq<Value>)
    ensures |v| == |indices|
  {
    seq(|indices|, i requires 0 <= i < |indices| => OpAt(cfg, indices[i]))
  }

  /** The part of the op stream that belongs to `p`. */
  function Stream(cfg: Config, p: nat): seq<Value>
    requires cfg.nodeCount > 0
  {
    Values(cfg, Queued(cfg, p, |cfg.ops|))
  }

  /** The payloads of `p` that are still to be issued. */
  function Waiting(cfg: Config, q: seq<Scheduled>, indices: seq<nat>, p: nat): seq<Value> {
    Flying(cfg, q, p) + Values(cfg, indices)
  }

  /** The op just taken off the queue, if it belongs to `p`. */
  function InHand(hand: Option<(nat, Value)>, p: nat): seq<Value> {
    if hand.Some? && hand.value.0 == p then [hand.value.1] else []
  }

  ghost predicate FlowOk(cfg: Config, c: Core, perProcess: seq<seq<nat>>, hand: Option<(nat, Value)>)
    requires cfg.nodeCount > 0
  {
    && (forall i :: 0 <= i < |c.history| && c.history[i].kind.Invoke? ==> c.history[i].process < cfg.nodeCount)
    && (forall p :: 0 <= p < |perProcess| ==>
          Issued(c.history, p) + (InHand(hand, p) + Waiting(cfg, c.queue, perProcess[p], p)) == Stream(cfg, p))
  }

  ghost predicate Assigned(cfg: Config, index: nat, p: nat) {
    cfg.nodeCount > 0 && index < |cfg.ops| && cfg.ops[index].process % cfg.nodeCount == p
  }

  ghost predicate WorldFlow(cfg: Config, w: World, hand: Option<(nat, Value)>) {
    && WorldGate(cfg, w, if hand.Some? then Some(hand.value.0) else None)
    && FlowOk(cfg, w.core, w.perProcess, hand)
    && (forall p, k :: 0 <= p < |w.perProcess| && 0 <= k < |w.perProcess[p]| ==> Assigned(cfg, w.perProcess[p][k], p))
  }

  lemma IssuedSnoc(h: seq<OpEntry>, e: OpEntry, p: nat)
    ensures Issued(h + [e], p) == Issued(h, p) + (if e.kind.Invoke? && e.process == p then [e.value] else [])
  {
    assert (h + [e])[..|h|] == h;
  }

  lemma FlyingSnoc(cfg: Config, q: seq<Scheduled>, e: Scheduled, p: nat)
    ensures Flying(cfg, q + [e], p)
         == Flying(cfg, q, p) + (if e.kind.Issue? && e.kind.process == p then [OpAt(cfg, e.kind.index)] else [])
  {
    assert (q + [e])[..|q|] == q;
  }

  lemma {:induction false} FlyingCount(cfg: Config, q: seq<Scheduled>, p: nat)
    ensures |Flying(cfg, q, p)| == InFlight(q, p)
  {
    if q == [] {
    } else {
      FlyingCount(cfg, q[..|q| - 1], p);
    }
  }

  lemma {:induction false} IssuedCount(h: seq<OpEntry>, p: nat)
    ensures |Issued(h, p)| == Opened(h, p)
  {
    if h == [] {
    } else {
      IssuedCount(h[..|h| - 1], p);
    }
  }

  /** One op between two parts may go to the front if it is alone or nothing. */
  lemma OwnFirst(before: seq<Value>, own: seq<Value>, after: seq<Value>)
    requires own == [] || |before + own + after| == |own|
    ensures before + own + after == own + (before + after)
  {
    if own == [] {
      assert before + own == before;
    } else {
      assert before == [] && after == [];
    }
  }

  lemma {:induction false} FlyingSplit(cfg: Config, a: seq<Scheduled>, b: seq<Scheduled>, p: nat)
    ensures Flying(cfg, a + b, p) == Flying(cfg, a, p) + Flying(cfg, b, p)
    decreases |b|
  {
    if b == [] {
      assert a + b == a;
    } else {
      var last := |b| - 1;
      assert a + b == (a + b[..last]) + [b[last]];
      FlyingSplit(cfg, a, b[..last], p);
      FlyingSnoc(cfg, a + b[..last], b[last], p);
    }
  }

  lemma FlyingParts(cfg: Config, before: seq<Scheduled>, e: Scheduled, after: seq<Scheduled>, p: nat)
    ensures Flying(cfg, before + [e] + after, p)
         == Flying(cfg, before, p) + (if e.kind.Issue? && e.kind.process == p then [OpAt(cfg, e.kind.index)] else [])
            + Flying(cfg, after, p)
  {
    FlyingSplit(cfg, before + [e], after, p);
    FlyingSnoc(cfg, before, e, p);
  }

  /** Removing an event takes its payload out, and leaves the others in order. */
  lemma {:induction false} FlyingWithout(cfg: Config, q: seq<Scheduled>, i: nat, p: nat)
    requires i < |q|
    requires q[i].kind.Issue? && q[i].kind.process == p ==> InFlight(q, p) == 1
    ensures Flying(cfg, q, p)
         == (if q[i].kind.Issue? && q[i].kind.process == p then [OpAt(cfg, q[i].kind.index)] else [])
            + Flying(cfg, Without(q, i), p)
  {
    var own := if q[i].kind.Issue? && q[i].kind.process == p then [OpAt(cfg, q[i].kind.index)] else [];
    FlyingParts(cfg, q[..i], q[i], q[i + 1..], p);
    assert q == q[..i] + [q[i]] + q[i + 1..];
    FlyingSplit(cfg, q[..i], q[i + 1..], p);
    FlyingCount(cfg, q, p);
    OwnFirst(Flying(cfg, q[..i], p), own, Flying(cfg, q[i + 1..], p));
  }

  // ----- Effects and opening -----

  lemma SameFlow(cfg: Config, c: Core, c': Core, perProcess: seq<seq<nat>>, hand: Option<(nat, Value)>)
    requires cfg.nodeCount > 0 && FlowOk(cfg, c, perProcess, hand)
    requires c'.history == c.history && forall p: nat :: Flying(cfg, c'.queue, p) == Flying(cfg, c.queue, p)
    ensures FlowOk(cfg, c', perProcess, hand)
  {
  }

  lemma FlyingUnchanged(cfg: Config, q: seq<Scheduled>, e: Scheduled)
    requires !e.kind.Issue?
    ensures forall p: nat :: Flying(cfg, q + [e], p) == Flying(cfg, q, p)
  {
    forall p: nat ensures Flying(cfg, q + [e], p) == Flying(cfg, q, p) {
      FlyingSnoc(cfg, q, e, p);
    }
  }

  lemma CloseFlow(cfg: Config, c: Core, token: nat, kind: OpKind, value: Value, perProcess: seq<seq<nat>>,
      hand: Option<(nat, Value)>)
    requires cfg.nodeCount > 0 && FlowOk(cfg, c, perProcess, hand) && !kind.Invoke?
    ensures FlowOk(cfg, CloseOp(c, token, kind, value), perProcess, hand)
  {
    if token in c.pending {
      var c' := CloseOp(c, token, kind, value);
      var e := c'.history[|c.history|];
      assert c'.history == c.history + [e];
      forall p: nat ensures Issued(c'.history, p) == Issued(c.history, p) {
        IssuedSnoc(c.history, e, p);
      }
    }
  }

  lemma OpenFlow(cfg: Config, c: Core, process: nat, f: string, value: Value, perProcess: seq<seq<nat>>)
    requires cfg.nodeCount > 0 && process < cfg.nodeCount && FlowOk(cfg, c, perProcess, Some((process, value)))
    ensures FlowOk(cfg, OpenOp(c, process, f, value), perProcess, None)
  {
    var c' := OpenOp(c, process, f, value);
    var e := c'.history[|c.history|];
    assert c'.history == c.history + [e];
    forall p | 0 <= p < |perProcess|
      ensures Issued(c'.history, p) + (InHand(None, p) + Waiting(cfg, c'.queue, perProcess[p], p)) == Stream(cfg, p)
    {
      IssuedSnoc(c.history, e, p);
      var i, h, r := Issued(c.history, p), InHand(Some((process, value)), p), Waiting(cfg, c.queue, perProcess[p], p);
      assert Issued(c'.history, p) == i + h;
      assert i + (h + r) == (i + h) + r;
      assert InHand(None, p) + r == r;
    }
  }

  lemma EffectFlow(cfg: Config, c: Core, m: Move, perProcess: seq<seq<nat>>, hand: Option<(nat, Value)>)
    requires cfg.nodeCount > 0 && FlowOk(cfg, c, perProcess, hand) && Enabled(cfg, c, m) && IsEffect(m)
    ensures FlowOk(cfg, Apply(cfg, c, m), perProcess, hand)
  {
    var c' := Apply(cfg, c, m);
    match m
    case Closing(token, kind, value) => CloseFlow(cfg, c, token, kind, value, perProcess, hand);
    case Transmitting(from, to, msg, delay, dup) =>
      var e := c'.log[|c.log|].sent;
      FlyingUnchanged(cfg, c.queue, e);
      if dup {
        var e2 := e.(seqNo := c.seqNo + 1);
        FlyingUnchanged(cfg, c.queue + [e], e2);
        assert c'.queue == c.queue + [e] + [e2];
      } else {
        assert c'.queue == c.queue + [e];
      }
      SameFlow(cfg, c, c', perProcess, hand);
    case Arming(node, timer, after) =>
      FlyingUnchanged(cfg, c.queue, c'.queue[|c.queue|]);
      assert c'.queue == c.queue + [c'.queue[|c.queue|]];
      SameFlow(cfg, c, c', perProcess, hand);
    case _ => SameFlow(cfg, c, c', perProcess, hand);
  }

  lemma EffectsKeepFlow(cfg: Config, perProcess: seq<seq<nat>>, hand: Option<(nat, Value)>)
    requires cfg.nodeCount > 0
    ensures KeptByEffects(cfg, c => FlowOk(cfg, c, perProcess, hand))
  {
    forall c, m {:trigger Apply(cfg, c, m)} | FlowOk(cfg, c, perProcess, hand) && Enabled(cfg, c, m) && IsEffect(m)
      ensures FlowOk(cfg, Apply(cfg, c, m), perProcess, hand)
    {
      EffectFlow(cfg, c, m, perProcess, hand);
    }
  }

  // ----- One iteration -----

  function OpInHand(cfg: Config, kind: EventKind): Option<(nat, Value)> {
    if kind.Issue? then Some((kind.process, OpAt(cfg, kind.index))) else None
  }

  lemma TakeWaiting(cfg: Config, c: Core, m: nat, scheduled: seq<nat>, indices: seq<nat>, p: nat)
    requires GateOk(cfg, c, scheduled, None) && p < |scheduled| && m < |c.queue|
    ensures InHand(None, p) + Waiting(cfg, c.queue, indices, p)
         == InHand(OpInHand(cfg, c.queue[m].kind), p) + Waiting(cfg, Without(c.queue, m), indices, p)
  {
    FlightWithout(c.queue, m, p);
    assert scheduled[p] <= ClosedFor(c.history, p) + 1;
    FlyingWithout(cfg, c.queue, m, p);
  }

  lemma TakeFlow(cfg: Config, c: Core, head: Scheduled, c': Core, scheduled: seq<nat>, perProcess: seq<seq<nat>>)
    requires cfg.nodeCount > 0 && |scheduled| == |perProcess|
    requires GateOk(cfg, c, scheduled, None) && FlowOk(cfg, c, perProcess, None) && c.queue != []
    requires head == c.queue[MinIndex(c.queue)] && c' == TakeHead(cfg, c)
    ensures FlowOk(cfg, c', perProcess, OpInHand(cfg, head.kind))
  {
    TakeShape(cfg, c, head, c');
    var m := MinIndex(c.queue);
    assert c'.queue == Without(c.queue, m);
    forall p | 0 <= p < |perProcess|
      ensures InHand(None, p) + Waiting(cfg, c.queue, perProcess[p], p)
           == InHand(OpInHand(cfg, head.kind), p) + Waiting(cfg, c'.queue, perProcess[p], p)
    {
      TakeWaiting(cfg, c, m, scheduled, perProcess[p], p);
    }
  }

  lemma {:induction false} PopFlow(cfg: Config, c: Core, scheduled: seq<nat>, perProcess: seq<seq<nat>>)
    requires cfg.nodeCount > 0 && |scheduled| == |perProcess|
    requires GateOk(cfg, c, scheduled, None) && FlowOk(cfg, c, perProcess, None)
    ensures Pop(cfg, c).1.Some? ==> FlowOk(cfg, Pop(cfg, c).0, perProcess, OpInHand(cfg, Pop(cfg, c).1.value))
    decreases |c.queue|
  {
    if c.queue == [] {
    } else {
      var head, c1 := c.queue[MinIndex(c.queue)], TakeHead(cfg, c);
      if head.at < cfg.horizon {
        TakeFlow(cfg, c, head, c1, scheduled, perProcess);
        TakeGate(cfg, c, head, c1, scheduled);
        if Fires(cfg, c, head.kind) {
          EffectsKeepFlow(cfg, perProcess, OpInHand(cfg, head.kind));
          CloseAllKeeps(cfg, c1, Victims(c1, head.kind), d => FlowOk(cfg, d, perProcess, OpInHand(cfg, head.kind)));
        } else {
          PopFlow(cfg, c1, scheduled, perProcess);
        }
      }
    }
  }

  lemma ClientOpFlow(cfg: Config, w: World, process: nat, op: FrozenOp)
    requires WorldFlow(cfg, w, Some((process, op.op))) && process < cfg.nodeCount
    ensures FlowOk(cfg, DispatchClientOp(cfg, w, process, op).core, w.perProcess, None)
  {
    EffectsKeepFlow(cfg, w.perProcess, None);
    var inv := c => FlowOk(cfg, c, w.perProcess, None);
    var target := Target(op, process, |w.nodes|);
    var token := w.core.nextToken;
    var decoded := if cfg.codec.Some? then cfg.codec.value.decode(op.op) else None;
    match decoded
    case None =>
      OpenFlow(cfg, w.core, process, OpFunction(op.op), op.op, w.perProcess);
      CloseFlow(cfg, OpenOp(w.core, process, OpFunction(op.op), op.op), token, Fail, Nil, w.perProcess, None);
    case Some((f, clientOp)) =>
      OpenFlow(cfg, w.core, process, f, op.op, w.perProcess);
      var c := OpenOp(w.core, process, f, op.op);
      var cb := cfg.def.onClientOp(target, c.now, clientOp, token, w.nodes[target]);
      ExecKeeps(cfg, c, target, cb, inv);
      var (c1, result) := Exec(cfg, c, target, cb);
      if result.1.Done? {
        CloseFlow(cfg, c1, token, Ok, cfg.codec.value.encode(f, result.1.response), w.perProcess, None);
      }
  }

  lemma DispatchFlow(cfg: Config, w: World, kind: EventKind)
    requires WorldFlow(cfg, w, OpInHand(cfg, kind))
    requires kind.Issue? ==> kind.process < cfg.nodeCount && kind.index < |cfg.ops|
    ensures WorldFlow(cfg, Dispatch(cfg, w, kind), None)
  {
    DispatchGate(cfg, w, kind);
    EffectsKeepFlow(cfg, w.perProcess, None);
    var inv := c => FlowOk(cfg, c, w.perProcess, None);
    match kind
    case Deliver(from, to, msg) =>
      if to < |w.nodes| {
        ExecKeeps(cfg, w.core, to, cfg.def.onMsg(to, w.core.now, from, msg, w.nodes[to]), inv);
      }
    case Fire(node, timer, _) =>
      if node < |w.nodes| {
        ExecKeeps(cfg, w.core, node, cfg.def.onTimer(node, w.core.now, timer, w.nodes[node]), inv);
      }
    case Issue(process, index) => ClientOpFlow(cfg, w, process, cfg.ops[index]);
    case Fault(action) =>
      if action.Restart? {
        StartKeeps(cfg, w, action.node, inv);
      }
  }

  /** Moving an index from the queue of ops to the queue of events changes nothing about what waits. */
  lemma PumpedWaiting(cfg: Config, q: seq<Scheduled>, e: Scheduled, indices: seq<nat>, p: nat, r: nat)
    requires indices != [] && e.kind == Issue(p, indices[0])
    ensures r == p ==> Waiting(cfg, q + [e], indices[1..], p) == Waiting(cfg, q, indices, p)
    ensures r != p ==> Flying(cfg, q + [e], r) == Flying(cfg, q, r)
  {
    FlyingSnoc(cfg, q, e, r);
    if r == p {
      assert Values(cfg, indices) == [OpAt(cfg, indices[0])] + Values(cfg, indices[1..]);
    }
  }

  lemma PumpOneFlow(cfg: Config, w: World, p: nat)
    requires WorldFlow(cfg, w, None)
    ensures WorldFlow(cfg, PumpOne(w, p), None)
  {
    PumpOneGate(cfg, w, p);
    var w' := PumpOne(w, p);
    if w' != w {
      forall q | 0 <= q < |w'.perProcess|
        ensures Waiting(cfg, w'.core.queue, w'.perProcess[q], q) == Waiting(cfg, w.core.queue, w.perProcess[q], q)
      {
        PumpedWaiting(cfg, w.core.queue, w'.core.queue[|w.core.queue|], w.perProcess[p], p, q);
        assert w'.core.queue == w.core.queue + [w'.core.queue[|w.core.queue|]];
      }
    }
  }

  lemma {:induction false} PumpFlow(cfg: Config, w: World, upTo: nat)
    requires WorldFlow(cfg, w, None)
    ensures WorldFlow(cfg, Pump(w, upTo), None)
  {
    if upTo == 0 {
    } else {
      PumpFlow(cfg, w, upTo - 1);
      PumpOneFlow(cfg, Pump(w, upTo - 1), upTo - 1);
    }
  }

  lemma StepFlow(cfg: Config, w: World)
    requires WorldFlow(cfg, w, None) && Step(cfg, w).1
    ensures WorldFlow(cfg, Step(cfg, w).0, None)
  {
    PopGate(cfg, w.core, w.scheduled);
    PopFlow(cfg, w.core, w.scheduled, w.perProcess);
    var (c, popped) := Pop(cfg, w.core);
    var w1 := w.(core := c);
    DispatchFlow(cfg, w1, popped.value);
    PumpFlow(cfg, Dispatch(cfg, w1, popped.value), cfg.nodeCount);
  }

  // ----- Whole runs -----

  lemma {:induction false} QueuedAssigned(cfg: Config, p: nat, upTo: nat)
    requires upTo <= |cfg.ops| && cfg.nodeCount > 0
    ensures forall k :: 0 <= k < |Queued(cfg, p, upTo)| ==> Assigned(cfg, Queued(cfg, p, upTo)[k], p)
  {
    if upTo == 0 {
    } else {
      QueuedAssigned(cfg, p, upTo - 1);
    }
  }

  lemma {:induction false} FaultsNotFlying(cfg: Config, c: Core, faults: seq<(nat, FaultAction)>)
    requires forall p: nat :: Flying(cfg, c.queue, p) == []
    ensures forall p: nat :: Flying(cfg, ScheduleFaults(c, faults).queue, p) == []
    decreases |faults|
  {
    if faults == [] {
    } else {
      FlyingUnchanged(cfg, c.queue, Scheduled(faults[0].0, c.seqNo, Fault(faults[0].1)));
      FaultsNotFlying(cfg, Enqueue(c, faults[0].0, Fault(faults[0].1)), faults[1..]);
    }
  }

  lemma BootFlow(cfg: Config, faults: seq<(nat, FaultAction)>)
    requires cfg.nodeCount > 0
    ensures WorldFlow(cfg, Boot(cfg, faults), None)
  {
    BootGate(cfg, faults);
    FaultsOnlyQueue(NewCore(), faults);
    FaultsNotFlying(cfg, NewCore(), faults);
    var w := Boot(cfg, faults);
    forall p, k | 0 <= p < |w.perProcess| && 0 <= k < |w.perProcess[p]| ensures Assigned(cfg, w.perProcess[p][k], p) {
      QueuedAssigned(cfg, p, |cfg.ops|);
    }
  }

  lemma StartFlow(cfg: Config, w: World, id: nat) returns (w': World)
    requires WorldFlow(cfg, w, None)
    ensures w' == DispatchStart(cfg, w, id)
    ensures WorldFlow(cfg, w', None)
    ensures w'.perProcess == w.perProcess && w'.scheduled == w.scheduled
  {
    w' := DispatchStart(cfg, w, id);
    assert w'.perProcess == w.perProcess && w'.scheduled == w.scheduled && |w'.nodes| == |w.nodes|;
    assert GateOk(cfg, w'.core, w.scheduled, None) by {
      EffectsKeepGate(cfg, w.scheduled, None);
      StartKeeps(cfg, w, id, c => GateOk(cfg, c, w.scheduled, None));
    }
    assert FlowOk(cfg, w'.core, w.perProcess, None) by {
      EffectsKeepFlow(cfg, w.perProcess, None);
      StartKeeps(cfg, w, id, c => FlowOk(cfg, c, w.perProcess, None));
    }
  }

  lemma {:induction false} StartAllFlow(cfg: Config, w: World, upTo: nat)
    requires WorldFlow(cfg, w, None)
    ensures WorldFlow(cfg, StartAll(cfg, w, upTo), None)
    ensures StartAll(cfg, w, upTo).perProcess == w.perProcess && StartAll(cfg, w, upTo).scheduled == w.scheduled
  {
    if upTo == 0 {
    } else {
      StartAllFlow(cfg, w, upTo - 1);
      var w' := StartFlow(cfg, StartAll(cfg, w, upTo - 1), upTo - 1);
      assert StartAll(cfg, w, upTo) == w';
    }
  }

  lemma {:induction false} RunFlow(cfg: Config, faults: seq<(nat, FaultAction)>, n: nat)
    requires cfg.nodeCount > 0 && Run(cfg, Init(cfg, faults), n).1
    ensures WorldFlow(cfg, Run(cfg, Init(cfg, faults), n).0, None)
  {
    if n == 0 {
      BootFlow(cfg, faults);
      StartAllFlow(cfg, Boot(cfg, faults), cfg.nodeCount);
      PumpFlow(cfg, Snapshot(StartAll(cfg, Boot(cfg, faults), cfg.nodeCount)), cfg.nodeCount);
    } else {
      RunFlow(cfg, faults, n - 1);
      StepFlow(cfg, Run(cfg, Init(cfg, faults), n - 1).0);
    }
  }
}
