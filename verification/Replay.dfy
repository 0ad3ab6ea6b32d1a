/** Replaying a run. The op stream recovered from a completed run's history (`collect_ops`) leaves
    out the ops that were never issued, forgets routes and renumbers the rest, and yet drives the
    engine through the same run. */
module Replay {
  import opened Ops
  import opened Spans
  import opened Engine
  import opened Runs
  import opened Clock
  import opened Gate
  import opened OpFlow
  import opened Views
  import opened DoomedOps
  import opened Earliest

  /** `collect_ops`: one op per recorded invoke, with no route. */
  function CollectOps(h: seq<OpEntry>): seq<FrozenOp> {
    if h == [] then []
    else
      var e := h[|h| - 1];
      CollectOps(h[..|h| - 1]) + (if e.kind.Invoke? then [FrozenOp(e.process, None, e.value)] else [])
  }

  /** An op's route, if any, leads where its process would have led anyway. */
  predicate RouteIsDefault(op: FrozenOp, nodeCount: nat)
    requires nodeCount > 0
  {
    op.route.Some? ==> op.route.value % nodeCount == op.process % nodeCount
  }

  /** No op the horizon leaves time for is routed elsewhere. */
  ghost predicate RoutesOk(cfg: Config) {
    && cfg.nodeCount > 0
    && forall i :: 0 <= i < |cfg.ops| && Reachable(cfg, i) ==> RouteIsDefault(cfg.ops[i], cfg.nodeCount)
  }

  /** No op at all is. */
  ghost predicate DefaultRoutes(cfg: Config) {
    cfg.nodeCount > 0 && forall i :: 0 <= i < |cfg.ops| ==> RouteIsDefault(cfg.ops[i], cfg.nodeCount)
  }

  lemma SmallMod(p: nat, n: nat)
    requires p < n
    ensures p % n == p
  {
  }

  /** The recovered op reaches the node the original reached exactly when the route was absent or
      congruent to the process: what `collect_ops` forgets matters in every other case. */
  lemma RouteForgotten(op: FrozenOp, nodeCount: nat, p: nat)
    requires nodeCount > 0 && p == op.process % nodeCount
    ensures Target(FrozenOp(p, None, op.op), p, nodeCount) == Target(op, p, nodeCount) <==>
            RouteIsDefault(op, nodeCount)
  {
    SmallMod(p, nodeCount);
  }

  lemma AssignedTarget(cfg: Config, index: nat, p: nat)
    requires Assigned(cfg, index, p) && RouteIsDefault(cfg.ops[index], cfg.nodeCount)
    ensures Target(cfg.ops[index], p, cfg.nodeCount) == p
    ensures SeeKind(cfg, Issue(p, index)) == Op(p, OpAt(cfg, index), p)
  {
    SmallMod(p, cfg.nodeCount);
  }

  // ----- The recovered stream -----

  lemma {:induction false} CollectSnoc(h: seq<OpEntry>, e: OpEntry)
    ensures CollectOps(h + [e]) == CollectOps(h) + (if e.kind.Invoke? then [FrozenOp(e.process, None, e.value)] else [])
  {
    assert (h + [e])[..|h|] == h;
  }

  lemma {:induction false} CollectedRoutes(h: seq<OpEntry>)
    ensures forall i :: 0 <= i < |CollectOps(h)| ==> CollectOps(h)[i].route.None?
  {
    if h == [] {
    } else {
      CollectedRoutes(h[..|h| - 1]);
    }
  }

  lemma ValuesSnoc(cfg: Config, indices: seq<nat>, i: nat)
    ensures Values(cfg, indices + [i]) == Values(cfg, indices) + [OpAt(cfg, i)]
  {
  }

  lemma QueuedSnoc(cfg: Config, p: nat, n: nat, process: nat)
    requires n < |cfg.ops| && process < cfg.nodeCount && cfg.ops[n].process == process
    ensures Values(cfg, Queued(cfg, p, n + 1)) ==
            Values(cfg, Queued(cfg, p, n)) + (if process == p then [cfg.ops[n].op] else [])
  {
    SmallMod(process, cfg.nodeCount);
    ValuesSnoc(cfg, Queued(cfg, p, n), n);
  }

  lemma CollectedStep(cfg: Config, h: seq<OpEntry>, e: OpEntry, p: nat)
    requires cfg.nodeCount > 0 && p < cfg.nodeCount && e.kind.Invoke? && e.process < cfg.nodeCount
    requires CollectOps(h + [e]) <= cfg.ops
    requires Values(cfg, Queued(cfg, p, |CollectOps(h)|)) == Issued(h, p)
    ensures Values(cfg, Queued(cfg, p, |CollectOps(h + [e])|)) == Issued(h + [e], p)
  {
    CollectSnoc(h, e);
    assert (h + [e])[..|h|] == h;
    assert cfg.ops[|CollectOps(h)|] == CollectOps(h + [e])[|CollectOps(h)|];
    QueuedSnoc(cfg, p, |CollectOps(h)|, e.process);
  }

  /** Grouping a collected stream by process gives what each process issued. */
  lemma {:induction false} CollectedStream(cfg: Config, h: seq<OpEntry>, p: nat)
    requires cfg.nodeCount > 0 && p < cfg.nodeCount
    requires forall i :: 0 <= i < |h| && h[i].kind.Invoke? ==> h[i].process < cfg.nodeCount
    requires CollectOps(h) <= cfg.ops
    ensures Values(cfg, Queued(cfg, p, |CollectOps(h)|)) == Issued(h, p)
  {
    if h == [] {
    } else {
      var h0 := h[..|h| - 1];
      CollectedStream(cfg, h0, p);
      if h[|h| - 1].kind.Invoke? {
        CollectedStep(cfg, h0, h[|h| - 1], p);
        assert h == h0 + [h[|h| - 1]];
      }
    }
  }

  // ----- The simulation -----

  /** How the replay's queue for `p` relates to the original's, when `p` issues `total` ops in all. */
  ghost predicate ProcessMirrors(cfg: Config, a: World, cfg': Config, b: World, p: nat, total: nat)
    requires p < |a.scheduled| && p < |a.perProcess| && p < |b.scheduled| && p < |b.perProcess|
  {
    && b.scheduled[p] == Live(cfg, a, p)
    && |b.perProcess[p]| + Live(cfg, a, p) == total
    && Values(cfg', b.perProcess[p]) <= Values(cfg, a.perProcess[p])
    && (HasDoomed(cfg, a.core.queue, p) ==> b.perProcess[p] == [])
  }

  ghost predicate Mirrors(cfg: Config, a: World, cfg': Config, b: World, totals: seq<nat>) {
    && Alike(cfg, a.core, cfg', b.core)
    && a.nodes == b.nodes
    && a.frames == b.frames
    && |a.scheduled| == |a.perProcess| == |b.scheduled| == |b.perProcess| == |totals| == cfg.nodeCount
    && forall p :: 0 <= p < cfg.nodeCount ==> ProcessMirrors(cfg, a, cfg', b, p, totals[p])
  }

  /** The original does not end up short of, or beyond, what it issues in all. */
  ghost predicate OnCourse(cfg: Config, w: World, totals: seq<nat>) {
    && |w.scheduled| == |totals| == cfg.nodeCount
    && forall p :: 0 <= p < cfg.nodeCount ==>
         && Live(cfg, w, p) <= totals[p]
         && (HasDoomed(cfg, w.core.queue, p) ==> Live(cfg, w, p) == totals[p])
  }

  lemma EnqueueDoomed(cfg: Config, a: Core, a': Core, cfg': Config, b: Core, at: nat, kind: EventKind)
    requires Alike(cfg, a, cfg', b) && kind.Issue? && at >= cfg.horizon && a' == Enqueue(a, at, kind)
    ensures Alike(cfg, a', cfg', b)
  {
    ViewSnoc(cfg, a.queue, Scheduled(at, a.seqNo, kind));
    SnocOrdered(a.queue, Scheduled(at, a.seqNo, kind));
  }

  lemma EnqueuedDoomed(cfg: Config, c: Core, at: nat, p: nat, index: nat)
    ensures HasDoomed(cfg, Enqueue(c, at, Issue(p, index)).queue, p) <==>
            HasDoomed(cfg, c.queue, p) || at >= cfg.horizon
  {
    var e := Scheduled(at, c.seqNo, Issue(p, index));
    var q' := c.queue + [e];
    if HasDoomed(cfg, c.queue, p) {
      var x :| x in c.queue && Doomed(cfg, x) && x.kind.process == p;
      assert x in q';
    }
    if at >= cfg.horizon {
      assert e in q';
    }
  }

  /** When the original schedules an op, the replay schedules one too, unless the op is doomed. */
  lemma PumpsTogether(cfg: Config, a: World, cfg': Config, b: World, p: nat, totals: seq<nat>) returns (doomed: bool)
    requires SameSetup(cfg, cfg') && p < cfg.nodeCount
    requires WorldFlow(cfg, a, None) && WorldFlow(cfg', b, None) && Mirrors(cfg, a, cfg', b, totals)
    requires PumpOne(a, p) != a && !HasDoomed(cfg, a.core.queue, p)
    requires Live(cfg, PumpOne(a, p), p) <= totals[p]
    requires HasDoomed(cfg, PumpOne(a, p).core.queue, p) ==> Live(cfg, PumpOne(a, p), p) == totals[p]
    ensures a.perProcess[p] != [] && b.core.now == a.core.now
    ensures doomed <==> a.core.now + MILLIS >= cfg.horizon
    ensures HasDoomed(cfg, PumpOne(a, p).core.queue, p) <==> doomed
    ensures doomed ==> b.perProcess[p] == [] && PumpOne(b, p) == b
    ensures !doomed ==> b.perProcess[p] != [] && PumpOne(b, p) != b
  {
    SameRest(a.core, b.core);
    assert ProcessMirrors(cfg, a, cfg', b, p, totals[p]);
    doomed := a.core.now + MILLIS >= cfg.horizon;
    EnqueuedDoomed(cfg, a.core, a.core.now + MILLIS, p, a.perProcess[p][0]);
  }

  lemma SameHead(cfg: Config, s: seq<nat>, cfg': Config, t: seq<nat>, p: nat)
    requires SameSetup(cfg, cfg') && DefaultRoutes(cfg')
    requires s != [] && t != [] && Values(cfg', t) <= Values(cfg, s)
    requires Assigned(cfg, s[0], p) && Assigned(cfg', t[0], p) && RouteIsDefault(cfg.ops[s[0]], cfg.nodeCount)
    ensures SeeKind(cfg, Issue(p, s[0])) == SeeKind(cfg', Issue(p, t[0]))
  {
    assert Values(cfg', t)[0] == Values(cfg, s)[0];
    AssignedTarget(cfg, s[0], p);
    AssignedTarget(cfg', t[0], p);
  }

  lemma EnqueuedAlike(cfg: Config, a: Core, c: Core, cfg': Config, b: Core, d: Core, at: nat, kind: EventKind,
      kind': EventKind)
    requires SameSetup(cfg, cfg') && Alike(cfg, a, cfg', b) && kind.Issue? && kind'.Issue?
    requires SeeKind(cfg, kind) == SeeKind(cfg', kind')
    requires c == Enqueue(a, at, kind) && d == Enqueue(b, at, kind')
    ensures Alike(cfg, c, cfg', d)
  {
    EnqueueAlike(cfg, a, cfg', b, at, kind, kind');
  }

  /** Both sides schedule the same op. */
  lemma IssuedMirrors(cfg: Config, a: World, c: Core, cfg': Config, b: World, d: Core, p: nat)
    requires SameSetup(cfg, cfg') && RoutesOk(cfg) && DefaultRoutes(cfg') && p < cfg.nodeCount
    requires WorldFlow(cfg, a, None) && WorldFlow(cfg', b, None) && Alike(cfg, a.core, cfg', b.core)
    requires OnTime(cfg, a) && a.scheduled[p] <= ClosedFor(a.core.history, p) && a.core.now + MILLIS < cfg.horizon
    requires a.perProcess[p] != [] && b.perProcess[p] != [] &&
            Values(cfg', b.perProcess[p]) <= Values(cfg, a.perProcess[p])
    requires c == Enqueue(a.core, a.core.now + MILLIS, Issue(p, a.perProcess[p][0]))
    requires d == Enqueue(b.core, b.core.now + MILLIS, Issue(p, b.perProcess[p][0]))
    ensures Alike(cfg, c, cfg', d)
  {
    SameRest(a.core, b.core);
    NextIsReachable(cfg, a, p);
    SameHead(cfg, a.perProcess[p], cfg', b.perProcess[p], p);
    EnqueuedAlike(cfg, a.core, c, cfg', b.core, d, a.core.now + MILLIS, Issue(p, a.perProcess[p][0]),
        Issue(p, b.perProcess[p][0]));
  }

  lemma PumpedCore(w: World, p: nat)
    requires PumpOne(w, p) != w
    ensures p < |w.perProcess| && p < |w.scheduled| && w.perProcess[p] != []
    ensures w.scheduled[p] <= ClosedFor(w.core.history, p)
    ensures PumpOne(w, p).core == Enqueue(w.core, w.core.now + MILLIS, Issue(p, w.perProcess[p][0]))
  {
  }

  lemma PumpedAlike(cfg: Config, a: World, cfg': Config, b: World, p: nat, totals: seq<nat>) returns (c: Core, d: Core)
    requires SameSetup(cfg, cfg') && RoutesOk(cfg) && DefaultRoutes(cfg') && p < cfg.nodeCount
    requires OnTime(cfg, a)
    requires WorldFlow(cfg, a, None) && WorldFlow(cfg', b, None) && Mirrors(cfg, a, cfg', b, totals)
    requires PumpOne(a, p) != a && !HasDoomed(cfg, a.core.queue, p)
    requires Live(cfg, PumpOne(a, p), p) <= totals[p]
    requires HasDoomed(cfg, PumpOne(a, p).core.queue, p) ==> Live(cfg, PumpOne(a, p), p) == totals[p]
    ensures c == PumpOne(a, p).core && d == PumpOne(b, p).core && Alike(cfg, c, cfg', d)
  {
    var doomed := PumpsTogether(cfg, a, cfg', b, p, totals);
    c, d := PumpOne(a, p).core, PumpOne(b, p).core;
    PumpedCore(a, p);
    if doomed {
      EnqueueDoomed(cfg, a.core, c, cfg', b.core, a.core.now + MILLIS, Issue(p, a.perProcess[p][0]));
    } else {
      PumpedCore(b, p);
      assert ProcessMirrors(cfg, a, cfg', b, p, totals[p]);
      IssuedMirrors(cfg, a, c, cfg', b, d, p);
    }
  }

  lemma TailValues(cfg: Config, s: seq<nat>, cfg': Config, t: seq<nat>)
    requires s != [] && t != [] && Values(cfg', t) <= Values(cfg, s)
    ensures Values(cfg', t[1..]) <= Values(cfg, s[1..])
  {
    assert Values(cfg, s[1..]) == Values(cfg, s)[1..];
    assert Values(cfg', t[1..]) == Values(cfg', t)[1..];
  }

  lemma PumpedProcess(cfg: Config, a: World, cfg': Config, b: World, p: nat, totals: seq<nat>)
    requires SameSetup(cfg, cfg') && RoutesOk(cfg) && DefaultRoutes(cfg') && p < cfg.nodeCount
    requires WorldFlow(cfg, a, None) && WorldFlow(cfg', b, None) && Mirrors(cfg, a, cfg', b, totals)
    requires PumpOne(a, p) != a && !HasDoomed(cfg, a.core.queue, p)
    requires Live(cfg, PumpOne(a, p), p) <= totals[p]
    requires HasDoomed(cfg, PumpOne(a, p).core.queue, p) ==> Live(cfg, PumpOne(a, p), p) == totals[p]
    ensures PumpOne(b, p).nodes == b.nodes && PumpOne(b, p).frames == b.frames
    ensures |PumpOne(b, p).scheduled| == |b.scheduled| && |PumpOne(b, p).perProcess| == |b.perProcess|
    ensures ProcessMirrors(cfg, PumpOne(a, p), cfg', PumpOne(b, p), p, totals[p])
  {
    var doomed := PumpsTogether(cfg, a, cfg', b, p, totals);
    assert ProcessMirrors(cfg, a, cfg', b, p, totals[p]);
    if !doomed {
      TailValues(cfg, a.perProcess[p], cfg', b.perProcess[p]);
    }
  }

  /** One process's turn at the pump. */
  lemma PumpOneMirrors(cfg: Config, a: World, cfg': Config, b: World, p: nat, totals: seq<nat>)
    requires SameSetup(cfg, cfg') && RoutesOk(cfg) && DefaultRoutes(cfg') && p < cfg.nodeCount
    requires OnTime(cfg, a)
    requires WorldFlow(cfg, a, None) && WorldFlow(cfg', b, None) && Mirrors(cfg, a, cfg', b, totals)
    requires Live(cfg, PumpOne(a, p), p) <= totals[p]
    requires HasDoomed(cfg, PumpOne(a, p).core.queue, p) ==> Live(cfg, PumpOne(a, p), p) == totals[p]
    ensures Mirrors(cfg, PumpOne(a, p), cfg', PumpOne(b, p), totals)
  {
    SameRest(a.core, b.core);
    PumpOneHere(cfg, a, p);
    assert ProcessMirrors(cfg, a, cfg', b, p, totals[p]);
    var a', b' := PumpOne(a, p), PumpOne(b, p);
    forall q | 0 <= q < cfg.nodeCount && q != p ensures ProcessMirrors(cfg, a', cfg', b', q, totals[q]) {
      assert ProcessMirrors(cfg, a, cfg', b, q, totals[q]);
      PumpOneElsewhere(cfg, a, p, q);
    }
    if a' != a {
      var c, d := PumpedAlike(cfg, a, cfg', b, p, totals);
      PumpedProcess(cfg, a, cfg', b, p, totals);
    } else {
      assert b.perProcess[p] != [] ==> a.perProcess[p] != [];
      assert b' == b;
    }
  }

  lemma {:induction false} PumpMirrors(cfg: Config, a: World, cfg': Config, b: World, upTo: nat, totals: seq<nat>)
    requires SameSetup(cfg, cfg') && RoutesOk(cfg) && DefaultRoutes(cfg') && upTo <= cfg.nodeCount
    requires OnTime(cfg, a)
    requires WorldFlow(cfg, a, None) && WorldFlow(cfg', b, None) && Mirrors(cfg, a, cfg', b, totals)
    requires OnCourse(cfg, Pump(a, cfg.nodeCount), totals)
    ensures Mirrors(cfg, Pump(a, upTo), cfg', Pump(b, upTo), totals)
  {
    if upTo == 0 {
    } else {
      var p := upTo - 1;
      PumpMirrors(cfg, a, cfg', b, p, totals);
      PumpFlow(cfg, a, p);
      PumpFlow(cfg', b, p);
      PumpOnTime(cfg, a, p);
      PumpAfter(cfg, a, cfg.nodeCount, p, Pump(a, cfg.nodeCount), Pump(a, upTo));
      PumpOneMirrors(cfg, Pump(a, p), cfg', Pump(b, p), p, totals);
      PumpLast(a, upTo);
      PumpLast(b, upTo);
    }
  }

  // ----- Dispatch -----

  lemma NodeAlike(cfg: Config, a: World, cfg': Config, b: World, id: nat, cb: Callback<NodeState>)
    requires SameSetup(cfg, cfg') && Alike(cfg, a.core, cfg', b.core) && a.nodes == b.nodes && id < |a.nodes|
    ensures Alike(cfg, RunNode(cfg, a, id, cb).core, cfg', RunNode(cfg', b, id, cb).core)
    ensures RunNode(cfg, a, id, cb).nodes == RunNode(cfg', b, id, cb).nodes
  {
    ExecAlike(cfg, a.core, cfg', b.core, id, cb);
  }

  lemma OpenRest(c: Core, process: nat, f: string, value: Value)
    ensures Rest(OpenOp(c, process, f, value)) == OpenOp(Rest(c), process, f, value)
    ensures OpenOp(c, process, f, value).queue == c.queue && OpenOp(c, process, f, value).seqNo == c.seqNo
  {
  }

  lemma OpenAlike(cfg: Config, a: Core, cfg': Config, b: Core, process: nat, f: string, value: Value)
    requires Alike(cfg, a, cfg', b)
    ensures Alike(cfg, OpenOp(a, process, f, value), cfg', OpenOp(b, process, f, value))
  {
    OpenRest(a, process, f, value);
    OpenRest(b, process, f, value);
    RestAlike(cfg, a, cfg', b, OpenOp(a, process, f, value), OpenOp(b, process, f, value));
  }

  lemma ClientOpAlike(cfg: Config, a: World, cfg': Config, b: World, process: nat, op: FrozenOp, op': FrozenOp)
    requires SameSetup(cfg, cfg') && Alike(cfg, a.core, cfg', b.core) && a.nodes == b.nodes && |a.nodes| > 0
    requires op.op == op'.op && Target(op, process, |a.nodes|) == Target(op', process, |a.nodes|)
    ensures Alike(cfg, DispatchClientOp(cfg, a, process, op).core, cfg', DispatchClientOp(cfg', b, process, op').core)
    ensures DispatchClientOp(cfg, a, process, op).nodes == DispatchClientOp(cfg', b, process, op').nodes
  {
    SameRest(a.core, b.core);
    var target := Target(op, process, |a.nodes|);
    var token := a.core.nextToken;
    var decoded := if cfg.codec.Some? then cfg.codec.value.decode(op.op) else None;
    match decoded
    case None =>
      OpenAlike(cfg, a.core, cfg', b.core, process, OpFunction(op.op), op.op);
      CloseAlike(cfg, OpenOp(a.core, process, OpFunction(op.op), op.op),
                 cfg', OpenOp(b.core, process, OpFunction(op.op), op.op), token, Fail, Nil);
    case Some((f, clientOp)) =>
      OpenAlike(cfg, a.core, cfg', b.core, process, f, op.op);
      var c, d := OpenOp(a.core, process, f, op.op), OpenOp(b.core, process, f, op.op);
      var cb := cfg.def.onClientOp(target, c.now, clientOp, token, a.nodes[target]);
      ExecAlike(cfg, c, cfg', d, target, cb);
      var (c1, result) := Exec(cfg, c, target, cb);
      var (d1, _) := Exec(cfg', d, target, cb);
      if result.1.Done? {
        CloseAlike(cfg, c1, cfg', d1, token, Ok, cfg.codec.value.encode(f, result.1.response));
      }
  }

  lemma DispatchAlike(cfg: Config, a: World, cfg': Config, b: World, kind: EventKind, kind': EventKind)
    requires SameSetup(cfg, cfg') && Alike(cfg, a.core, cfg', b.core) && a.nodes == b.nodes
    requires |a.nodes| == cfg.nodeCount > 0
    requires SeeKind(cfg, kind) == SeeKind(cfg', kind') && (kind.Issue? ==> kind.index < |cfg.ops|)
    ensures Alike(cfg, Dispatch(cfg, a, kind).core, cfg', Dispatch(cfg', b, kind').core)
    ensures Dispatch(cfg, a, kind).nodes == Dispatch(cfg', b, kind').nodes
  {
    SeenKinds(cfg, cfg', kind, kind');
    SameRest(a.core, b.core);
    match kind
    case Deliver(from, to, msg) =>
      if to < |a.nodes| {
        NodeAlike(cfg, a, cfg', b, to, cfg.def.onMsg(to, a.core.now, from, msg, a.nodes[to]));
      }
    case Fire(node, timer, _) =>
      if node < |a.nodes| {
        NodeAlike(cfg, a, cfg', b, node, cfg.def.onTimer(node, a.core.now, timer, a.nodes[node]));
      }
    case Issue(process, index) =>
      ClientOpAlike(cfg, a, cfg', b, process, cfg.ops[index], cfg'.ops[kind'.index]);
    case Fault(action) =>
      if action.Restart? && action.node < |a.nodes| {
        NodeAlike(cfg, a, cfg', b, action.node, cfg.def.onStart(action.node, a.core.now, a.nodes[action.node]));
      }
  }

  /** A change that leaves queues of ops alone keeps the processes in step. */
  lemma StillMirrors(cfg: Config, a: World, cfg': Config, b: World, a': World, b': World, totals: seq<nat>)
    requires Mirrors(cfg, a, cfg', b, totals)
    requires Alike(cfg, a'.core, cfg', b'.core) && a'.nodes == b'.nodes && a'.frames == b'.frames
    requires a'.scheduled == a.scheduled && a'.perProcess == a.perProcess
    requires b'.scheduled == b.scheduled && b'.perProcess == b.perProcess
    requires SameDoomed(cfg, a.core.queue, a'.core.queue)
    ensures Mirrors(cfg, a', cfg', b', totals)
  {
    forall p | 0 <= p < cfg.nodeCount ensures ProcessMirrors(cfg, a', cfg', b', p, totals[p]) {
      assert ProcessMirrors(cfg, a, cfg', b, p, totals[p]);
      SameDoomedHas(cfg, a.core.queue, a'.core.queue, p);
    }
  }

  lemma PopWorldFlow(cfg: Config, w: World)
    requires WorldFlow(cfg, w, None) && Pop(cfg, w.core).1.Some?
    ensures WorldFlow(cfg, w.(core := Pop(cfg, w.core).0), OpInHand(cfg, Pop(cfg, w.core).1.value))
    ensures var kind := Pop(cfg, w.core).1.value;
            kind.Issue? ==> kind.process < cfg.nodeCount && kind.index < |cfg.ops|
  {
    PopGate(cfg, w.core, w.scheduled);
    PopFlow(cfg, w.core, w.scheduled, w.perProcess);
  }

  lemma PopMirrors(cfg: Config, a: World, cfg': Config, b: World, totals: seq<nat>)
    returns (kind: EventKind, kind': EventKind, a1: World, b1: World)
    requires SameSetup(cfg, cfg')
    requires WorldFlow(cfg, a, None) && WorldFlow(cfg', b, None) && Mirrors(cfg, a, cfg', b, totals)
    requires Pop(cfg, a.core).1.Some?
    ensures Pop(cfg, a.core) == (a1.core, Some(kind)) && a1 == a.(core := a1.core)
    ensures Pop(cfg', b.core) == (b1.core, Some(kind')) && b1 == b.(core := b1.core)
    ensures WorldFlow(cfg, a1, OpInHand(cfg, kind)) && WorldFlow(cfg', b1, OpInHand(cfg', kind'))
    ensures Mirrors(cfg, a1, cfg', b1, totals) && SeeKind(cfg, kind) == SeeKind(cfg', kind')
    ensures kind.Issue? ==> kind.process < cfg.nodeCount && kind.index < |cfg.ops|
  {
    PopAlike(cfg, a.core, cfg', b.core);
    kind, kind' := Pop(cfg, a.core).1.value, Pop(cfg', b.core).1.value;
    a1, b1 := a.(core := Pop(cfg, a.core).0), b.(core := Pop(cfg', b.core).0);
    PopDoomed(cfg, a.core);
    StillMirrors(cfg, a, cfg', b, a1, b1, totals);
    PopWorldFlow(cfg, a);
    PopWorldFlow(cfg', b);
  }

  lemma DispatchMirrors(cfg: Config, a: World, cfg': Config, b: World, kind: EventKind, kind': EventKind,
      totals: seq<nat>)
    requires SameSetup(cfg, cfg')
    requires WorldFlow(cfg, a, OpInHand(cfg, kind)) && WorldFlow(cfg', b, OpInHand(cfg', kind'))
    requires Mirrors(cfg, a, cfg', b, totals) && SeeKind(cfg, kind) == SeeKind(cfg', kind')
    requires kind.Issue? ==> kind.process < cfg.nodeCount && kind.index < |cfg.ops|
    ensures WorldFlow(cfg, Dispatch(cfg, a, kind), None) && WorldFlow(cfg', Dispatch(cfg', b, kind'), None)
    ensures Mirrors(cfg, Dispatch(cfg, a, kind), cfg', Dispatch(cfg', b, kind'), totals)
  {
    SeenKinds(cfg, cfg', kind, kind');
    DispatchAlike(cfg, a, cfg', b, kind, kind');
    DispatchDoomed(cfg, a, kind);
    DispatchDoomed(cfg', b, kind');
    StillMirrors(cfg, a, cfg', b, Dispatch(cfg, a, kind), Dispatch(cfg', b, kind'), totals);
    DispatchFlow(cfg, a, kind);
    DispatchFlow(cfg', b, kind');
  }

  lemma SnapshotMirrors(cfg: Config, a: World, cfg': Config, b: World, totals: seq<nat>)
    requires Mirrors(cfg, a, cfg', b, totals)
    ensures Mirrors(cfg, Snapshot(a), cfg', Snapshot(b), totals)
  {
    SameRest(a.core, b.core);
    StillMirrors(cfg, a, cfg', b, Snapshot(a), Snapshot(b), totals);
  }

  /** One iteration of the main loop on both sides. */
  lemma StepMirrors(cfg: Config, a: World, a': World, cfg': Config, b: World, totals: seq<nat>) returns (b': World)
    requires SameSetup(cfg, cfg') && RoutesOk(cfg) && DefaultRoutes(cfg')
    requires Punctual(cfg, a)
    requires WorldFlow(cfg, a, None) && WorldFlow(cfg', b, None) && Mirrors(cfg, a, cfg', b, totals)
    requires Step(cfg, a) == (a', true) && OnCourse(cfg, a', totals)
    ensures Step(cfg', b) == (b', true) && Mirrors(cfg, a', cfg', b', totals)
  {
    var kind, kind', a1, b1 := PopMirrors(cfg, a, cfg', b, totals);
    DispatchMirrors(cfg, a1, cfg', b1, kind, kind', totals);
    var a2, b2 := Dispatch(cfg, a1, kind), Dispatch(cfg', b1, kind');
    PopOnTime(cfg, a);
    DispatchOnTime(cfg, a1, kind);
    PumpMirrors(cfg, a2, cfg', b2, cfg.nodeCount, totals);
    SnapshotMirrors(cfg, Pump(a2, cfg.nodeCount), cfg', Pump(b2, cfg.nodeCount), totals);
    b' := Snapshot(Pump(b2, cfg.nodeCount));
  }

  // ----- The start -----

  lemma {:induction false} FaultsAlike(cfg: Config, a: Core, cfg': Config, b: Core, faults: seq<(nat, FaultAction)>)
    requires SameSetup(cfg, cfg') && Alike(cfg, a, cfg', b)
    ensures Alike(cfg, ScheduleFaults(a, faults), cfg', ScheduleFaults(b, faults))
    decreases |faults|
  {
    if faults == [] {
    } else {
      EnqueueAlike(cfg, a, cfg', b, faults[0].0, Fault(faults[0].1), Fault(faults[0].1));
      FaultsAlike(cfg, Enqueue(a, faults[0].0, Fault(faults[0].1)), cfg', Enqueue(b, faults[0].0, Fault(faults[0].1)),
          faults[1..]);
    }
  }

  lemma StartAlike(cfg: Config, a: World, cfg': Config, b: World, id: nat) returns (a': World, b': World)
    requires SameSetup(cfg, cfg') && Alike(cfg, a.core, cfg', b.core) && a.nodes == b.nodes
    ensures a' == DispatchStart(cfg, a, id) && b' == DispatchStart(cfg', b, id)
    ensures Alike(cfg, a'.core, cfg', b'.core) && a'.nodes == b'.nodes
  {
    SameRest(a.core, b.core);
    a', b' := DispatchStart(cfg, a, id), DispatchStart(cfg', b, id);
    if id < |a.nodes| {
      NodeAlike(cfg, a, cfg', b, id, cfg.def.onStart(id, a.core.now, a.nodes[id]));
    }
  }

  lemma StartDoomed(cfg: Config, a: World, id: nat)
    ensures SameDoomed(cfg, a.core.queue, DispatchStart(cfg, a, id).core.queue)
    ensures DispatchStart(cfg, a, id).scheduled == a.scheduled && DispatchStart(cfg, a, id).perProcess == a.perProcess
    ensures DispatchStart(cfg, a, id).frames == a.frames
  {
    assert DispatchStart(cfg, a, id) == Dispatch(cfg, a, Fault(Restart(id)));
    DispatchDoomed(cfg, a, Fault(Restart(id)));
  }

  lemma {:induction false} StartAllDoomed(cfg: Config, a: World, upTo: nat)
    ensures var a' := StartAll(cfg, a, upTo);
            && SameDoomed(cfg, a.core.queue, a'.core.queue)
            && a'.scheduled == a.scheduled && a'.perProcess == a.perProcess && a'.frames == a.frames
  {
    if upTo == 0 {
    } else {
      StartAllDoomed(cfg, a, upTo - 1);
      StartDoomed(cfg, StartAll(cfg, a, upTo - 1), upTo - 1);
    }
  }

  lemma StartAllNext(cfg: Config, w: World, upTo: nat, w1: World, w2: World)
    requires upTo > 0 && w1 == StartAll(cfg, w, upTo - 1) && w2 == DispatchStart(cfg, w1, upTo - 1)
    ensures w2 == StartAll(cfg, w, upTo)
  {
  }

  lemma {:induction false} StartAllAlike(cfg: Config, a: World, cfg': Config, b: World, upTo: nat)
    returns (a': World, b': World)
    requires SameSetup(cfg, cfg') && Alike(cfg, a.core, cfg', b.core) && a.nodes == b.nodes
    ensures a' == StartAll(cfg, a, upTo) && b' == StartAll(cfg', b, upTo)
    ensures Alike(cfg, a'.core, cfg', b'.core) && a'.nodes == b'.nodes
  {
    if upTo == 0 {
      a', b' := a, b;
    } else {
      var a1, b1 := StartAllAlike(cfg, a, cfg', b, upTo - 1);
      a', b' := StartAlike(cfg, a1, cfg', b1, upTo - 1);
      StartAllNext(cfg, a, upTo, a1, a');
      StartAllNext(cfg', b, upTo, b1, b');
    }
  }

  lemma BootMirrors(cfg: Config, cfg': Config, faults: seq<(nat, FaultAction)>, totals: seq<nat>)
    requires SameSetup(cfg, cfg') && RoutesOk(cfg) && DefaultRoutes(cfg') && |totals| == cfg.nodeCount
    requires forall p :: 0 <= p < cfg.nodeCount ==> Stream(cfg', p) <= Stream(cfg, p) && |Stream(cfg', p)| == totals[p]
    ensures Mirrors(cfg, Boot(cfg, faults), cfg', Boot(cfg', faults), totals)
  {
    var a, b := Boot(cfg, faults), Boot(cfg', faults);
    FaultsAlike(cfg, NewCore(), cfg', NewCore(), faults);
    FaultsNotInFlight(NewCore(), faults);
    forall p | 0 <= p < cfg.nodeCount ensures ProcessMirrors(cfg, a, cfg', b, p, totals[p]) {
      assert !HasDoomed(cfg, a.core.queue, p);
      assert Stream(cfg', p) <= Stream(cfg, p) && |Stream(cfg', p)| == totals[p];
    }
  }

  lemma StartsOnTime(cfg: Config, faults: seq<(nat, FaultAction)>, w: World)
    requires cfg.nodeCount > 0 && w == StartAll(cfg, Boot(cfg, faults), cfg.nodeCount)
    ensures OnTime(cfg, Snapshot(w))
  {
    BootOnTime(cfg, faults);
    StartAllOnTime(cfg, Boot(cfg, faults), cfg.nodeCount);
    StillOnTime(cfg, w, Snapshot(w));
  }

  lemma InitMirrors(cfg: Config, cfg': Config, faults: seq<(nat, FaultAction)>, totals: seq<nat>)
    returns (w: World, w': World)
    requires SameSetup(cfg, cfg') && RoutesOk(cfg) && DefaultRoutes(cfg') && |totals| == cfg.nodeCount
    requires forall p :: 0 <= p < cfg.nodeCount ==> Stream(cfg', p) <= Stream(cfg, p) && |Stream(cfg', p)| == totals[p]
    requires OnCourse(cfg, Init(cfg, faults), totals)
    ensures w == Init(cfg, faults) && w' == Init(cfg', faults) && Mirrors(cfg, w, cfg', w', totals)
  {
    var a, b := Boot(cfg, faults), Boot(cfg', faults);
    BootMirrors(cfg, cfg', faults, totals);
    var a1, b1 := StartAllAlike(cfg, a, cfg', b, cfg.nodeCount);
    StartAllDoomed(cfg, a, cfg.nodeCount);
    StartAllDoomed(cfg', b, cfg.nodeCount);
    StillMirrors(cfg, a, cfg', b, a1, b1, totals);
    SnapshotMirrors(cfg, a1, cfg', b1, totals);
    BootFlow(cfg, faults);
    BootFlow(cfg', faults);
    StartAllFlow(cfg, a, cfg.nodeCount);
    StartAllFlow(cfg', b, cfg.nodeCount);
    StartsOnTime(cfg, faults, a1);
    PumpMirrors(cfg, Snapshot(a1), cfg', Snapshot(b1), cfg.nodeCount, totals);
    w, w' := Init(cfg, faults), Init(cfg', faults);
  }

  // ----- The course of the original -----

  /** The iteration before which the main loop ended. */
  lemma {:induction false} LastIteration(cfg: Config, faults: seq<(nat, FaultAction)>, n: nat) returns (k: nat)
    requires cfg.nodeCount > 0 && !Run(cfg, Init(cfg, faults), n).1
    ensures k < n && Run(cfg, Init(cfg, faults), k).1 && !Step(cfg, Run(cfg, Init(cfg, faults), k).0).1
    ensures Run(cfg, Init(cfg, faults), n).0 == Step(cfg, Run(cfg, Init(cfg, faults), k).0).0
  {
    if Run(cfg, Init(cfg, faults), n - 1).1 {
      k := n - 1;
    } else {
      k := LastIteration(cfg, faults, n - 1);
    }
  }

  lemma {:induction false} RunsUntil(cfg: Config, w0: World, i: nat, k: nat)
    requires i <= k && Run(cfg, w0, k).1
    ensures Run(cfg, w0, i).1
    decreases k
  {
    if i == k {
    } else {
      RunsUntil(cfg, w0, i, k - 1);
    }
  }

  ghost function Totals(cfg: Config, w: World): (t: seq<nat>)
    ensures |t| == cfg.nodeCount && forall p :: 0 <= p < |t| ==> t[p] == Opened(w.core.history, p)
  {
    seq(cfg.nodeCount, p requires 0 <= p => Opened(w.core.history, p))
  }

  lemma {:induction false} CourseHolds(cfg: Config, faults: seq<(nat, FaultAction)>, i: nat, k: nat)
    requires cfg.nodeCount > 0 && i <= k && Run(cfg, Init(cfg, faults), k).1
    requires !Step(cfg, Run(cfg, Init(cfg, faults), k).0).1
    ensures OnCourse(cfg, Run(cfg, Init(cfg, faults), i).0, Totals(cfg, Run(cfg, Init(cfg, faults), k).0))
    decreases k - i
  {
    RunsUntil(cfg, Init(cfg, faults), i, k);
    RunFlow(cfg, faults, i);
    ClockHolds(cfg, faults, i);
    var w := Run(cfg, Init(cfg, faults), i).0;
    if i == k {
      forall p | 0 <= p < cfg.nodeCount ensures Live(cfg, w, p) == Opened(w.core.history, p) {
        LastLive(cfg, w, p);
      }
    } else {
      CourseHolds(cfg, faults, i + 1, k);
      RunsUntil(cfg, Init(cfg, faults), i + 1, k);
      assert Run(cfg, Init(cfg, faults), i + 1).0 == Step(cfg, w).0;
      forall p | 0 <= p < cfg.nodeCount
        ensures Live(cfg, w, p) <= Live(cfg, Step(cfg, w).0, p)
        ensures HasDoomed(cfg, w.core.queue, p) ==>
                HasDoomed(cfg, Step(cfg, w).0.core.queue, p) && Live(cfg, w, p) == Live(cfg, Step(cfg, w).0, p)
      {
        StepLive(cfg, w, p);
      }
    }
  }

  /** `cfg'` replays the run of `cfg` that ends at iteration `k`: same setup, and per process the
      ops that run issued. */
  ghost predicate Replays(cfg: Config, cfg': Config, faults: seq<(nat, FaultAction)>, k: nat) {
    && SameSetup(cfg, cfg') && RoutesOk(cfg) && DefaultRoutes(cfg')
    && Run(cfg, Init(cfg, faults), k).1
    && !Step(cfg, Run(cfg, Init(cfg, faults), k).0).1
    && forall p :: 0 <= p < cfg.nodeCount ==>
         && Stream(cfg', p) <= Stream(cfg, p)
         && |Stream(cfg', p)| == Totals(cfg, Run(cfg, Init(cfg, faults), k).0)[p]
  }

  lemma NextRun(cfg: Config, w0: World, i: nat, k: nat, before: World) returns (w: World)
    requires 0 < i <= k && Run(cfg, w0, k).1 && before == Run(cfg, w0, i - 1).0
    ensures Run(cfg, w0, i - 1) == (before, true) && Step(cfg, before) == (w, true) && w == Run(cfg, w0, i).0
  {
    RunsUntil(cfg, w0, i, k);
    RunsUntil(cfg, w0, i - 1, k);
    w := Run(cfg, w0, i).0;
  }

  lemma RunsOn(cfg: Config, faults: seq<(nat, FaultAction)>, i: nat, k: nat, a0: World) returns (a: World)
    requires cfg.nodeCount > 0 && 0 < i <= k && Run(cfg, Init(cfg, faults), k).1
    requires a0 == Run(cfg, Init(cfg, faults), i - 1).0
    ensures Run(cfg, Init(cfg, faults), i - 1) == (a0, true) && WorldFlow(cfg, a0, None)
    ensures Step(cfg, a0) == (a, true) && a == Run(cfg, Init(cfg, faults), i).0
  {
    a := NextRun(cfg, Init(cfg, faults), i, k, a0);
    RunFlow(cfg, faults, i - 1);
  }

  /** The original in its `i`th iteration. */
  lemma OriginalAt(cfg: Config, cfg': Config, faults: seq<(nat, FaultAction)>, i: nat, k: nat, a0: World)
    returns (a: World)
    requires Replays(cfg, cfg', faults, k) && 0 < i <= k && a0 == Run(cfg, Init(cfg, faults), i - 1).0
    ensures SameSetup(cfg, cfg') && RoutesOk(cfg) && DefaultRoutes(cfg')
    ensures WorldFlow(cfg, a0, None) && Step(cfg, a0) == (a, true) && a == Run(cfg, Init(cfg, faults), i).0
    ensures OnCourse(cfg, a, Totals(cfg, Run(cfg, Init(cfg, faults), k).0))
  {
    a := RunsOn(cfg, faults, i, k, a0);
    assert OnCourse(cfg, a, Totals(cfg, Run(cfg, Init(cfg, faults), k).0)) by {
      CourseHolds(cfg, faults, i, k);
    }
  }

  /** The replay in its `i`th iteration. */
  lemma ReplayAt(cfg: Config, faults: seq<(nat, FaultAction)>, i: nat, b0: World)
    requires cfg.nodeCount > 0 && i > 0 && Run(cfg, Init(cfg, faults), i - 1) == (b0, true)
    ensures WorldFlow(cfg, b0, None)
    ensures Step(cfg, b0) == Run(cfg, Init(cfg, faults), i)
  {
    RunFlow(cfg, faults, i - 1);
  }

  lemma NextMirrors(cfg: Config, cfg': Config, faults: seq<(nat, FaultAction)>, i: nat, k: nat, a0: World, b0: World)
    returns (a: World, b: World)
    requires Replays(cfg, cfg', faults, k) && 0 < i <= k
    requires a0 == Run(cfg, Init(cfg, faults), i - 1).0 && Run(cfg', Init(cfg', faults), i - 1) == (b0, true)
    requires Mirrors(cfg, a0, cfg', b0, Totals(cfg, Run(cfg, Init(cfg, faults), k).0)) && Punctual(cfg, a0)
    ensures a == Run(cfg, Init(cfg, faults), i).0 && Run(cfg', Init(cfg', faults), i) == (b, true)
    ensures Mirrors(cfg, a, cfg', b, Totals(cfg, Run(cfg, Init(cfg, faults), k).0)) && Punctual(cfg, a)
  {
    a := OriginalAt(cfg, cfg', faults, i, k, a0);
    ReplayAt(cfg', faults, i, b0);
    StepPunctual(cfg, a0, a);
    b := StepMirrors(cfg, a0, a, cfg', b0, Totals(cfg, Run(cfg, Init(cfg, faults), k).0));
  }

  lemma {:induction false} RunMirrors(cfg: Config, cfg': Config, faults: seq<(nat, FaultAction)>, i: nat, k: nat)
    returns (a: World, b: World)
    requires Replays(cfg, cfg', faults, k) && i <= k
    ensures a == Run(cfg, Init(cfg, faults), i).0 && Run(cfg', Init(cfg', faults), i) == (b, true)
    ensures Mirrors(cfg, a, cfg', b, Totals(cfg, Run(cfg, Init(cfg, faults), k).0)) && Punctual(cfg, a)
    decreases i
  {
    if i == 0 {
      CourseHolds(cfg, faults, 0, k);
      InitPunctual(cfg, faults);
      a, b := InitMirrors(cfg, cfg', faults, Totals(cfg, Run(cfg, Init(cfg, faults), k).0));
    } else {
      var a0, b0 := RunMirrors(cfg, cfg', faults, i - 1, k);
      a, b := NextMirrors(cfg, cfg', faults, i, k, a0, b0);
    }
  }

  // ----- The result -----

  /** Two histories that differ at most in the times of the entries from position `n` on. */
  ghost predicate SameUpToTimes(h: seq<OpEntry>, h': seq<OpEntry>, n: nat) {
    && |h| == |h'|
    && (forall i :: 0 <= i < |h| ==> h[i].(time := h'[i].time) == h'[i])
    && (forall i :: 0 <= i < |h| && i < n ==> h[i] == h'[i])
  }

  lemma CloseOneUpToTimes(a: Core, b: Core, token: nat, n: nat)
    requires SameUpToTimes(a.history, b.history, n) && n <= |a.history| && a.pending == b.pending
    ensures var a', b' := CloseOp(a, token, Info, Nil), CloseOp(b, token, Info, Nil);
            && SameUpToTimes(a'.history, b'.history, n) && |a.history| <= |a'.history| && a'.pending == b'.pending
            && CollectOps(a'.history) == CollectOps(a.history)
  {
    if token in a.pending {
      var a' := CloseOp(a, token, Info, Nil);
      assert a'.history == a.history + [a'.history[|a.history|]];
      CollectSnoc(a.history, a'.history[|a.history|]);
    }
  }

  /** Two states that differ at most in the clock leave the same history but for the times of the
      entries force-closing adds. */
  lemma {:induction false} CloseAllUpToTimes(a: Core, b: Core, tokens: seq<nat>, n: nat)
    requires SameUpToTimes(a.history, b.history, n) && n <= |a.history| && a.pending == b.pending
    ensures SameUpToTimes(CloseAll(a, tokens).history, CloseAll(b, tokens).history, n)
    ensures CollectOps(CloseAll(a, tokens).history) == CollectOps(a.history)
    decreases |tokens|
  {
    if tokens == [] {
    } else {
      CloseOneUpToTimes(a, b, tokens[0], n);
      CloseAllUpToTimes(CloseOp(a, tokens[0], Info, Nil), CloseOp(b, tokens[0], Info, Nil), tokens[1..], n);
    }
  }

  /** The configuration `still_fails` replays: the ops are those recovered from the history. */
  function ReplayOf(cfg: Config, h: seq<OpEntry>): Config {
    cfg.(ops := CollectOps(h))
  }

  lemma RecoveredReplays(cfg: Config, faults: seq<(nat, FaultAction)>, k: nat)
    requires RoutesOk(cfg) && Run(cfg, Init(cfg, faults), k).1 && !Step(cfg, Run(cfg, Init(cfg, faults), k).0).1
    ensures Replays(cfg, ReplayOf(cfg, Run(cfg, Init(cfg, faults), k).0.core.history), faults, k)
  {
    var w := Run(cfg, Init(cfg, faults), k).0;
    var h := w.core.history;
    var cfg' := ReplayOf(cfg, h);
    RunFlow(cfg, faults, k);
    CollectedRoutes(h);
    forall p | 0 <= p < cfg.nodeCount
      ensures Stream(cfg', p) <= Stream(cfg, p) && |Stream(cfg', p)| == Opened(h, p)
    {
      CollectedStream(cfg', h, p);
      IssuedCount(h, p);
      assert Issued(h, p) + (InHand(None, p) + Waiting(cfg, w.core.queue, w.perProcess[p], p)) == Stream(cfg, p);
    }
  }

  /** The last call of `pop` finds nothing to fire and leaves the history as it was. */
  lemma LastKeepsHistory(cfg: Config, faults: seq<(nat, FaultAction)>, k: nat)
    requires cfg.nodeCount > 0 && Run(cfg, Init(cfg, faults), k).1
    requires !Step(cfg, Run(cfg, Init(cfg, faults), k).0).1
    ensures Step(cfg, Run(cfg, Init(cfg, faults), k).0).0.core.history == Run(cfg, Init(cfg, faults), k).0.core.history
  {
    var c := Run(cfg, Init(cfg, faults), k).0.core;
    ClockHolds(cfg, faults, k);
    PopNoneIssues(cfg, c);
    SameRest(Pop(cfg, c).0.(now := 0), c.(now := 0));
  }

  /** When the original stops, so does the replay. */
  lemma StopMirrors(cfg: Config, a: World, cfg': Config, b: World, totals: seq<nat>)
    requires SameSetup(cfg, cfg') && Mirrors(cfg, a, cfg', b, totals) && !Step(cfg, a).1
    ensures !Step(cfg', b).1
    ensures Step(cfg, a).0.frames == Step(cfg', b).0.frames && Step(cfg, a).0.nodes == Step(cfg', b).0.nodes
    ensures Rest(Step(cfg, a).0.core.(now := 0)) == Rest(Step(cfg', b).0.core.(now := 0))
  {
    PopAlike(cfg, a.core, cfg', b.core);
    assert Pop(cfg, a.core).1.None? && Pop(cfg', b.core).1.None?;
    assert Step(cfg, a).0 == a.(core := Pop(cfg, a.core).0);
    assert Step(cfg', b).0 == b.(core := Pop(cfg', b.core).0);
  }

  /** The replay ends in the iteration in which the original ended. */
  lemma EndMirrors(cfg: Config, cfg': Config, faults: seq<(nat, FaultAction)>, k: nat) returns (a: World, b: World)
    requires Replays(cfg, cfg', faults, k)
    ensures Run(cfg', Init(cfg', faults), k).1
    ensures a == Run(cfg, Init(cfg, faults), k).0 && b == Run(cfg', Init(cfg', faults), k).0
    ensures !Step(cfg', b).1
    ensures Step(cfg, a).0.frames == Step(cfg', b).0.frames && Step(cfg, a).0.nodes == Step(cfg', b).0.nodes
    ensures Rest(Step(cfg, a).0.core.(now := 0)) == Rest(Step(cfg', b).0.core.(now := 0))
  {
    a, b := RunMirrors(cfg, cfg', faults, k, k);
    StopMirrors(cfg, a, cfg', b, Totals(cfg, a));
  }

  lemma {:induction false} StaysEnded(cfg: Config, faults: seq<(nat, FaultAction)>, k: nat, n: nat)
    requires cfg.nodeCount > 0 && k < n
    requires Run(cfg, Init(cfg, faults), k).1 && !Step(cfg, Run(cfg, Init(cfg, faults), k).0).1
    ensures Run(cfg, Init(cfg, faults), n) == (Step(cfg, Run(cfg, Init(cfg, faults), k).0).0, false)
  {
    if n == k + 1 {
    } else {
      StaysEnded(cfg, faults, k, n - 1);
    }
  }

  lemma EndsAlike(a: Core, b: Core)
    requires Rest(a.(now := 0)) == Rest(b.(now := 0))
    ensures a.history == b.history && a.events == b.events
    ensures SameUpToTimes(ForceClosePending(a).history, ForceClosePending(b).history, |a.history|)
    ensures CollectOps(ForceClosePending(a).history) == CollectOps(a.history)
  {
    SameRest(a.(now := 0), b.(now := 0));
    CloseAllUpToTimes(a, b, PendingTokens(a.pending, a.nextToken, None), |a.history|);
  }

  /** The replay of what a completed run recorded is that run: the same frames, node states, run events
      and history, entry for entry. Only the entries force-closing adds at the end may carry another
      time. */
  ghost predicate Reproduced(cfg: Config, faults: seq<(nat, FaultAction)>, n: nat)
    requires cfg.nodeCount > 0
  {
    var a := Run(cfg, Init(cfg, faults), n).0;
    var cfg' := ReplayOf(cfg, Finish(a).core.history);
    var (b, more) := Run(cfg', Init(cfg', faults), n);
    && !more
    && b.frames == a.frames && b.nodes == a.nodes
    && b.core.events == a.core.events
    && b.core.history == a.core.history
    && SameUpToTimes(Finish(a).core.history, Finish(b).core.history, |a.core.history|)
  }

  /** Where no op the horizon leaves time for is routed elsewhere, replaying what a completed run recorded
      reproduces it, for every node behaviour, draws and faults. */
  lemma ReplayReproduces(cfg: Config, faults: seq<(nat, FaultAction)>, n: nat)
    requires RoutesOk(cfg) && !Run(cfg, Init(cfg, faults), n).1
    ensures Reproduced(cfg, faults, n)
  {
    var k := LastIteration(cfg, faults, n);
    var w := Run(cfg, Init(cfg, faults), k).0;
    LastKeepsHistory(cfg, faults, k);
    RecoveredReplays(cfg, faults, k);
    var cfg' := ReplayOf(cfg, w.core.history);
    var a, b := EndMirrors(cfg, cfg', faults, k);
    StaysEnded(cfg', faults, k, n);
    EndsAlike(Step(cfg, a).0.core, Step(cfg', b).0.core);
  }

  /** Two open lists that differ at most in times. */
  ghost predicate SameOpen(open: seq<(nat, OpEntry)>, open': seq<(nat, OpEntry)>) {
    && |open| == |open'|
    && forall k :: 0 <= k < |open| ==>
         open[k].0 == open'[k].0 && open[k].1.process == open'[k].1.process && open[k].1.value == open'[k].1.value
  }

  lemma {:induction false} SameLastOpen(open: seq<(nat, OpEntry)>, open': seq<(nat, OpEntry)>, process: nat)
    requires SameOpen(open, open')
    ensures LastOpen(open, process) == LastOpen(open', process)
  {
    if open == [] {
    } else {
      SameLastOpen(open[..|open| - 1], open'[..|open| - 1], process);
    }
  }

  lemma EntryIgnoresTime<State(!new), Op(!new)>(
    model: SequentialModel<State, Op>, st: Pairing<Op>, st': Pairing<Op>, pos: nat, e: OpEntry, e': OpEntry)
    requires st.spans == st'.spans && SameOpen(st.open, st'.open) && e.(time := e'.time) == e'
    ensures PairStep(model, st, pos, e).spans == PairStep(model, st', pos, e').spans
    ensures SameOpen(PairStep(model, st, pos, e).open, PairStep(model, st', pos, e').open)
  {
    SameLastOpen(st.open, st'.open, e.process);
  }

  /** Times play no part in span parsing, so a replayed history gets the same verdict. */
  lemma {:induction false} SpansIgnoreTimes<State(!new), Op(!new)>(
    model: SequentialModel<State, Op>, h: seq<OpEntry>, h': seq<OpEntry>)
    requires SameUpToTimes(h, h', 0)
    ensures Pair(model, h).spans == Pair(model, h').spans
    ensures SameOpen(Pair(model, h).open, Pair(model, h').open)
  {
    if h == [] {
    } else {
      var n := |h| - 1;
      SpansIgnoreTimes(model, h[..n], h'[..n]);
      assert h[n].(time := h'[n].time) == h'[n];
      EntryIgnoresTime(model, Pair(model, h[..n]), Pair(model, h'[..n]), n, h[n], h'[n]);
    }
  }

  /** The oracle's verdict on the replay is its verdict on the original. */
  lemma ReplayKeepsSpans<State(!new), Op(!new)>(
    model: SequentialModel<State, Op>, cfg: Config, faults: seq<(nat, FaultAction)>, n: nat)
    requires RoutesOk(cfg) && !Run(cfg, Init(cfg, faults), n).1
    ensures var h := Finish(Run(cfg, Init(cfg, faults), n).0).core.history;
            var cfg' := ReplayOf(cfg, h);
            Pair(model, Finish(Run(cfg', Init(cfg', faults), n).0).core.history).spans == Pair(model, h).spans
  {
    ReplayReproduces(cfg, faults, n);
    var h := Finish(Run(cfg, Init(cfg, faults), n).0).core.history;
    var cfg' := ReplayOf(cfg, h);
    SpansIgnoreTimes(model, h, Finish(Run(cfg', Init(cfg', faults), n).0).core.history);
  }
}
