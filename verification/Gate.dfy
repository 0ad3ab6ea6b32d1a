/** The per-process gate: a process has at most one operation in flight, so its history is a strict
    alternation of invokes and terminal entries, whatever nodes, faults and draws do. */
module Gate {
  import opened Ops
  import opened Engine
  import opened Runs
  import opened Tokens

  function Opened(h: seq<OpEntry>, p: nat): nat {
    if h == [] then 0
    else
      var e := h[|h| - 1];
      Opened(h[..|h| - 1], p) + (if e.process == p && e.kind.Invoke? then 1 else 0)
  }

  /** Ops of `p` that are scheduled but not yet issued. */
  function InFlight(q: seq<Scheduled>, p: nat): nat {
    if q == [] then 0
    else InFlight(q[..|q| - 1], p) + (if q[|q| - 1].kind.Issue? && q[|q| - 1].kind.process == p then 1 else 0)
  }

  /** In every prefix, a process has as many terminal entries as invokes, or one fewer. */
  ghost predicate Alternating(h: seq<OpEntry>) {
    forall i, p :: 0 <= i <= |h| ==> ClosedFor(h[..i], p) <= Opened(h[..i], p) <= ClosedFor(h[..i], p) + 1
  }

  ghost predicate Busy(pending: map<nat, PendingOp>, p: nat) {
    exists t :: t in pending && pending[t].process == p
  }

  /** A process has at most one pending op, and exactly when its last invoke is unanswered. */
  ghost predicate HistoryGate(c: Core) {
    && Alternating(c.history)
    && (forall p :: Opened(c.history, p) == ClosedFor(c.history, p) + if Busy(c.pending, p) then 1 else 0)
    && (forall t, u :: t in c.pending && u in c.pending && c.pending[t].process == c.pending[u].process ==> t == u)
    && (forall t :: t in c.pending ==> t < c.nextToken)
  }

  /** The counts the pump relies on. `hand` is the process whose op was just taken off the queue
      but not opened yet. */
  ghost predicate QueueGate(c: Core, scheduled: seq<nat>, hand: Option<nat>) {
    forall p :: 0 <= p < |scheduled| ==>
      && scheduled[p] == Opened(c.history, p) + InFlight(c.queue, p) + (if hand == Some(p) then 1 else 0)
      && scheduled[p] <= ClosedFor(c.history, p) + 1
  }

  ghost predicate IssuesOk(q: seq<Scheduled>, processes: nat, ops: nat) {
    forall e :: e in q && e.kind.Issue? ==> e.kind.process < processes && e.kind.index < ops
  }

  ghost predicate GateOk(cfg: Config, c: Core, scheduled: seq<nat>, hand: Option<nat>) {
    && HistoryGate(c)
    && QueueGate(c, scheduled, hand)
    && IssuesOk(c.queue, |scheduled|, |cfg.ops|)
  }

  // ----- Counting -----

  lemma CountSnoc(h: seq<OpEntry>, e: OpEntry, p: nat)
    ensures Opened(h + [e], p) == Opened(h, p) + (if e.process == p && e.kind.Invoke? then 1 else 0)
    ensures ClosedFor(h + [e], p) == ClosedFor(h, p) + (if e.process == p && !e.kind.Invoke? then 1 else 0)
  {
    assert (h + [e])[..|h|] == h;
  }

  lemma AlternatingSnoc(h: seq<OpEntry>, e: OpEntry)
    requires Alternating(h)
    requires forall p :: ClosedFor(h + [e], p) <= Opened(h + [e], p) <= ClosedFor(h + [e], p) + 1
    ensures Alternating(h + [e])
  {
    var h' := h + [e];
    forall i, p | 0 <= i <= |h'| ensures ClosedFor(h'[..i], p) <= Opened(h'[..i], p) <= ClosedFor(h'[..i], p) + 1 {
      if i <= |h| {
        assert h'[..i] == h[..i];
      } else {
        assert h'[..i] == h';
      }
    }
  }

  lemma FlightSnoc(q: seq<Scheduled>, e: Scheduled, p: nat)
    ensures InFlight(q + [e], p) == InFlight(q, p) + (if e.kind.Issue? && e.kind.process == p then 1 else 0)
  {
    assert (q + [e])[..|q|] == q;
  }

  lemma {:induction false} FlightWithout(q: seq<Scheduled>, i: nat, p: nat)
    requires i < |q|
    ensures InFlight(q, p) == InFlight(Without(q, i), p) + (if q[i].kind.Issue? && q[i].kind.process == p then 1 else 0)
  {
    var last := |q| - 1;
    if i == last {
      assert Without(q, i) == q[..last];
    } else {
      FlightWithout(q[..last], i, p);
      assert q[i + 1..] == q[..last][i + 1..] + [q[last]];
      assert Without(q, i) == Without(q[..last], i) + [q[last]];
      FlightSnoc(Without(q[..last], i), q[last], p);
    }
  }

  // ----- Opening and closing -----

  lemma BusyAfterOpen(pending: map<nat, PendingOp>, t: nat, op: PendingOp, p: nat)
    requires t !in pending
    ensures Busy(pending[t := op], p) <==> Busy(pending, p) || p == op.process
  {
    var pending' := pending[t := op];
    assert t in pending' && pending'[t].process == op.process;
    if Busy(pending, p) {
      var u :| u in pending && pending[u].process == p;
      assert u in pending' && pending'[u].process == p;
    }
  }

  lemma OpenGate(cfg: Config, c: Core, process: nat, f: string, value: Value, scheduled: seq<nat>)
    requires GateOk(cfg, c, scheduled, Some(process)) && process < |scheduled|
    ensures GateOk(cfg, OpenOp(c, process, f, value), scheduled, None)
  {
    var c' := OpenOp(c, process, f, value);
    var e := c'.history[|c.history|];
    assert c'.history == c.history + [e];
    assert !Busy(c.pending, process);
    forall p
      ensures Opened(c'.history, p) == ClosedFor(c'.history, p) + if Busy(c'.pending, p) then 1 else 0
      ensures Opened(c'.history, p) == Opened(c.history, p) + (if p == process then 1 else 0)
      ensures ClosedFor(c'.history, p) == ClosedFor(c.history, p)
    {
      CountSnoc(c.history, e, p);
      BusyAfterOpen(c.pending, c.nextToken, PendingOp(process, f), p);
    }
    AlternatingSnoc(c.history, e);
  }

  lemma BusyAfterClose(pending: map<nat, PendingOp>, t: nat, p: nat)
    requires t in pending
    requires forall u :: u in pending && pending[u].process == pending[t].process ==> u == t
    ensures Busy(pending, p) <==> Busy(pending - {t}, p) || p == pending[t].process
    ensures !Busy(pending - {t}, pending[t].process)
  {
    var pending' := pending - {t};
    if Busy(pending, p) && p != pending[t].process {
      var u :| u in pending && pending[u].process == p;
      assert u in pending' && pending'[u].process == p;
    }
  }

  lemma CloseGate(cfg: Config, c: Core, token: nat, kind: OpKind, value: Value, scheduled: seq<nat>, hand: Option<nat>)
    requires GateOk(cfg, c, scheduled, hand) && !kind.Invoke? && token in c.pending
    ensures GateOk(cfg, CloseOp(c, token, kind, value), scheduled, hand)
  {
    var c' := CloseOp(c, token, kind, value);
    var e := c'.history[|c.history|];
    var process := c.pending[token].process;
    assert c'.history == c.history + [e];
    forall p
      ensures Opened(c'.history, p) == ClosedFor(c'.history, p) + if Busy(c'.pending, p) then 1 else 0
      ensures Opened(c'.history, p) == Opened(c.history, p)
      ensures ClosedFor(c'.history, p) == ClosedFor(c.history, p) + (if p == process then 1 else 0)
    {
      CountSnoc(c.history, e, p);
      BusyAfterClose(c.pending, token, p);
    }
    AlternatingSnoc(c.history, e);
  }

  // ----- Everything else a callback does -----

  lemma SameHistory(cfg: Config, c: Core, c': Core, scheduled: seq<nat>, hand: Option<nat>)
    requires GateOk(cfg, c, scheduled, hand)
    requires c'.history == c.history && c'.pending == c.pending && c'.nextToken == c.nextToken
    requires forall p :: InFlight(c'.queue, p) == InFlight(c.queue, p)
    requires forall e :: e in c'.queue && e.kind.Issue? ==> e in c.queue
    ensures GateOk(cfg, c', scheduled, hand)
  {
  }

  lemma FlightUnchanged(q: seq<Scheduled>, e: Scheduled)
    requires !e.kind.Issue?
    ensures forall p :: InFlight(q + [e], p) == InFlight(q, p)
  {
    forall p ensures InFlight(q + [e], p) == InFlight(q, p) {
      FlightSnoc(q, e, p);
    }
  }

  lemma EffectGate(cfg: Config, c: Core, m: Move, scheduled: seq<nat>, hand: Option<nat>)
    requires GateOk(cfg, c, scheduled, hand) && Enabled(cfg, c, m) && IsEffect(m)
    ensures GateOk(cfg, Apply(cfg, c, m), scheduled, hand)
  {
    var c' := Apply(cfg, c, m);
    match m
    case Closing(token, kind, value) =>
      if token in c.pending {
        CloseGate(cfg, c, token, kind, value, scheduled, hand);
      }
    case Transmitting(from, to, msg, delay, dup) =>
      var e := c'.log[|c.log|].sent;
      FlightUnchanged(c.queue, e);
      if dup {
        var e2 := e.(seqNo := c.seqNo + 1);
        FlightUnchanged(c.queue + [e], e2);
        assert c'.queue == c.queue + [e] + [e2];
      } else {
        assert c'.queue == c.queue + [e];
      }
      SameHistory(cfg, c, c', scheduled, hand);
    case Arming(node, timer, after) =>
      FlightUnchanged(c.queue, c'.queue[|c.queue|]);
      assert c'.queue == c.queue + [c'.queue[|c.queue|]];
      SameHistory(cfg, c, c', scheduled, hand);
    case _ => SameHistory(cfg, c, c', scheduled, hand);
  }

  lemma EffectsKeepGate(cfg: Config, scheduled: seq<nat>, hand: Option<nat>)
    ensures KeptByEffects(cfg, c => GateOk(cfg, c, scheduled, hand))
  {
    forall c, m {:trigger Apply(cfg, c, m)} | GateOk(cfg, c, scheduled, hand) && Enabled(cfg, c, m) && IsEffect(m)
      ensures GateOk(cfg, Apply(cfg, c, m), scheduled, hand)
    {
      EffectGate(cfg, c, m, scheduled, hand);
    }
  }

  // ----- One iteration of the main loop -----

  ghost predicate WorldGate(cfg: Config, w: World, hand: Option<nat>) {
    && |w.nodes| == |w.perProcess| == |w.scheduled| == cfg.nodeCount > 0
    && (forall p, k :: 0 <= p < |w.perProcess| && 0 <= k < |w.perProcess[p]| ==> w.perProcess[p][k] < |cfg.ops|)
    && GateOk(cfg, w.core, w.scheduled, hand)
  }

  function HandOf(popped: Option<EventKind>): Option<nat> {
    if popped.Some? && popped.value.Issue? then Some(popped.value.process) else None
  }

  lemma TakeGate(cfg: Config, c: Core, head: Scheduled, c': Core, scheduled: seq<nat>)
    requires GateOk(cfg, c, scheduled, None) && c.queue != []
    requires head == c.queue[MinIndex(c.queue)] && c' == TakeHead(cfg, c)
    requires head.at < cfg.horizon || !head.kind.Issue?
    ensures GateOk(cfg, c', scheduled, HandOf(Some(head.kind)))
  {
    TakeShape(cfg, c, head, c');
    var m := MinIndex(c.queue);
    assert c'.queue == Without(c.queue, m);
    forall p: nat
      ensures InFlight(c.queue, p) == InFlight(c'.queue, p) + (if HandOf(Some(head.kind)) == Some(p) then 1 else 0) {
      FlightWithout(c.queue, m, p);
    }
    assert forall e :: e in c'.queue ==> e in c.queue;
  }

  /** The gate at a stop: the history part needs no queue. */
  lemma {:induction false} PopGate(cfg: Config, c: Core, scheduled: seq<nat>)
    requires GateOk(cfg, c, scheduled, None)
    ensures var (c', popped) := Pop(cfg, c);
            && HistoryGate(c')
            && (popped.Some? ==> GateOk(cfg, c', scheduled, HandOf(popped)))
            && (popped.Some? && popped.value.Issue? ==>
                popped.value.process < |scheduled| && popped.value.index < |cfg.ops|)
    decreases |c.queue|
  {
    if c.queue == [] {
    } else {
      var head, c1 := c.queue[MinIndex(c.queue)], TakeHead(cfg, c);
      TakeShape(cfg, c, head, c1);
      if head.at < cfg.horizon {
        TakeGate(cfg, c, head, c1, scheduled);
        if Fires(cfg, c, head.kind) {
          EffectsKeepGate(cfg, scheduled, HandOf(Some(head.kind)));
          CloseAllKeeps(cfg, c1, Victims(c1, head.kind), d => GateOk(cfg, d, scheduled, HandOf(Some(head.kind))));
        } else {
          PopGate(cfg, c1, scheduled);
        }
      }
    }
  }

  lemma ClientOpGate(cfg: Config, w: World, process: nat, op: FrozenOp)
    requires WorldGate(cfg, w, Some(process)) && process < cfg.nodeCount
    ensures WorldGate(cfg, DispatchClientOp(cfg, w, process, op), None)
  {
    EffectsKeepGate(cfg, w.scheduled, None);
    var inv := c => GateOk(cfg, c, w.scheduled, None);
    var target := Target(op, process, |w.nodes|);
    var token := w.core.nextToken;
    var decoded := if cfg.codec.Some? then cfg.codec.value.decode(op.op) else None;
    match decoded
    case None =>
      OpenGate(cfg, w.core, process, OpFunction(op.op), op.op, w.scheduled);
      CloseGate(cfg, OpenOp(w.core, process, OpFunction(op.op), op.op), token, Fail, Nil, w.scheduled, None);
    case Some((f, clientOp)) =>
      OpenGate(cfg, w.core, process, f, op.op, w.scheduled);
      var c := OpenOp(w.core, process, f, op.op);
      var cb := cfg.def.onClientOp(target, c.now, clientOp, token, w.nodes[target]);
      ExecKeeps(cfg, c, target, cb, inv);
      var (c1, result) := Exec(cfg, c, target, cb);
      if result.1.Done? && token in c1.pending {
        CloseGate(cfg, c1, token, Ok, cfg.codec.value.encode(f, result.1.response), w.scheduled, None);
      }
  }

  lemma DispatchGate(cfg: Config, w: World, kind: EventKind)
    requires WorldGate(cfg, w, HandOf(Some(kind)))
    requires kind.Issue? ==> kind.process < cfg.nodeCount && kind.index < |cfg.ops|
    ensures WorldGate(cfg, Dispatch(cfg, w, kind), None)
  {
    EffectsKeepGate(cfg, w.scheduled, None);
    var inv := c => GateOk(cfg, c, w.scheduled, None);
    match kind
    case Deliver(from, to, msg) =>
      if to < |w.nodes| {
        ExecKeeps(cfg, w.core, to, cfg.def.onMsg(to, w.core.now, from, msg, w.nodes[to]), inv);
      }
    case Fire(node, timer, _) =>
      if node < |w.nodes| {
        ExecKeeps(cfg, w.core, node, cfg.def.onTimer(node, w.core.now, timer, w.nodes[node]), inv);
      }
    case Issue(process, index) => ClientOpGate(cfg, w, process, cfg.ops[index]);
    case Fault(action) =>
      if action.Restart? {
        StartKeeps(cfg, w, action.node, inv);
      }
  }

  lemma PumpOneGate(cfg: Config, w: World, p: nat)
    requires WorldGate(cfg, w, None)
    ensures WorldGate(cfg, PumpOne(w, p), None)
  {
    var w' := PumpOne(w, p);
    if w' != w {
      var e := w'.core.queue[|w.core.queue|];
      assert w'.core.queue == w.core.queue + [e];
      forall q ensures InFlight(w'.core.queue, q) == InFlight(w.core.queue, q) + (if q == p then 1 else 0) {
        FlightSnoc(w.core.queue, e, q);
      }
    }
  }

  lemma {:induction false} PumpGate(cfg: Config, w: World, upTo: nat)
    requires WorldGate(cfg, w, None)
    ensures WorldGate(cfg, Pump(w, upTo), None)
  {
    if upTo == 0 {
    } else {
      PumpGate(cfg, w, upTo - 1);
      PumpOneGate(cfg, Pump(w, upTo - 1), upTo - 1);
    }
  }

  lemma StepGate(cfg: Config, w: World)
    requires WorldGate(cfg, w, None)
    ensures HistoryGate(Step(cfg, w).0.core)
    ensures Step(cfg, w).1 ==> WorldGate(cfg, Step(cfg, w).0, None)
  {
    PopGate(cfg, w.core, w.scheduled);
    var (c, popped) := Pop(cfg, w.core);
    if popped.Some? {
      var w1 := w.(core := c);
      DispatchGate(cfg, w1, popped.value);
      PumpGate(cfg, Dispatch(cfg, w1, popped.value), cfg.nodeCount);
    }
  }

  // ----- Whole runs -----

  lemma {:induction false} QueuedInRange(cfg: Config, p: nat, upTo: nat)
    requires upTo <= |cfg.ops| && cfg.nodeCount > 0
    ensures forall k :: 0 <= k < |Queued(cfg, p, upTo)| ==> Queued(cfg, p, upTo)[k] < upTo
  {
    if upTo == 0 {
    } else {
      QueuedInRange(cfg, p, upTo - 1);
    }
  }

  lemma {:induction false} FaultsNotInFlight(c: Core, faults: seq<(nat, FaultAction)>)
    requires forall p :: InFlight(c.queue, p) == 0
    requires forall e :: e in c.queue ==> !e.kind.Issue?
    ensures forall p :: InFlight(ScheduleFaults(c, faults).queue, p) == 0
    ensures forall e :: e in ScheduleFaults(c, faults).queue ==> !e.kind.Issue?
    decreases |faults|
  {
    if faults == [] {
    } else {
      var e := Scheduled(faults[0].0, c.seqNo, Fault(faults[0].1));
      FlightUnchanged(c.queue, e);
      FaultsNotInFlight(Enqueue(c, faults[0].0, Fault(faults[0].1)), faults[1..]);
    }
  }

  lemma BootGate(cfg: Config, faults: seq<(nat, FaultAction)>)
    requires cfg.nodeCount > 0
    ensures WorldGate(cfg, Boot(cfg, faults), None)
  {
    var w := Boot(cfg, faults);
    FaultsOnlyQueue(NewCore(), faults);
    FaultsNotInFlight(NewCore(), faults);
    forall p, k | 0 <= p < |w.perProcess| && 0 <= k < |w.perProcess[p]| ensures w.perProcess[p][k] < |cfg.ops| {
      QueuedInRange(cfg, p, |cfg.ops|);
    }
  }

  lemma {:induction false} StartAllGate(cfg: Config, w: World, upTo: nat)
    requires WorldGate(cfg, w, None)
    ensures WorldGate(cfg, StartAll(cfg, w, upTo), None)
  {
    if upTo == 0 {
    } else {
      StartAllGate(cfg, w, upTo - 1);
      var w1 := StartAll(cfg, w, upTo - 1);
      EffectsKeepGate(cfg, w1.scheduled, None);
      StartKeeps(cfg, w1, upTo - 1, c => GateOk(cfg, c, w1.scheduled, None));
    }
  }

  /** The gate holds after every iteration, and the history stays well formed even after the last. */
  lemma {:induction false} RunGate(cfg: Config, faults: seq<(nat, FaultAction)>, n: nat)
    requires cfg.nodeCount > 0
    ensures HistoryGate(Run(cfg, Init(cfg, faults), n).0.core)
    ensures Run(cfg, Init(cfg, faults), n).1 ==> WorldGate(cfg, Run(cfg, Init(cfg, faults), n).0, None)
  {
    if n == 0 {
      BootGate(cfg, faults);
      StartAllGate(cfg, Boot(cfg, faults), cfg.nodeCount);
      PumpGate(cfg, Snapshot(StartAll(cfg, Boot(cfg, faults), cfg.nodeCount)), cfg.nodeCount);
    } else {
      RunGate(cfg, faults, n - 1);
      if Run(cfg, Init(cfg, faults), n - 1).1 {
        StepGate(cfg, Run(cfg, Init(cfg, faults), n - 1).0);
      }
    }
  }

  lemma ClosingKeepsHistoryGate(cfg: Config)
    ensures KeptByEffects(cfg, c => HistoryGate(c))
  {
    forall c, m {:trigger Apply(cfg, c, m)} | HistoryGate(c) && Enabled(cfg, c, m) && IsEffect(m)
      ensures HistoryGate(Apply(cfg, c, m))
    {
      if m.Closing? && m.token in c.pending {
        CloseGate(cfg, c.(queue := []), m.token, m.kind, m.value, [], None);
      } else {
        assert Apply(cfg, c, m).history == c.history && Apply(cfg, c, m).pending == c.pending;
      }
    }
  }

  /** The entries of one process, in order. */
  function Project(h: seq<OpEntry>, p: nat): seq<OpEntry> {
    if h == [] then []
    else Project(h[..|h| - 1], p) + (if h[|h| - 1].process == p then [h[|h| - 1]] else [])
  }

  /** Invoke, terminal, invoke, terminal, and so on. */
  ghost predicate StrictAlternation(h: seq<OpEntry>) {
    forall k :: 0 <= k < |h| ==> (h[k].kind.Invoke? <==> k % 2 == 0)
  }

  lemma {:induction false} AlternatingProjection(h: seq<OpEntry>, p: nat)
    requires Alternating(h)
    ensures |Project(h, p)| == Opened(h, p) + ClosedFor(h, p)
    ensures StrictAlternation(Project(h, p))
  {
    if h == [] {
    } else {
      var last := |h| - 1;
      assert forall i :: 0 <= i <= last ==> h[..last][..i] == h[..i];
      AlternatingProjection(h[..last], p);
      assert h[..|h|] == h;
      assert ClosedFor(h[..last], p) <= Opened(h[..last], p) <= ClosedFor(h[..last], p) + 1;
    }
  }

  lemma IdleIsEven(c: Core, p: nat)
    requires HistoryGate(c) && c.pending == map[]
    ensures StrictAlternation(Project(c.history, p)) && |Project(c.history, p)| % 2 == 0
  {
    AlternatingProjection(c.history, p);
    assert !Busy(c.pending, p);
  }

  lemma HistoriesGated(cfg: Config, faults: seq<(nat, FaultAction)>, n: nat)
    requires cfg.nodeCount > 0
    ensures HistoryGate(Run(cfg, Init(cfg, faults), n).0.core)
    ensures HistoryGate(Finish(Run(cfg, Init(cfg, faults), n).0).core)
  {
    RunGate(cfg, faults, n);
    ClosingKeepsHistoryGate(cfg);
    FinishKeeps(cfg, Run(cfg, Init(cfg, faults), n).0, c => HistoryGate(c));
  }

  /** Each process's own history is invoke, terminal, invoke, terminal, and so on: at every moment
      of every run, and ending with a terminal once the run is over. */
  lemma ProcessesAlternate(cfg: Config, faults: seq<(nat, FaultAction)>, n: nat, p: nat)
    requires cfg.nodeCount > 0
    ensures StrictAlternation(Project(Run(cfg, Init(cfg, faults), n).0.core.history, p))
    ensures var h := Project(Finish(Run(cfg, Init(cfg, faults), n).0).core.history, p);
            StrictAlternation(h) && |h| % 2 == 0
  {
    HistoriesGated(cfg, faults, n);
    TokensHold(cfg, faults, n);
    var w := Run(cfg, Init(cfg, faults), n).0;
    AlternatingProjection(w.core.history, p);
    IdleIsEven(Finish(w).core, p);
  }
}
