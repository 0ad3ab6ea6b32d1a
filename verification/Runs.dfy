/** Induction over runs. A run is built from a handful of moves on the scheduler state, so what
    every move keeps holds throughout every run, for every node behaviour and every draw. */
module Runs {
  import opened Ops
  import opened Engine

  datatype Move =
    | Drawing
    | Transmitting(from: nat, to: nat, msg: Msg, delay: nat, dup: bool)
    | Arming(node: nat, timer: Timer, after: nat)
    | Disarming(node: nat, timer: Timer)
    | Opening(process: nat, f: string, value: Value)
    | Closing(token: nat, kind: OpKind, value: Value)
    | Issuing(process: nat, index: nat)
    | Taking

  function Apply(cfg: Config, c: Core, m: Move): Core
    requires m.Taking? ==> c.queue != []
  {
    match m
    case Drawing => Drawn(c)
    case Transmitting(from, to, msg, delay, dup) => Transmit(cfg, c, from, to, msg, delay, dup)
    case Arming(node, timer, after) => ArmTimer(cfg, c, node, timer, after)
    case Disarming(node, timer) => DisarmTimer(cfg, c, node, timer)
    case Opening(process, f, value) => OpenOp(c, process, f, value)
    case Closing(token, kind, value) => CloseOp(c, token, kind, value)
    case Issuing(process, index) => Enqueue(c, c.now + MILLIS, Issue(process, index))
    case Taking => TakeHead(cfg, c)
  }

  predicate Enabled(cfg: Config, c: Core, m: Move) {
    match m
    case Transmitting(from, to, msg, delay, dup) =>
      && Connected(c, from, to)
      && delay >= cfg.model.delayLo * MILLIS
    case Closing(_, kind, _) => !kind.Invoke?
    case Taking => c.queue != []
    case _ => true
  }

  /** Moves a node callback can cause. */
  predicate IsEffect(m: Move) {
    m.Drawing? || m.Transmitting? || m.Arming? || m.Disarming? || m.Closing?
  }

  ghost predicate KeptByEffects(cfg: Config, inv: Core -> bool) {
    forall c, m {:trigger Apply(cfg, c, m)} ::
      inv(c) && Enabled(cfg, c, m) && IsEffect(m) ==> inv(Apply(cfg, c, m))
  }

  ghost predicate KeptByMoves(cfg: Config, inv: Core -> bool) {
    forall c, m {:trigger Apply(cfg, c, m)} :: inv(c) && Enabled(cfg, c, m) ==> inv(Apply(cfg, c, m))
  }

  /** Moves the handling of one event can cause, besides scheduling the next op. */
  ghost predicate KeptByDispatch(cfg: Config, inv: Core -> bool) {
    forall c, m {:trigger Apply(cfg, c, m)} ::
      inv(c) && Enabled(cfg, c, m) && (IsEffect(m) || m.Opening?) ==> inv(Apply(cfg, c, m))
  }

  // ----- Taking the head -----

  ghost predicate Ordered(q: seq<Scheduled>) {
    forall i, j :: 0 <= i < j < |q| ==> q[i].seqNo < q[j].seqNo
  }

  lemma WithoutMembers(q: seq<Scheduled>, m: nat)
    requires m < |q| && Ordered(q)
    ensures forall e :: e in Without(q, m) <==> e in q && e != q[m]
  {
    var rest := Without(q, m);
    forall e | e in rest ensures e in q && e != q[m] {
      var i :| 0 <= i < |rest| && rest[i] == e;
      assert q[if i < m then i else i + 1] == e;
    }
    forall e | e in q && e != q[m] ensures e in rest {
      var j :| 0 <= j < |q| && q[j] == e;
      assert rest[if j < m then j else j - 1] == e;
    }
  }

  lemma WithoutOrdered(q: seq<Scheduled>, m: nat)
    requires m < |q| && Ordered(q)
    ensures Ordered(Without(q, m))
  {
    var rest := Without(q, m);
    assert forall i :: 0 <= i < |rest| ==> rest[i] == q[if i < m then i else i + 1];
  }

  /** In a queue of distinct events the head comes strictly before all the rest. */
  lemma HeadIsFirst(q: seq<Scheduled>, e: Scheduled)
    requires q != [] && Ordered(q) && e in q && e != q[MinIndex(q)]
    ensures Before(q[MinIndex(q)], e) && q[MinIndex(q)].seqNo != e.seqNo
  {
    var j :| 0 <= j < |q| && q[j] == e;
  }

  /** What taking the head does to the queue. */
  lemma TakeRest(cfg: Config, c: Core) returns (head: Scheduled, c': Core)
    requires c.queue != [] && Ordered(c.queue)
    ensures c' == TakeHead(cfg, c) && head == c.queue[MinIndex(c.queue)] && head in c.queue
    ensures Ordered(c'.queue)
    ensures forall e :: e in c'.queue <==> e in c.queue && e != head
    ensures forall e :: e in c'.queue ==> Before(head, e) && head.seqNo != e.seqNo
  {
    head, c' := c.queue[MinIndex(c.queue)], TakeHead(cfg, c);
    assert c'.queue == Without(c.queue, MinIndex(c.queue));
    WithoutMembers(c.queue, MinIndex(c.queue));
    WithoutOrdered(c.queue, MinIndex(c.queue));
    forall e | e in c'.queue ensures Before(head, e) && head.seqNo != e.seqNo {
      HeadIsFirst(c.queue, e);
    }
  }

  /** What taking the head changes besides the queue, and what it does not. */
  lemma TakeShape(cfg: Config, c: Core, head: Scheduled, c': Core)
    requires c.queue != [] && head == c.queue[MinIndex(c.queue)] && c' == TakeHead(cfg, c)
    ensures c'.seqNo == c.seqNo && c'.timerGen == c.timerGen && c'.lastLink == c.lastLink
    ensures c'.history == c.history && c'.pending == c.pending && c'.nextToken == c.nextToken && c'.tokens == c.tokens
    ensures c'.now == if head.at < cfg.horizon then head.at else cfg.horizon
    ensures c'.log == if head.at < cfg.horizon then c.log + [Taken(head, Fires(cfg, c, head.kind))] else c.log
    ensures head.at >= cfg.horizon || !head.kind.Fault? ==>
              c'.crashed == c.crashed && c'.partitions == c.partitions && c'.events == c.events
  {
    var c1 := c.(queue := Without(c.queue, MinIndex(c.queue)));
    if head.at < cfg.horizon {
      var c2 := c1.(now := head.at, log := c.log + [Taken(head, Fires(cfg, c, head.kind))]);
      assert c' == if head.kind.Fault? then Inject(c2, head.kind.action) else c2;
    }
  }

  // ----- Callbacks -----

  lemma DeliveryKeeps(cfg: Config, c: Core, from: nat, to: nat, msg: Msg, inv: Core -> bool)
    requires inv(c) && KeptByEffects(cfg, inv)
    ensures inv(ScheduleDelivery(cfg, c, from, to, msg))
  {
    if Connected(c, from, to) {
      var (c1, lost) := Roll(cfg, c, cfg.model.loss);
      assert Apply(cfg, c, Drawing) == Drawn(c);
      var (c2, delay) := Range(cfg, c1, cfg.model.delayLo, cfg.model.delayHi);
      assert Apply(cfg, c1, Drawing) == Drawn(c1);
      var (c3, dup) := Roll(cfg, c2, cfg.model.duplicate);
      assert Apply(cfg, c2, Drawing) == Drawn(c2);
      var m := Transmitting(from, to, msg, delay * MILLIS, dup);
      assert Enabled(cfg, c3, m);
      assert Apply(cfg, c3, m) == Transmit(cfg, c3, from, to, msg, delay * MILLIS, dup);
    }
  }

  lemma {:induction false} SendAllKeeps(cfg: Config, c: Core, from: nat, to: seq<nat>, msg: Msg, inv: Core -> bool)
    requires inv(c) && KeptByEffects(cfg, inv)
    ensures inv(SendAll(cfg, c, from, to, msg))
    decreases |to|
  {
    if to == [] {
    } else {
      DeliveryKeeps(cfg, c, from, to[0], msg, inv);
      SendAllKeeps(cfg, ScheduleDelivery(cfg, c, from, to[0], msg), from, to[1..], msg, inv);
    }
  }

  lemma PerformKeeps(cfg: Config, c: Core, me: nat, effect: Effect, inv: Core -> bool)
    requires inv(c) && KeptByEffects(cfg, inv)
    ensures inv(Perform(cfg, c, me, effect))
  {
    match effect
    case Send(to, msg) => DeliveryKeeps(cfg, c, me, to, msg, inv);
    case Broadcast(msg) => SendAllKeeps(cfg, c, me, Peers(cfg.nodeCount, me), msg, inv);
    case SetTimer(timer, after) => assert Perform(cfg, c, me, effect) == Apply(cfg, c, Arming(me, timer, after));
    case CancelTimer(timer) => assert Perform(cfg, c, me, effect) == Apply(cfg, c, Disarming(me, timer));
    case CompleteOp(token, completion) =>
      var kind := match completion
        case Succeeded(_) => Ok
        case Failed => Fail
        case Indeterminate => Info;
      var value :| Complete(cfg, c, token, completion) == CloseOp(c, token, kind, value);
      assert Complete(cfg, c, token, completion) == Apply(cfg, c, Closing(token, kind, value));
  }

  lemma {:induction false} ExecKeeps<A>(cfg: Config, c: Core, me: nat, cb: Callback<A>, inv: Core -> bool)
    requires inv(c) && KeptByEffects(cfg, inv)
    ensures inv(Exec(cfg, c, me, cb).0)
    decreases cb
  {
    match cb
    case Return(_) =>
    case Do(effect, next) =>
      PerformKeeps(cfg, c, me, effect, inv);
      ExecKeeps(cfg, Perform(cfg, c, me, effect), me, next, inv);
    case Draw(_, _) =>
      assert Apply(cfg, c, Drawing) == Drawn(c);
      ExecKeeps(cfg, Drawn(c), me, Chosen(cb, cfg.tape(c.rng)), inv);
  }

  // ----- Whole runs -----

  lemma MovesIncludeEffects(cfg: Config, inv: Core -> bool)
    requires KeptByMoves(cfg, inv)
    ensures KeptByDispatch(cfg, inv) && KeptByEffects(cfg, inv)
  {
  }

  lemma DispatchIncludesEffects(cfg: Config, inv: Core -> bool)
    requires KeptByDispatch(cfg, inv)
    ensures KeptByEffects(cfg, inv)
  {
  }

  lemma {:induction false} CloseAllKeeps(cfg: Config, c: Core, tokens: seq<nat>, inv: Core -> bool)
    requires inv(c) && KeptByEffects(cfg, inv)
    ensures inv(CloseAll(c, tokens))
    decreases |tokens|
  {
    if tokens == [] {
    } else {
      assert CloseOp(c, tokens[0], Info, Nil) == Apply(cfg, c, Closing(tokens[0], Info, Nil));
      CloseAllKeeps(cfg, CloseOp(c, tokens[0], Info, Nil), tokens[1..], inv);
    }
  }

  lemma {:induction false} PopKeeps(cfg: Config, c: Core, inv: Core -> bool)
    requires inv(c) && KeptByMoves(cfg, inv)
    ensures inv(Pop(cfg, c).0)
    decreases |c.queue|
  {
    if c.queue == [] {
    } else {
      var e := c.queue[MinIndex(c.queue)];
      var c1 := TakeHead(cfg, c);
      assert c1 == Apply(cfg, c, Taking);
      if e.at < cfg.horizon {
        if Fires(cfg, c, e.kind) {
          MovesIncludeEffects(cfg, inv);
          CloseAllKeeps(cfg, c1, Victims(c1, e.kind), inv);
        } else {
          PopKeeps(cfg, c1, inv);
        }
      }
    }
  }

  lemma StartKeeps(cfg: Config, w: World, id: nat, inv: Core -> bool)
    requires inv(w.core) && KeptByEffects(cfg, inv)
    ensures inv(DispatchStart(cfg, w, id).core)
  {
    if id < |w.nodes| {
      ExecKeeps(cfg, w.core, id, cfg.def.onStart(id, w.core.now, w.nodes[id]), inv);
    }
  }

  lemma ClientOpKeeps(cfg: Config, w: World, process: nat, op: FrozenOp, inv: Core -> bool)
    requires |w.nodes| > 0
    requires inv(w.core) && KeptByDispatch(cfg, inv)
    ensures inv(DispatchClientOp(cfg, w, process, op).core)
  {
    DispatchIncludesEffects(cfg, inv);
    var target := Target(op, process, |w.nodes|);
    var token := w.core.nextToken;
    var decoded := if cfg.codec.Some? then cfg.codec.value.decode(op.op) else None;
    match decoded
    case None =>
      var c := OpenOp(w.core, process, OpFunction(op.op), op.op);
      assert c == Apply(cfg, w.core, Opening(process, OpFunction(op.op), op.op));
      assert CloseOp(c, token, Fail, Nil) == Apply(cfg, c, Closing(token, Fail, Nil));
    case Some((f, clientOp)) =>
      var c := OpenOp(w.core, process, f, op.op);
      assert c == Apply(cfg, w.core, Opening(process, f, op.op));
      var cb := cfg.def.onClientOp(target, c.now, clientOp, token, w.nodes[target]);
      ExecKeeps(cfg, c, target, cb, inv);
      var (c1, result) := Exec(cfg, c, target, cb);
      if result.1.Done? {
        var value := cfg.codec.value.encode(f, result.1.response);
        assert CloseOp(c1, token, Ok, value) == Apply(cfg, c1, Closing(token, Ok, value));
      }
  }

  lemma DispatchKeeps(cfg: Config, w: World, kind: EventKind, inv: Core -> bool)
    requires inv(w.core) && KeptByDispatch(cfg, inv)
    ensures inv(Dispatch(cfg, w, kind).core)
  {
    DispatchIncludesEffects(cfg, inv);
    match kind
    case Deliver(from, to, msg) =>
      if to < |w.nodes| {
        ExecKeeps(cfg, w.core, to, cfg.def.onMsg(to, w.core.now, from, msg, w.nodes[to]), inv);
      }
    case Fire(node, timer, _) =>
      if node < |w.nodes| {
        ExecKeeps(cfg, w.core, node, cfg.def.onTimer(node, w.core.now, timer, w.nodes[node]), inv);
      }
    case Issue(process, index) =>
      if index < |cfg.ops| && |w.nodes| > 0 {
        ClientOpKeeps(cfg, w, process, cfg.ops[index], inv);
      }
    case Fault(action) =>
      if action.Restart? {
        StartKeeps(cfg, w, action.node, inv);
      }
  }

  lemma {:induction false} PumpKeeps(cfg: Config, w: World, upTo: nat, inv: Core -> bool)
    requires inv(w.core) && KeptByMoves(cfg, inv)
    ensures inv(Pump(w, upTo).core)
  {
    if upTo == 0 {
    } else {
      PumpKeeps(cfg, w, upTo - 1, inv);
      var w1 := Pump(w, upTo - 1);
      var p := upTo - 1;
      if PumpOne(w1, p) != w1 {
        assert PumpOne(w1, p).core == Apply(cfg, w1.core, Issuing(p, w1.perProcess[p][0]));
      }
    }
  }

  lemma StepKeeps(cfg: Config, w: World, inv: Core -> bool)
    requires inv(w.core) && KeptByMoves(cfg, inv)
    ensures inv(Step(cfg, w).0.core)
  {
    PopKeeps(cfg, w.core, inv);
    var (c, popped) := Pop(cfg, w.core);
    if popped.Some? {
      var w1 := w.(core := c);
      MovesIncludeEffects(cfg, inv);
      DispatchKeeps(cfg, w1, popped.value, inv);
      PumpKeeps(cfg, Dispatch(cfg, w1, popped.value), cfg.nodeCount, inv);
    }
  }

  lemma {:induction false} StartAllKeeps(cfg: Config, w: World, upTo: nat, inv: Core -> bool)
    requires inv(w.core) && KeptByEffects(cfg, inv)
    ensures inv(StartAll(cfg, w, upTo).core)
  {
    if upTo == 0 {
    } else {
      StartAllKeeps(cfg, w, upTo - 1, inv);
      StartKeeps(cfg, StartAll(cfg, w, upTo - 1), upTo - 1, inv);
    }
  }

  /** What holds once the faults are scheduled and is kept by every move holds after any number of
      iterations of the main loop. */
  lemma {:induction false} RunKeeps(cfg: Config, faults: seq<(nat, FaultAction)>, n: nat, inv: Core -> bool)
    requires cfg.nodeCount > 0
    requires inv(ScheduleFaults(NewCore(), faults)) && KeptByMoves(cfg, inv)
    ensures inv(Run(cfg, Init(cfg, faults), n).0.core)
  {
    if n == 0 {
      var w := Boot(cfg, faults);
      MovesIncludeEffects(cfg, inv);
      StartAllKeeps(cfg, w, cfg.nodeCount, inv);
      PumpKeeps(cfg, Snapshot(StartAll(cfg, w, cfg.nodeCount)), cfg.nodeCount, inv);
    } else {
      RunKeeps(cfg, faults, n - 1, inv);
      StepKeeps(cfg, Run(cfg, Init(cfg, faults), n - 1).0, inv);
    }
  }

  /** The same for the history left after force-closing. */
  lemma FinishKeeps(cfg: Config, w: World, inv: Core -> bool)
    requires inv(w.core) && KeptByEffects(cfg, inv)
    ensures inv(Finish(w).core)
  {
    CloseAllKeeps(cfg, w.core, PendingTokens(w.core.pending, w.core.nextToken, None), inv);
  }

  /** Scheduling the faults only fills the queue. */
  lemma {:induction false} FaultsOnlyQueue(c: Core, faults: seq<(nat, FaultAction)>)
    ensures var c' := ScheduleFaults(c, faults);
            c' == c.(queue := c'.queue, seqNo := c'.seqNo)
    decreases |faults|
  {
    if faults == [] {
    } else {
      FaultsOnlyQueue(Enqueue(c, faults[0].0, Fault(faults[0].1)), faults[1..]);
    }
  }
}
