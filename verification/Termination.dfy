/** When the main loop ends. The horizon alone does not see to it: events that take no time never
    bring the clock there. With a positive lower bound on every delay, and a bound on how much one
    callback does, it does. */
module Termination {
  import opened Ops
  import opened Engine
  import opened Runs
  import opened Clock
  import opened Sending

  // ----- Bounded behaviour -----

  /** At most `k` effects on every path, and no timer shorter than `d`. */
  ghost predicate Bounded<A>(cb: Callback<A>, k: nat, d: nat)
    decreases cb
  {
    match cb
    case Return(_) => true
    case Do(effect, next) => k > 0 && (effect.SetTimer? ==> effect.after >= d) && Bounded(next, k - 1, d)
    case Draw(otherwise, cases) => Bounded(otherwise, k, d) && forall i :: 0 <= i < |cases| ==> Bounded(cases[i], k, d)
  }

  ghost predicate BoundedNodes(def: NodeDef, k: nat, d: nat) {
    && (forall me, now, s :: Bounded(def.onStart(me, now, s), k, d))
    && (forall me, now, from, msg, s :: Bounded(def.onMsg(me, now, from, msg, s), k, d))
    && (forall me, now, timer, s :: Bounded(def.onTimer(me, now, timer, s), k, d))
    && (forall me, now, op, token, s :: Bounded(def.onClientOp(me, now, op, token, s), k, d))
  }

  /** No message survives, whatever is drawn. */
  ghost predicate LosesAll(model: NetworkModel) {
    match model.loss
    case Never => false
    case Always => true
    case Coin(hit) => forall draw: u64 :: hit(draw)
  }

  /** Every message takes `d` at least, or none arrives. */
  ghost predicate SlowNetwork(model: NetworkModel, d: nat) {
    d <= model.delayLo * MILLIS || LosesAll(model)
  }

  /** Every delay and every timer is at least `d`, and a callback has at most `k` effects. */
  ghost predicate Paced(cfg: Config, k: nat, d: nat) {
    && 0 < d <= MILLIS
    && SlowNetwork(cfg.model, d)
    && BoundedNodes(cfg.def, k, d)
  }

  /** What one effect can enqueue: a broadcast to everyone, each message duplicated. */
  function PerEffect(cfg: Config): nat {
    2 * cfg.nodeCount + 2
  }

  /** What one iteration can enqueue. */
  function PerStep(cfg: Config, k: nat): nat {
    k * PerEffect(cfg) + cfg.nodeCount
  }

  // ----- How much is enqueued -----

  /** `q'` is `q` with at most `m` more events, none before `t`. */
  ghost predicate Extends(q: seq<Scheduled>, q': seq<Scheduled>, m: nat, t: nat) {
    && q <= q' && |q'| <= |q| + m
    && forall i :: |q| <= i < |q'| ==> t <= q'[i].at
  }

  ghost predicate Grows(c: Core, c': Core, m: nat, d: nat) {
    c'.now == c.now && Extends(c.queue, c'.queue, m, c.now + d)
  }

  lemma GrowsTwice(a: Core, b: Core, c: Core, m: nat, m': nat, d: nat)
    requires Grows(a, b, m, d) && Grows(b, c, m', d)
    ensures Grows(a, c, m + m', d)
  {
    assert forall i :: |a.queue| <= i < |b.queue| ==> c.queue[i] == b.queue[i];
  }

  lemma TransmitGrows(cfg: Config, c: Core, from: nat, to: nat, msg: Msg, delay: nat, dup: bool, d: nat)
    requires d <= delay
    ensures Grows(c, Transmit(cfg, c, from, to, msg, delay, dup), 2, d)
  {
  }

  lemma DeliveryGrows(cfg: Config, c: Core, from: nat, to: nat, msg: Msg, d: nat)
    requires SlowNetwork(cfg.model, d)
    ensures Grows(c, ScheduleDelivery(cfg, c, from, to, msg), 2, d)
  {
    RollHits(cfg, c, c.rng, cfg.model.loss);
    if Connected(c, from, to) && !Hits(cfg, cfg.model.loss, c.rng) {
      var c3, wait, dup := DrawnFor(cfg, c, from, to, msg);
      assert wait * MILLIS >= d;
      TransmitGrows(cfg, c3, from, to, msg, wait * MILLIS, dup, d);
    }
  }

  lemma {:induction false} SendAllGrows(cfg: Config, c: Core, from: nat, to: seq<nat>, msg: Msg, d: nat)
    requires SlowNetwork(cfg.model, d)
    ensures Grows(c, SendAll(cfg, c, from, to, msg), 2 * |to|, d)
    decreases |to|
  {
    if to == [] {
    } else {
      var c1 := ScheduleDelivery(cfg, c, from, to[0], msg);
      DeliveryGrows(cfg, c, from, to[0], msg, d);
      SendAllGrows(cfg, c1, from, to[1..], msg, d);
      GrowsTwice(c, c1, SendAll(cfg, c1, from, to[1..], msg), 2, 2 * |to[1..]|, d);
    }
  }

  lemma {:induction false} PeersBounded(nodeCount: nat, me: nat)
    ensures |Peers(nodeCount, me)| <= nodeCount
  {
    if nodeCount == 0 {
    } else {
      PeersBounded(nodeCount - 1, me);
    }
  }

  lemma PerformGrows(cfg: Config, c: Core, me: nat, effect: Effect, d: nat)
    requires SlowNetwork(cfg.model, d) && (effect.SetTimer? ==> effect.after >= d)
    ensures Grows(c, Perform(cfg, c, me, effect), PerEffect(cfg), d)
  {
    match effect
    case Send(to, msg) => DeliveryGrows(cfg, c, me, to, msg, d);
    case Broadcast(msg) =>
      PeersBounded(cfg.nodeCount, me);
      SendAllGrows(cfg, c, me, Peers(cfg.nodeCount, me), msg, d);
    case _ =>
  }

  lemma {:induction false} ExecGrows<A>(cfg: Config, c: Core, me: nat, cb: Callback<A>, k: nat, d: nat)
    requires SlowNetwork(cfg.model, d) && Bounded(cb, k, d)
    ensures Grows(c, Exec(cfg, c, me, cb).0, k * PerEffect(cfg), d)
    decreases cb
  {
    match cb
    case Return(_) =>
    case Do(effect, next) =>
      var c1 := Perform(cfg, c, me, effect);
      PerformGrows(cfg, c, me, effect, d);
      ExecGrows(cfg, c1, me, next, k - 1, d);
      GrowsTwice(c, c1, Exec(cfg, c1, me, next).0, PerEffect(cfg), (k - 1) * PerEffect(cfg), d);
      assert PerEffect(cfg) + (k - 1) * PerEffect(cfg) == k * PerEffect(cfg);
    case Draw(otherwise, cases) =>
      assert Bounded(Chosen(cb, cfg.tape(c.rng)), k, d);
      ExecGrows(cfg, Drawn(c), me, Chosen(cb, cfg.tape(c.rng)), k, d);
  }

  lemma ClientOpGrows(cfg: Config, w: World, process: nat, op: FrozenOp, k: nat, d: nat)
    requires Paced(cfg, k, d) && |w.nodes| > 0
    ensures Grows(w.core, DispatchClientOp(cfg, w, process, op).core, k * PerEffect(cfg), d)
  {
    var target := Target(op, process, |w.nodes|);
    var decoded := if cfg.codec.Some? then cfg.codec.value.decode(op.op) else None;
    if decoded.Some? {
      var (f, clientOp) := decoded.value;
      var c := OpenOp(w.core, process, f, op.op);
      ExecGrows(cfg, c, target, cfg.def.onClientOp(target, c.now, clientOp, w.core.nextToken, w.nodes[target]), k, d);
    }
  }

  lemma DispatchGrows(cfg: Config, w: World, kind: EventKind, k: nat, d: nat)
    requires Paced(cfg, k, d)
    ensures Grows(w.core, Dispatch(cfg, w, kind).core, k * PerEffect(cfg), d)
  {
    match kind
    case Deliver(from, to, msg) =>
      if to < |w.nodes| {
        ExecGrows(cfg, w.core, to, cfg.def.onMsg(to, w.core.now, from, msg, w.nodes[to]), k, d);
      }
    case Fire(node, timer, _) =>
      if node < |w.nodes| {
        ExecGrows(cfg, w.core, node, cfg.def.onTimer(node, w.core.now, timer, w.nodes[node]), k, d);
      }
    case Issue(process, index) =>
      if index < |cfg.ops| && |w.nodes| > 0 {
        ClientOpGrows(cfg, w, process, cfg.ops[index], k, d);
      }
    case Fault(action) =>
      if action.Restart? && action.node < |w.nodes| {
        ExecGrows(cfg, w.core, action.node, cfg.def.onStart(action.node, w.core.now, w.nodes[action.node]), k, d);
      }
  }

  lemma {:induction false} PumpGrows(w: World, upTo: nat, d: nat)
    requires d <= MILLIS
    ensures Grows(w.core, Pump(w, upTo).core, upTo, d)
  {
    if upTo == 0 {
    } else {
      PumpGrows(w, upTo - 1, d);
      var w1 := Pump(w, upTo - 1);
      GrowsTwice(w.core, w1.core, PumpOne(w1, upTo - 1).core, upTo - 1, 1, d);
    }
  }

  // ----- The measure -----

  function Pow(b: nat, e: nat): (p: nat)
    ensures b > 0 ==> p > 0
  {
    if e == 0 then 1 else b * Pow(b, e - 1)
  }

  lemma MulGrows(b: nat, p: nat)
    requires b > 0
    ensures p <= b * p
  {
  }

  lemma {:induction false} PowMonotone(b: nat, e: nat, f: nat)
    requires b > 0 && e <= f
    ensures Pow(b, e) <= Pow(b, f)
    decreases f
  {
    if e == f {
    } else {
      PowMonotone(b, e, f - 1);
      MulGrows(b, Pow(b, f - 1));
    }
  }

  /** How many periods of length `d` are left before the horizon, rounded up. */
  function Rank(cfg: Config, at: nat, d: nat): nat
    requires d > 0
    decreases cfg.horizon - at
  {
    if at >= cfg.horizon then 0 else 1 + Rank(cfg, at + d, d)
  }

  lemma {:induction false} RankLater(cfg: Config, at: nat, later: nat, d: nat)
    requires d > 0 && at <= later
    ensures Rank(cfg, later, d) <= Rank(cfg, at, d)
    decreases cfg.horizon - at
  {
    if later >= cfg.horizon {
    } else {
      RankLater(cfg, at + d, later + d, d);
    }
  }

  function Weigh(cfg: Config, at: nat, b: nat, d: nat): nat
    requires d > 0
  {
    Pow(b, Rank(cfg, at, d))
  }

  /** Each event weighs as much as all it can cause, and more. */
  function Weight(cfg: Config, q: seq<Scheduled>, b: nat, d: nat): nat
    requires d > 0
  {
    if q == [] then 0 else Weight(cfg, q[..|q| - 1], b, d) + Weigh(cfg, q[|q| - 1].at, b, d)
  }

  lemma WeightSnoc(cfg: Config, q: seq<Scheduled>, e: Scheduled, b: nat, d: nat)
    requires d > 0
    ensures Weight(cfg, q + [e], b, d) == Weight(cfg, q, b, d) + Weigh(cfg, e.at, b, d)
  {
    assert (q + [e])[..|q|] == q;
  }

  lemma {:induction false} WeightWithout(cfg: Config, q: seq<Scheduled>, i: nat, b: nat, d: nat)
    requires d > 0 && i < |q|
    ensures Weight(cfg, q, b, d) == Weight(cfg, Without(q, i), b, d) + Weigh(cfg, q[i].at, b, d)
  {
    var last := |q| - 1;
    if i == last {
      assert Without(q, i) == q[..last];
    } else {
      WeightWithout(cfg, q[..last], i, b, d);
      assert q[i + 1..] == q[..last][i + 1..] + [q[last]];
      assert Without(q, i) == Without(q[..last], i) + [q[last]];
      WeightSnoc(cfg, Without(q[..last], i), q[last], b, d);
    }
  }

  lemma {:induction false} ExtendedWeight(cfg: Config, q: seq<Scheduled>, q': seq<Scheduled>, m: nat, t: nat, b: nat,
      d: nat)
    requires d > 0 && b > 0 && Extends(q, q', m, t)
    ensures Weight(cfg, q', b, d) <= Weight(cfg, q, b, d) + m * Weigh(cfg, t, b, d)
    decreases m
  {
    if |q'| == |q| {
      assert q' == q;
      assert m * Weigh(cfg, t, b, d) >= 0;
    } else {
      var shorter := q'[..|q'| - 1];
      ExtendedWeight(cfg, q, shorter, m - 1, t, b, d);
      RankLater(cfg, t, q'[|q'| - 1].at, d);
      PowMonotone(b, Rank(cfg, q'[|q'| - 1].at, d), Rank(cfg, t, d));
      assert (m - 1) * Weigh(cfg, t, b, d) + Weigh(cfg, t, b, d) == m * Weigh(cfg, t, b, d);
    }
  }

  // ----- Every iteration lowers the measure -----

  lemma {:induction false} ClosedStill(c: Core, tokens: seq<nat>)
    ensures CloseAll(c, tokens).now == c.now && CloseAll(c, tokens).queue == c.queue
    decreases |tokens|
  {
    if tokens == [] {
    } else {
      ClosedStill(CloseOp(c, tokens[0], Info, Nil), tokens[1..]);
    }
  }

  lemma {:induction false} PopLowers(cfg: Config, c: Core, b: nat, d: nat)
    requires d > 0 && b > 0 && Pop(cfg, c).1.Some?
    ensures Pop(cfg, c).0.now < cfg.horizon
    ensures Weight(cfg, Pop(cfg, c).0.queue, b, d) + Weigh(cfg, Pop(cfg, c).0.now, b, d) <= Weight(cfg, c.queue, b, d)
    decreases |c.queue|
  {
    var m := MinIndex(c.queue);
    var head, c1 := c.queue[m], TakeHead(cfg, c);
    TakeShape(cfg, c, head, c1);
    assert c1.queue == Without(c.queue, m);
    WeightWithout(cfg, c.queue, m, b, d);
    if Fires(cfg, c, head.kind) {
      ClosedStill(c1, Victims(c1, head.kind));
    } else {
      PopLowers(cfg, c1, b, d);
    }
  }

  lemma StepGrows(cfg: Config, w: World, k: nat, d: nat)
    requires Paced(cfg, k, d) && Step(cfg, w).1
    ensures Grows(Pop(cfg, w.core).0, Step(cfg, w).0.core, PerStep(cfg, k), d)
  {
    var (c, popped) := Pop(cfg, w.core);
    var w1 := w.(core := c);
    var w2 := Dispatch(cfg, w1, popped.value);
    DispatchGrows(cfg, w1, popped.value, k, d);
    PumpGrows(w2, cfg.nodeCount, d);
    GrowsTwice(c, w2.core, Pump(w2, cfg.nodeCount).core, k * PerEffect(cfg), cfg.nodeCount, d);
  }

  /** An event weighs more than any `m` events a period later. */
  lemma OutweighsAll(cfg: Config, now: nat, m: nat, d: nat)
    requires d > 0 && now < cfg.horizon
    ensures m * Weigh(cfg, now + d, m + 1, d) < Weigh(cfg, now, m + 1, d)
  {
    var p := Weigh(cfg, now + d, m + 1, d);
    assert Weigh(cfg, now, m + 1, d) == (m + 1) * p;
    assert (m + 1) * p == m * p + p;
  }

  lemma GrowthWeight(cfg: Config, c: Core, c': Core, m: nat, d: nat)
    requires d > 0 && c.now < cfg.horizon && Grows(c, c', m, d)
    ensures Weight(cfg, c'.queue, m + 1, d) < Weight(cfg, c.queue, m + 1, d) + Weigh(cfg, c.now, m + 1, d)
  {
    ExtendedWeight(cfg, c.queue, c'.queue, m, c.now + d, m + 1, d);
    OutweighsAll(cfg, c.now, m, d);
  }

  lemma StepLowers(cfg: Config, w: World, k: nat, d: nat)
    requires Paced(cfg, k, d) && Step(cfg, w).1
    ensures Weight(cfg, Step(cfg, w).0.core.queue, PerStep(cfg, k) + 1, d)
          < Weight(cfg, w.core.queue, PerStep(cfg, k) + 1, d)
  {
    var m := PerStep(cfg, k);
    StepGrows(cfg, w, k, d);
    PopLowers(cfg, w.core, m + 1, d);
    GrowthWeight(cfg, Pop(cfg, w.core).0, Step(cfg, w).0.core, m, d);
  }

  lemma {:induction false} RunLowers(cfg: Config, faults: seq<(nat, FaultAction)>, k: nat, d: nat, n: nat)
    requires cfg.nodeCount > 0 && Paced(cfg, k, d) && Run(cfg, Init(cfg, faults), n).1
    ensures Weight(cfg, Run(cfg, Init(cfg, faults), n).0.core.queue, PerStep(cfg, k) + 1, d) + n
         <= Weight(cfg, Init(cfg, faults).core.queue, PerStep(cfg, k) + 1, d)
  {
    if n == 0 {
    } else {
      RunLowers(cfg, faults, k, d, n - 1);
      StepLowers(cfg, Run(cfg, Init(cfg, faults), n - 1).0, k, d);
    }
  }

  /** If every delay and timer is at least `d > 0` and every callback has at most `k` effects, the
      main loop ends, after no more iterations than the weight of what is queued at the start. */
  lemma PacedRunsEnd(cfg: Config, faults: seq<(nat, FaultAction)>, k: nat, d: nat)
    requires cfg.nodeCount > 0 && Paced(cfg, k, d)
    ensures !Run(cfg, Init(cfg, faults), Weight(cfg, Init(cfg, faults).core.queue, PerStep(cfg, k) + 1, d) + 1).1
  {
    var n := Weight(cfg, Init(cfg, faults).core.queue, PerStep(cfg, k) + 1, d) + 1;
    if Run(cfg, Init(cfg, faults), n).1 {
      RunLowers(cfg, faults, k, d, n);
    }
  }

  // ----- Why the bound on delays is needed -----

  /** A node that arms a timer of zero length whenever it runs. */
  function Spinner(t: Timer, s: NodeState): NodeDef {
    NodeDef(
      s,
      (me, now, st) => Do(SetTimer(t, 0), Return(st)),
      (me, now, from, msg, st) => Return(st),
      (me, now, timer, st) => Do(SetTimer(t, 0), Return(st)),
      (me, now, op, token, st) => Return((st, Pending)),
      timer => "t")
  }

  function SpinnerConfig(t: Timer, s: NodeState, tape: nat -> u64, horizon: nat): Config {
    Config(Spinner(t, s), None, tape, NetworkModel(0, 0, Never, Never, true), horizon, 1, [])
  }

  ghost predicate Spinning(cfg: Config, w: World, t: Timer) {
    && |w.nodes| == |w.perProcess| == |w.scheduled| == 1 && w.perProcess[0] == []
    && w.core.now == 0 && w.core.crashed == []
    && |w.core.queue| == 1 && w.core.queue[0].at == 0
    && w.core.queue[0].kind == Fire(0, t, Generation(w.core, TimerKey(cfg, 0, t)))
  }

  lemma ArmOnly(cfg: Config, c: Core, t: Timer, s: NodeState)
    ensures Exec(cfg, c, 0, Do(SetTimer(t, 0), Return(s))) == (ArmTimer(cfg, c, 0, t, 0), s)
  {
    assert Exec(cfg, ArmTimer(cfg, c, 0, t, 0), 0, Return(s)) == (ArmTimer(cfg, c, 0, t, 0), s);
  }

  lemma SpinOnce(t: Timer, s: NodeState, tape: nat -> u64, horizon: nat, w: World, kind: EventKind)
    requires |w.nodes| == |w.perProcess| == |w.scheduled| == 1 && w.perProcess[0] == []
    requires w.core.now == 0 && w.core.crashed == [] && w.core.queue == []
    requires kind.Fire? && kind.node == 0
    ensures var cfg := SpinnerConfig(t, s, tape, horizon);
            Spinning(cfg, Snapshot(Pump(Dispatch(cfg, w, kind), 1)), t)
  {
    var cfg := SpinnerConfig(t, s, tape, horizon);
    var w1 := Dispatch(cfg, w, kind);
    ArmOnly(cfg, w.core, t, w.nodes[0]);
    assert w1.core == ArmTimer(cfg, w.core, 0, t, 0);
    assert Pump(w1, 0) == w1;
    assert PumpOne(w1, 0) == w1;
  }

  lemma SpinsOn(t: Timer, s: NodeState, tape: nat -> u64, horizon: nat, w: World)
    requires horizon > 0 && Spinning(SpinnerConfig(t, s, tape, horizon), w, t)
    ensures var (w', more) := Step(SpinnerConfig(t, s, tape, horizon), w);
            more && Spinning(SpinnerConfig(t, s, tape, horizon), w', t)
  {
    var cfg := SpinnerConfig(t, s, tape, horizon);
    var c := w.core;
    var c1 := TakeHead(cfg, c);
    assert Fires(cfg, c, c.queue[0].kind);
    assert c1.queue == [] && c1.now == 0 && c1.timerGen == c.timerGen;
    assert Pop(cfg, c) == (c1, Some(c.queue[0].kind));
    SpinOnce(t, s, tape, horizon, w.(core := c1), c.queue[0].kind);
  }

  /** The horizon does not bound a run: with that node the main loop never ends, for any horizon
      and any draws. */
  lemma {:induction false} SpinnerNeverEnds(t: Timer, s: NodeState, tape: nat -> u64, horizon: nat, n: nat)
    requires horizon > 0
    ensures var cfg := SpinnerConfig(t, s, tape, horizon);
            Run(cfg, Init(cfg, []), n).1 && Spinning(cfg, Run(cfg, Init(cfg, []), n).0, t)
  {
    var cfg := SpinnerConfig(t, s, tape, horizon);
    if n == 0 {
      var w := Boot(cfg, []);
      var w1 := StartAll(cfg, w, 1);
      assert StartAll(cfg, w, 0) == w;
      ArmOnly(cfg, w.core, t, s);
      assert w1.core == ArmTimer(cfg, NewCore(), 0, t, 0);
      assert Pump(Snapshot(w1), 0) == Snapshot(w1);
      assert PumpOne(Snapshot(w1), 0) == Snapshot(w1);
    } else {
      SpinnerNeverEnds(t, s, tape, horizon, n - 1);
      SpinsOn(t, s, tape, horizon, Run(cfg, Init(cfg, []), n - 1).0);
    }
  }
}
