/** Which networks let paced nodes come to an end: those that delay every message, or lose every one. On
    any other network a node that answers itself keeps the clock where it is. */
module Echoes {
  import opened Ops
  import opened Engine
  import opened Runs
  import opened Termination

  // ----- Draws -----

  /** How many outputs one message uses. */
  function Draws(model: NetworkModel): nat {
    (if model.loss.Coin? then 1 else 0) + (if model.delayHi <= model.delayLo then 0 else 1)
    + (if model.duplicate.Coin? then 1 else 0)
  }

  /** A position on the tape where a message begins to draw. */
  predicate Aligned(model: NetworkModel, position: nat) {
    Draws(model) > 0 ==> position % Draws(model) == 0
  }

  lemma NextAligned(model: NetworkModel, position: nat)
    requires Aligned(model, position)
    ensures Aligned(model, position + Draws(model))
  {
  }

  /** A message that draws from here on is neither lost nor delayed. */
  ghost predicate LetsNext(model: NetworkModel, tape: nat -> u64, position: nat) {
    && (model.loss.Coin? ==> !model.loss.hit(tape(position)))
    && (model.delayHi > 0 ==> tape(position + if model.loss.Coin? then 1 else 0) % model.delayHi == 0)
  }

  /** No message is lost and none is delayed. */
  ghost predicate LetsThrough(model: NetworkModel, tape: nat -> u64) {
    && model.delayLo == 0 && !model.loss.Always?
    && forall position :: Aligned(model, position) ==> LetsNext(model, tape, position)
  }

  // ----- The node -----

  /** A node that sends itself a message whenever it runs. */
  function Echo(msg: Msg, s: NodeState): NodeDef {
    NodeDef(
      s,
      (me, now, st) => Do(Send(0, msg), Return(st)),
      (me, now, from, m, st) => Do(Send(0, msg), Return(st)),
      (me, now, timer, st) => Return(st),
      (me, now, op, token, st) => Return((st, Pending)),
      timer => "t")
  }

  function EchoConfig(msg: Msg, s: NodeState, model: NetworkModel, tape: nat -> u64, horizon: nat): Config {
    Config(Echo(msg, s), None, tape, model, horizon, 1, [])
  }

  /** What a message to oneself at time zero needs. */
  ghost predicate Quiet(model: NetworkModel, c: Core) {
    && c.now == 0 && c.crashed == [] && c.partitions == [] && Aligned(model, c.rng)
    && ((0, 0) in c.lastLink ==> c.lastLink[(0, 0)] == 0)
  }

  ghost predicate Echoing(model: NetworkModel, w: World, msg: Msg) {
    && |w.nodes| == |w.perProcess| == |w.scheduled| == 1 && w.perProcess[0] == []
    && Quiet(model, w.core) && w.core.queue != []
    && forall i :: 0 <= i < |w.core.queue| ==> w.core.queue[i].at == 0 && w.core.queue[i].kind == Deliver(0, 0, msg)
  }

  /** One or two copies arrive at once. */
  ghost predicate Echoed(q: seq<Scheduled>, q': seq<Scheduled>, msg: Msg) {
    && |q| < |q'| && q <= q'
    && forall i :: |q| <= i < |q'| ==> q'[i].at == 0 && q'[i].kind == Deliver(0, 0, msg)
  }

  lemma TransmitNow(cfg: Config, c: Core, msg: Msg, dup: bool) returns (c': Core)
    requires Quiet(cfg.model, c)
    ensures c' == Transmit(cfg, c, 0, 0, msg, 0, dup) && Quiet(cfg.model, c') && Echoed(c.queue, c'.queue, msg)
  {
    c' := Transmit(cfg, c, 0, 0, msg, 0, dup);
  }

  lemma SendNow(cfg: Config, c: Core, msg: Msg) returns (c': Core)
    requires Quiet(cfg.model, c) && LetsThrough(cfg.model, cfg.tape)
    ensures c' == ScheduleDelivery(cfg, c, 0, 0, msg) && Quiet(cfg.model, c') && Echoed(c.queue, c'.queue, msg)
  {
    var model := cfg.model;
    assert Connected(c, 0, 0);
    assert LetsNext(model, cfg.tape, c.rng);
    var (c1, lost) := Roll(cfg, c, model.loss);
    assert !lost && c1.rng == c.rng + if model.loss.Coin? then 1 else 0;
    var (c2, delay) := Range(cfg, c1, model.delayLo, model.delayHi);
    assert delay == 0;
    var (c3, dup) := Roll(cfg, c2, model.duplicate);
    NextAligned(model, c.rng);
    assert c3 == c.(rng := c.rng + Draws(model));
    c' := TransmitNow(cfg, c3, msg, dup);
  }

  lemma SendOnly(cfg: Config, msg: Msg, c: Core, st: NodeState) returns (c': Core)
    requires Quiet(cfg.model, c) && LetsThrough(cfg.model, cfg.tape)
    ensures Exec(cfg, c, 0, Do(Send(0, msg), Return(st))) == (c', st)
    ensures Quiet(cfg.model, c') && Echoed(c.queue, c'.queue, msg)
  {
    c' := SendNow(cfg, c, msg);
    assert Exec(cfg, c', 0, Return(st)) == (c', st);
  }

  // ----- It never ends -----

  lemma NothingToPump(w: World)
    requires |w.perProcess| == |w.scheduled| == 1 && w.perProcess[0] == []
    ensures Pump(w, 1) == w
  {
    assert Pump(w, 0) == w;
    assert PumpOne(w, 0) == w;
  }

  lemma EchoOnce(msg: Msg, s: NodeState, model: NetworkModel, tape: nat -> u64, horizon: nat, w: World)
    requires LetsThrough(model, tape)
    requires |w.nodes| == |w.perProcess| == |w.scheduled| == 1 && w.perProcess[0] == [] && Quiet(model, w.core)
    requires forall i :: 0 <= i < |w.core.queue| ==>
               w.core.queue[i].at == 0 && w.core.queue[i].kind == Deliver(0, 0, msg)
    ensures Echoing(model, Snapshot(Pump(Dispatch(EchoConfig(msg, s, model, tape, horizon), w, Deliver(0, 0, msg)), 1)),
                msg)
  {
    var cfg := EchoConfig(msg, s, model, tape, horizon);
    var w1 := Dispatch(cfg, w, Deliver(0, 0, msg));
    var c := SendOnly(cfg, msg, w.core, w.nodes[0]);
    assert w1.core == c;
    NothingToPump(w1);
  }

  lemma EchoesOn(msg: Msg, s: NodeState, model: NetworkModel, tape: nat -> u64, horizon: nat, w: World)
    returns (w': World)
    requires LetsThrough(model, tape) && horizon > 0 && Echoing(model, w, msg)
    ensures Step(EchoConfig(msg, s, model, tape, horizon), w) == (w', true) && Echoing(model, w', msg)
  {
    var cfg := EchoConfig(msg, s, model, tape, horizon);
    var c := w.core;
    var m := MinIndex(c.queue);
    var c1 := TakeHead(cfg, c);
    assert c1.queue == Without(c.queue, m) && Quiet(model, c1);
    assert Pop(cfg, c) == (c1, Some(Deliver(0, 0, msg)));
    EchoOnce(msg, s, model, tape, horizon, w.(core := c1));
    w' := Step(cfg, w).0;
  }

  lemma EchoStarts(msg: Msg, s: NodeState, model: NetworkModel, tape: nat -> u64, horizon: nat) returns (w0: World)
    requires LetsThrough(model, tape)
    ensures w0 == Init(EchoConfig(msg, s, model, tape, horizon), []) && Echoing(model, w0, msg)
  {
    var cfg := EchoConfig(msg, s, model, tape, horizon);
    var w := Boot(cfg, []);
    var w1 := StartAll(cfg, w, 1);
    assert StartAll(cfg, w, 0) == w;
    var c := SendOnly(cfg, msg, w.core, s);
    assert w1.core == c;
    NothingToPump(Snapshot(w1));
    w0 := Init(cfg, []);
  }

  lemma {:induction false} Rounds(
    msg: Msg, s: NodeState, model: NetworkModel, tape: nat -> u64, horizon: nat, w0: World, n: nat)
    returns (w: World)
    requires LetsThrough(model, tape) && horizon > 0 && Echoing(model, w0, msg)
    ensures Run(EchoConfig(msg, s, model, tape, horizon), w0, n) == (w, true) && Echoing(model, w, msg)
  {
    if n == 0 {
      w := w0;
    } else {
      var before := Rounds(msg, s, model, tape, horizon, w0, n - 1);
      w := EchoesOn(msg, s, model, tape, horizon, before);
    }
  }

  const DEFAULT_NETWORK: NetworkModel := NetworkModel(0, 0, Never, Never, true)

  /** A bound on timers alone is not enough: on the default network, which delivers at once and loses
      nothing, the main loop never ends with that node, for any horizon and any draws. */
  lemma EchoNeverEnds(msg: Msg, s: NodeState, tape: nat -> u64, horizon: nat, n: nat)
    requires horizon > 0
    ensures var cfg := EchoConfig(msg, s, DEFAULT_NETWORK, tape, horizon);
            Run(cfg, Init(cfg, []), n).1 && Echoing(DEFAULT_NETWORK, Run(cfg, Init(cfg, []), n).0, msg)
  {
    var w0 := EchoStarts(msg, s, DEFAULT_NETWORK, tape, horizon);
    var w := Rounds(msg, s, DEFAULT_NETWORK, tape, horizon, w0, n);
  }

  // ----- The theorem -----

  ghost predicate Ends(cfg: Config, faults: seq<(nat, FaultAction)>)
    requires cfg.nodeCount > 0
  {
    exists n :: !Run(cfg, Init(cfg, faults), n).1
  }

  /** Runs on a network end: whatever the nodes, if their timers take some time and their callbacks have
      boundedly many effects, and whatever the codec, draws, ops, horizon and faults. */
  ghost predicate PacedNodesEnd(model: NetworkModel) {
    forall cfg: Config, k: nat, d: nat ::
      cfg.nodeCount > 0 && cfg.model == model && d > 0 && BoundedNodes(cfg.def, k, d) ==>
        forall faults :: Ends(cfg, faults)
  }

  lemma {:induction false} BoundedLower<A>(cb: Callback<A>, k: nat, d: nat, lower: nat)
    requires Bounded(cb, k, d) && lower <= d
    ensures Bounded(cb, k, lower)
    decreases cb
  {
    match cb
    case Return(_) =>
    case Do(effect, next) => BoundedLower(next, k - 1, d, lower);
    case Draw(otherwise, cases) =>
      BoundedLower(otherwise, k, d, lower);
      forall i | 0 <= i < |cases| ensures Bounded(cases[i], k, lower) {
        BoundedLower(cases[i], k, d, lower);
      }
  }

  lemma NodesLower(def: NodeDef, k: nat, d: nat, lower: nat)
    requires BoundedNodes(def, k, d) && lower <= d
    ensures BoundedNodes(def, k, lower)
  {
    forall me, now, s ensures Bounded(def.onStart(me, now, s), k, lower) {
      BoundedLower(def.onStart(me, now, s), k, d, lower);
    }
    forall me, now, from, msg, s ensures Bounded(def.onMsg(me, now, from, msg, s), k, lower) {
      BoundedLower(def.onMsg(me, now, from, msg, s), k, d, lower);
    }
    forall me, now, timer, s ensures Bounded(def.onTimer(me, now, timer, s), k, lower) {
      BoundedLower(def.onTimer(me, now, timer, s), k, d, lower);
    }
    forall me, now, op, token, s ensures Bounded(def.onClientOp(me, now, op, token, s), k, lower) {
      BoundedLower(def.onClientOp(me, now, op, token, s), k, d, lower);
    }
  }

  lemma NotAligned(n: nat, position: nat)
    requires 2 <= n <= 3 && position % n == 0
    ensures (position + 1) % n == 1
  {
  }

  lemma ZeroDelay(hi: u64)
    requires hi > 0
    ensures 0 % hi == 0
  {
  }

  /** Zeros, but for `kept` wherever a message begins to draw. */
  function Kept(model: NetworkModel, kept: u64): nat -> u64 {
    (position: nat) => if Aligned(model, position) then kept else 0
  }

  lemma KeptLets(model: NetworkModel, kept: u64, position: nat)
    requires model.delayLo == 0 && model.loss.Coin? && !model.loss.hit(kept) && Aligned(model, position)
    ensures LetsNext(model, Kept(model, kept), position)
  {
    if model.delayHi > 0 {
      NotAligned(Draws(model), position);
      ZeroDelay(model.delayHi);
    }
  }

  lemma ZerosLet(model: NetworkModel, position: nat)
    requires model.delayLo == 0 && model.loss.Never?
    ensures LetsNext(model, Kept(model, 0), position)
  {
    if model.delayHi > 0 {
      ZeroDelay(model.delayHi);
    }
  }

  /** A tape on which every message gets through at once. */
  lemma Through(model: NetworkModel) returns (tape: nat -> u64)
    requires model.delayLo == 0 && !LosesAll(model)
    ensures LetsThrough(model, tape)
  {
    if model.loss.Coin? {
      var kept: u64 :| !model.loss.hit(kept);
      tape := Kept(model, kept);
      forall position | Aligned(model, position) ensures LetsNext(model, tape, position) {
        KeptLets(model, kept, position);
      }
    } else {
      tape := Kept(model, 0);
      forall position | Aligned(model, position) ensures LetsNext(model, tape, position) {
        ZerosLet(model, position);
      }
    }
  }

  lemma EchoBounded(msg: Msg, s: NodeState)
    ensures BoundedNodes(Echo(msg, s), 1, 1)
  {
    var def := Echo(msg, s);
    forall me, now, st ensures Bounded(def.onStart(me, now, st), 1, 1) {
      assert Bounded(Callback.Return(st), 0, 1);
    }
    forall me, now, from, m, st ensures Bounded(def.onMsg(me, now, from, m, st), 1, 1) {
      assert Bounded(Callback.Return(st), 0, 1);
    }
    forall me, now, timer, st ensures Bounded(def.onTimer(me, now, timer, st), 1, 1) {
      assert def.onTimer(me, now, timer, st) == Return(st);
    }
    forall me, now, op, token, st ensures Bounded(def.onClientOp(me, now, op, token, st), 1, 1) {
      assert def.onClientOp(me, now, op, token, st) == Return((st, Pending));
    }
  }

  /** On a network, paced nodes always come to an end exactly if every message takes time, or every message is
      lost. */
  lemma NetworksThatEnd(msg: Msg, s: NodeState, model: NetworkModel)
    ensures PacedNodesEnd(model) <==> model.delayLo > 0 || LosesAll(model)
  {
    if model.delayLo > 0 || LosesAll(model) {
      forall cfg: Config, k: nat, d: nat
        | cfg.nodeCount > 0 && cfg.model == model && d > 0 && BoundedNodes(cfg.def, k, d)
        ensures forall faults :: Ends(cfg, faults)
      {
        var lower := if d < MILLIS then d else MILLIS;
        NodesLower(cfg.def, k, d, lower);
        forall faults ensures Ends(cfg, faults) {
          PacedRunsEnd(cfg, faults, k, lower);
        }
      }
    } else {
      var tape := Through(model);
      var cfg := EchoConfig(msg, s, model, tape, 1);
      EchoBounded(msg, s);
      var w0 := EchoStarts(msg, s, model, tape, 1);
      forall n ensures Run(cfg, Init(cfg, []), n).1 {
        var w := Rounds(msg, s, model, tape, 1, w0, n);
      }
      assert !Ends(cfg, []);
    }
  }
}
