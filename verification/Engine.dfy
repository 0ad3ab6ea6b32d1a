/** The deterministic discrete-event engine as a state machine
    (crates/propsim-sim/src/scheduler.rs, ctx.rs and the driver in lib.rs).

    Node code is arbitrary: a callback is any finite tree of effects and random draws. Times are
    nanoseconds. The random source is a tape of u64 outputs; module Rng shows that a seeded
    SplitMix64 generator is one. */
module Engine {
  import opened Ops

  type Msg(!new)
  type Timer(!new)
  type NodeState(!new)
  type ClientOp(!new)
  type Response(!new)

  const MILLIS: nat := 1_000_000

  // ----- What a node may do -----

  datatype Completion = Succeeded(response: Response) | Failed | Indeterminate

  datatype Outcome = Done(response: Response) | Pending

  datatype Effect =
    | Send(to: nat, msg: Msg)
    | Broadcast(msg: Msg)
    | SetTimer(timer: Timer, after: nat)
    | CancelTimer(timer: Timer)
    | CompleteOp(token: nat, completion: Completion)

  /** One callback invocation: effects in order, random draws whose value selects what follows
      (one case per possible output), and a final result. */
  datatype Callback<+A> =
    | Return(result: A)
    | Do(effect: Effect, next: Callback<A>)
    | Draw(otherwise: Callback<A>, cases: seq<Callback<A>>)

  /** The node under test. Callbacks see their own id, the virtual time and the node's state. */
  datatype NodeDef = NodeDef(
    default: NodeState,
    onStart: (nat, nat, NodeState) -> Callback<NodeState>,
    onMsg: (nat, nat, nat, Msg, NodeState) -> Callback<NodeState>,
    onTimer: (nat, nat, Timer, NodeState) -> Callback<NodeState>,
    onClientOp: (nat, nat, ClientOp, nat, NodeState) -> Callback<(NodeState, Outcome)>,
    timerKey: Timer -> string)

  datatype Codec = Codec(
    decode: Value -> Option<(string, ClientOp)>,
    encode: (string, Response) -> Value)

  // ----- The network and the run configuration -----

  /** A probability, by how it is rolled: 0 and 1 consume no randomness, anything between
      compares one draw with a threshold. */
  datatype Prob = Never | Always | Coin(hit: u64 -> bool)

  datatype NetworkModel = NetworkModel(delayLo: u64, delayHi: u64, loss: Prob, duplicate: Prob, ordered: bool)

  datatype FrozenOp = FrozenOp(process: nat, route: Option<nat>, op: Value)

  datatype FaultAction =
    | Partition(left: seq<nat>, right: seq<nat>)
    | HealAll
    | Crash(node: nat)
    | Restart(node: nat)

  datatype RunEvent = NetworkHealed(at: nat) | NodeRejoined(at: nat, node: nat)

  /** What stays fixed during one run. */
  datatype Config = Config(
    def: NodeDef,
    codec: Option<Codec>,
    tape: nat -> u64,
    model: NetworkModel,
    horizon: nat,
    nodeCount: nat,
    ops: seq<FrozenOp>)

  // ----- Scheduler state -----

  datatype EventKind =
    | Deliver(from: nat, to: nat, msg: Msg)
    | Fire(node: nat, timer: Timer, gen: nat)
    | Issue(process: nat, index: nat)
    | Fault(action: FaultAction)

  datatype Scheduled = Scheduled(at: nat, seqNo: nat, kind: EventKind)

  datatype PendingOp = PendingOp(process: nat, f: string)

  /** What an observer of the scheduler would write down. */
  datatype LogEvent =
    | Sent(sent: Scheduled, copies: nat)
    | Armed(armed: Scheduled, when: nat, after: nat)
    | Cancelled(node: nat, key: string)
    | Taken(taken: Scheduled, fired: bool)

  /** `SchedCore`. `rng` is the position on the tape; `queue` holds the pending events in the order
      they were enqueued. `tokens` (the token behind each history entry) and `log` are history
      variables: nothing reads them back. */
  datatype Core = Core(
    now: nat,
    rng: nat,
    queue: seq<Scheduled>,
    seqNo: nat,
    timerGen: map<(nat, string), nat>,
    partitions: seq<seq<nat>>,
    crashed: seq<nat>,
    lastLink: map<(nat, nat), nat>,
    history: seq<OpEntry>,
    events: seq<RunEvent>,
    pending: map<nat, PendingOp>,
    nextToken: nat,
    tokens: seq<nat>,
    log: seq<LogEvent>)

  function NewCore(): Core {
    Core(0, 0, [], 0, map[], [], [], map[], [], [], map[], 0, [], [])
  }

  // ----- Client operations in the history -----

  function NowNanos(now: nat): i64 {
    if now < TWO_63 then now else TWO_63 - 1
  }

  function Record(c: Core, token: nat, kind: OpKind, process: nat, f: string, value: Value): Core {
    var entry := OpEntry(|c.history|, Time(NowNanos(c.now), Virtual), kind, process, f, value);
    c.(history := c.history + [entry], tokens := c.tokens + [token])
  }

  /** Record an invoke; its token is `c.nextToken`. */
  function OpenOp(c: Core, process: nat, f: string, value: Value): Core {
    Record(c, c.nextToken, Invoke, process, f, value)
      .(nextToken := c.nextToken + 1, pending := c.pending[c.nextToken := PendingOp(process, f)])
  }

  /** Record the terminal entry of a pending op; nothing happens for an unknown or closed token. */
  function CloseOp(c: Core, token: nat, kind: OpKind, value: Value): Core {
    if token in c.pending then
      Record(c, token, kind, c.pending[token].process, c.pending[token].f, value)
        .(pending := c.pending - {token})
    else c
  }

  /** Pending tokens below `bound` whose process is selected, in ascending order. */
  function PendingTokens(pending: map<nat, PendingOp>, bound: nat, process: Option<nat>): seq<nat> {
    if bound == 0 then []
    else
      PendingTokens(pending, bound - 1, process) +
      (if bound - 1 in pending &&
          (process.None? || pending[bound - 1].process == process.value) then [bound - 1] else [])
  }

  function CloseAll(c: Core, tokens: seq<nat>): Core
    decreases |tokens|
  {
    if tokens == [] then c else CloseAll(CloseOp(c, tokens[0], Info, Nil), tokens[1..])
  }

  function ForceClosePending(c: Core): Core {
    CloseAll(c, PendingTokens(c.pending, c.nextToken, None))
  }

  function ClosedFor(history: seq<OpEntry>, process: nat): nat {
    if history == [] then 0
    else
      var e := history[|history| - 1];
      ClosedFor(history[..|history| - 1], process) + (if e.process == process && !e.kind.Invoke? then 1 else 0)
  }

  // ----- Randomness -----

  function Drawn(c: Core): Core {
    c.(rng := c.rng + 1)
  }

  function Roll(cfg: Config, c: Core, p: Prob): (Core, bool) {
    match p
    case Never => (c, false)
    case Always => (c, true)
    case Coin(hit) => (Drawn(c), hit(cfg.tape(c.rng)))
  }

  /** A u64 in `[lo, hi)`, or `lo` when that is empty. */
  function Range(cfg: Config, c: Core, lo: u64, hi: u64): (Core, nat) {
    if hi <= lo then (c, lo) else (Drawn(c), lo + cfg.tape(c.rng) % (hi - lo))
  }

  // ----- Messages -----

  function Enqueue(c: Core, at: nat, kind: EventKind): Core {
    c.(queue := c.queue + [Scheduled(at, c.seqNo, kind)], seqNo := c.seqNo + 1)
  }

  predicate Connected(c: Core, a: nat, b: nat) {
    && a !in c.crashed
    && b !in c.crashed
    && (c.partitions == [] || exists g :: g in c.partitions && a in g && b in g)
  }

  /** Put a message that survived loss on the wire, once or twice. */
  function Transmit(cfg: Config, c: Core, from: nat, to: nat, msg: Msg, delay: nat, dup: bool): Core {
    var floor := if (from, to) in c.lastLink then c.lastLink[(from, to)] else 0;
    var at := if cfg.model.ordered && c.now + delay < floor then floor else c.now + delay;
    var c1 := if cfg.model.ordered then c.(lastLink := c.lastLink[(from, to) := at]) else c;
    var c2 := Enqueue(c1, at, Deliver(from, to, msg));
    var c3 := if dup then Enqueue(c2, at, Deliver(from, to, msg)) else c2;
    c3.(log := c.log + [Sent(Scheduled(at, c.seqNo, Deliver(from, to, msg)), if dup then 2 else 1)])
  }

  function ScheduleDelivery(cfg: Config, c: Core, from: nat, to: nat, msg: Msg): Core {
    if !Connected(c, from, to) then c
    else
      var (c1, lost) := Roll(cfg, c, cfg.model.loss);
      if lost then c1
      else
        var (c2, delay) := Range(cfg, c1, cfg.model.delayLo, cfg.model.delayHi);
        var (c3, dup) := Roll(cfg, c2, cfg.model.duplicate);
        Transmit(cfg, c3, from, to, msg, delay * MILLIS, dup)
  }

  function Peers(nodeCount: nat, me: nat): seq<nat> {
    if nodeCount == 0 then []
    else Peers(nodeCount - 1, me) + (if nodeCount - 1 == me then [] else [nodeCount - 1])
  }

  function SendAll(cfg: Config, c: Core, from: nat, to: seq<nat>, msg: Msg): Core
    decreases |to|
  {
    if to == [] then c else SendAll(cfg, ScheduleDelivery(cfg, c, from, to[0], msg), from, to[1..], msg)
  }

  // ----- Timers -----

  /** A timer is identified by its node and the text of its tag. */
  function TimerKey(cfg: Config, node: nat, timer: Timer): (nat, string) {
    (node, cfg.def.timerKey(timer))
  }

  function Generation(c: Core, key: (nat, string)): nat {
    if key in c.timerGen then c.timerGen[key] else 0
  }

  function ArmTimer(cfg: Config, c: Core, node: nat, timer: Timer, after: nat): Core {
    var key := TimerKey(cfg, node, timer);
    var gen := Generation(c, key) + 1;
    var c1 := c.(timerGen := c.timerGen[key := gen]);
    var event := Scheduled(c.now + after, c.seqNo, Fire(node, timer, gen));
    Enqueue(c1, event.at, event.kind).(log := c.log + [Armed(event, c.now, after)])
  }

  function DisarmTimer(cfg: Config, c: Core, node: nat, timer: Timer): Core {
    var key := TimerKey(cfg, node, timer);
    c.(timerGen := c.timerGen[key := Generation(c, key) + 1], log := c.log + [Cancelled(key.0, key.1)])
  }

  predicate TimerIsCurrent(cfg: Config, c: Core, node: nat, timer: Timer, gen: nat) {
    Generation(c, TimerKey(cfg, node, timer)) == gen
  }

  // ----- Taking events off the queue -----

  /** The order of the heap. */
  predicate Before(a: Scheduled, b: Scheduled) {
    a.at < b.at || (a.at == b.at && a.seqNo < b.seqNo)
  }

  function MinIndex(q: seq<Scheduled>): (m: nat)
    requires q != []
    ensures m < |q|
    ensures forall i :: 0 <= i < |q| ==> !Before(q[i], q[m])
  {
    if |q| == 1 then 0
    else
      var m := 1 + MinIndex(q[1..]);
      if Before(q[m], q[0]) then m else 0
  }

  function Without<T>(s: seq<T>, i: nat): seq<T>
    requires i < |s|
  {
    s[..i] + s[i + 1..]
  }

  function RemoveAll(s: seq<nat>, n: nat): (r: seq<nat>)
    ensures forall m :: m in r <==> m in s && m != n
  {
    if s == [] then [] else (if s[0] == n then [] else [s[0]]) + RemoveAll(s[1..], n)
  }

  /** The part of a fault that acts on the network. */
  function Inject(c: Core, action: FaultAction): (r: Core)
    ensures r == c.(partitions := r.partitions, crashed := r.crashed, events := r.events)
  {
    match action
    case Partition(a, b) => c.(partitions := [a, b])
    case HealAll => c.(partitions := [], events := c.events + [NetworkHealed(c.now)])
    case Crash(n) => if n in c.crashed then c else c.(crashed := c.crashed + [n])
    case Restart(n) => c.(crashed := RemoveAll(c.crashed, n), events := c.events + [NodeRejoined(c.now, n)])
  }

  /** Whether the driver gets to see an event: stale timers and events for crashed nodes are dropped. */
  predicate Fires(cfg: Config, c: Core, kind: EventKind) {
    match kind
    case Fire(node, timer, gen) => TimerIsCurrent(cfg, c, node, timer, gen) && node !in c.crashed
    case Deliver(from, to, msg) => to !in c.crashed
    case Issue(_, _) => true
    case Fault(_) => true
  }

  /** Take the least event off the queue: either the run stops at the horizon, or the clock moves
      to the event. */
  function TakeHead(cfg: Config, c: Core): Core
    requires c.queue != []
  {
    var m := MinIndex(c.queue);
    var e := c.queue[m];
    var c1 := c.(queue := Without(c.queue, m));
    if e.at >= cfg.horizon then c1.(now := cfg.horizon)
    else
      var c2 := c1.(now := e.at, log := c.log + [Taken(e, Fires(cfg, c, e.kind))]);
      if e.kind.Fault? then Inject(c2, e.kind.action) else c2
  }

  /** The ops a fault leaves without a server. */
  function Victims(c: Core, kind: EventKind): seq<nat> {
    if kind.Fault? && kind.action.Crash?
    then PendingTokens(c.pending, c.nextToken, Some(kind.action.node))
    else []
  }

  /** `pop`: the next event the driver acts on, if any. */
  function Pop(cfg: Config, c: Core): (Core, Option<EventKind>)
    decreases |c.queue|
  {
    if c.queue == [] then (c, None)
    else
      var e := c.queue[MinIndex(c.queue)];
      var c1 := TakeHead(cfg, c);
      if e.at >= cfg.horizon then (c1, None)
      else if Fires(cfg, c, e.kind) then (CloseAll(c1, Victims(c1, e.kind)), Some(e.kind))
      else Pop(cfg, c1)
  }

  // ----- Running a callback -----

  function Complete(cfg: Config, c: Core, token: nat, completion: Completion): Core {
    match completion
    case Succeeded(response) =>
      var value := if cfg.codec.Some? && token in c.pending
                   then cfg.codec.value.encode(c.pending[token].f, response) else Nil;
      CloseOp(c, token, Ok, value)
    case Failed => CloseOp(c, token, Fail, Nil)
    case Indeterminate => CloseOp(c, token, Info, Nil)
  }

  function Perform(cfg: Config, c: Core, me: nat, effect: Effect): Core {
    match effect
    case Send(to, msg) => ScheduleDelivery(cfg, c, me, to, msg)
    case Broadcast(msg) => SendAll(cfg, c, me, Peers(cfg.nodeCount, me), msg)
    case SetTimer(timer, after) => ArmTimer(cfg, c, me, timer, after)
    case CancelTimer(timer) => DisarmTimer(cfg, c, me, timer)
    case CompleteOp(token, completion) => Complete(cfg, c, token, completion)
  }

  function Chosen<A>(cb: Callback<A>, draw: u64): (next: Callback<A>)
    requires cb.Draw?
    ensures next < cb
  {
    if draw < |cb.cases| then cb.cases[draw] else cb.otherwise
  }

  function Exec<A>(cfg: Config, c: Core, me: nat, cb: Callback<A>): (Core, A)
    decreases cb
  {
    match cb
    case Return(a) => (c, a)
    case Do(effect, next) => Exec(cfg, Perform(cfg, c, me, effect), me, next)
    case Draw(_, _) => Exec(cfg, Drawn(c), me, Chosen(cb, cfg.tape(c.rng)))
  }

  // ----- The driver -----

  /** The engine between two iterations of the main loop. `perProcess` holds the op indices still
      to be issued, `scheduled` how many were issued so far, `frames` the recorded snapshots. */
  datatype World = World(
    core: Core,
    nodes: seq<NodeState>,
    perProcess: seq<seq<nat>>,
    scheduled: seq<nat>,
    frames: seq<(nat, seq<NodeState>)>)

  function RunNode(cfg: Config, w: World, id: nat, cb: Callback<NodeState>): World
    requires id < |w.nodes|
  {
    var (c, state) := Exec(cfg, w.core, id, cb);
    w.(core := c, nodes := w.nodes[id := state])
  }

  function DispatchStart(cfg: Config, w: World, id: nat): World {
    if id < |w.nodes| then RunNode(cfg, w, id, cfg.def.onStart(id, w.core.now, w.nodes[id])) else w
  }

  function OpFunction(op: Value): string {
    match op
    case Keyword(k) => k
    case List(items) => if items != [] && items[0].Keyword? then items[0].k else "op"
    case _ => "op"
  }

  function Target(op: FrozenOp, process: nat, nodeCount: nat): nat
    requires nodeCount > 0
  {
    if op.route.Some? then op.route.value % nodeCount else process % nodeCount
  }

  function DispatchClientOp(cfg: Config, w: World, process: nat, op: FrozenOp): World
    requires |w.nodes| > 0
  {
    var target := Target(op, process, |w.nodes|);
    var decoded := if cfg.codec.Some? then cfg.codec.value.decode(op.op) else None;
    var token := w.core.nextToken;
    match decoded
    case None =>
      w.(core := CloseOp(OpenOp(w.core, process, OpFunction(op.op), op.op), token, Fail, Nil))
    case Some((f, clientOp)) =>
      var c := OpenOp(w.core, process, f, op.op);
      var (c1, result) := Exec(cfg, c, target, cfg.def.onClientOp(target, c.now, clientOp, token, w.nodes[target]));
      var c2 := if result.1.Done? then CloseOp(c1, token, Ok, cfg.codec.value.encode(f, result.1.response)) else c1;
      w.(core := c2, nodes := w.nodes[target := result.0])
  }

  function Dispatch(cfg: Config, w: World, kind: EventKind): World {
    match kind
    case Deliver(from, to, msg) =>
      if to < |w.nodes| then RunNode(cfg, w, to, cfg.def.onMsg(to, w.core.now, from, msg, w.nodes[to])) else w
    case Fire(node, timer, _) =>
      if node < |w.nodes| then RunNode(cfg, w, node, cfg.def.onTimer(node, w.core.now, timer, w.nodes[node])) else w
    case Issue(process, index) =>
      if index < |cfg.ops| && |w.nodes| > 0 then DispatchClientOp(cfg, w, process, cfg.ops[index]) else w
    case Fault(action) =>
      if action.Restart? then DispatchStart(cfg, w, action.node) else w
  }

  /** Schedule the next op of process `p` unless one of its ops is still in flight. */
  function PumpOne(w: World, p: nat): World {
    if p < |w.perProcess| && p < |w.scheduled| && w.perProcess[p] != []
       && w.scheduled[p] <= ClosedFor(w.core.history, p)
    then
      w.(core := Enqueue(w.core, w.core.now + MILLIS, Issue(p, w.perProcess[p][0])),
         perProcess := w.perProcess[p := w.perProcess[p][1..]],
         scheduled := w.scheduled[p := w.scheduled[p] + 1])
    else w
  }

  function Pump(w: World, upTo: nat): World {
    if upTo == 0 then w else PumpOne(Pump(w, upTo - 1), upTo - 1)
  }

  function Snapshot(w: World): World {
    w.(frames := w.frames + [(w.core.now, w.nodes)])
  }

  /** One iteration of the main loop; None once `pop` has nothing more to give. */
  function Step(cfg: Config, w: World): (World, bool) {
    var (c, popped) := Pop(cfg, w.core);
    match popped
    case None => (w.(core := c), false)
    case Some(kind) => (Snapshot(Pump(Dispatch(cfg, w.(core := c), kind), cfg.nodeCount)), true)
  }

  /** At most `n` iterations, and whether the loop is still running. */
  function Run(cfg: Config, w: World, n: nat): (World, bool) {
    if n == 0 then (w, true)
    else
      var (w1, more) := Run(cfg, w, n - 1);
      if more then Step(cfg, w1) else (w1, false)
  }

  function StartAll(cfg: Config, w: World, upTo: nat): World {
    if upTo == 0 then w else DispatchStart(cfg, StartAll(cfg, w, upTo - 1), upTo - 1)
  }

  function ScheduleFaults(c: Core, faults: seq<(nat, FaultAction)>): Core
    decreases |faults|
  {
    if faults == [] then c else ScheduleFaults(Enqueue(c, faults[0].0, Fault(faults[0].1)), faults[1..])
  }

  /** The op indices of process `p`, in order. */
  function Queued(cfg: Config, p: nat, upTo: nat): seq<nat>
    requires upTo <= |cfg.ops| && cfg.nodeCount > 0
  {
    if upTo == 0 then []
    else Queued(cfg, p, upTo - 1) + (if cfg.ops[upTo - 1].process % cfg.nodeCount == p then [upTo - 1] else [])
  }

  /** The faults are on the timeline, the ops sorted by process, and no node has started. */
  function Boot(cfg: Config, faults: seq<(nat, FaultAction)>): World
    requires cfg.nodeCount > 0
  {
    World(
      ScheduleFaults(NewCore(), faults),
      seq(cfg.nodeCount, _ => cfg.def.default),
      seq(cfg.nodeCount, p requires 0 <= p => Queued(cfg, p, |cfg.ops|)),
      seq(cfg.nodeCount, _ => 0),
      [])
  }

  /** Everything `run_deterministic` does before the main loop. */
  function Init(cfg: Config, faults: seq<(nat, FaultAction)>): World
    requires cfg.nodeCount > 0
  {
    Pump(Snapshot(StartAll(cfg, Boot(cfg, faults), cfg.nodeCount)), cfg.nodeCount)
  }

  /** Everything after the main loop, as the recorded history. */
  function Finish(w: World): World {
    w.(core := ForceClosePending(w.core))
  }
}
