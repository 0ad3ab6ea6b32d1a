/** When replay reproduces every run: exactly when no op the horizon leaves time for is routed to another
    node than its process's. Otherwise there are nodes that tell the two apart
    (`collect_ops`, crates/propsim-sim/src/lib.rs). */
module Misrouted {
  import opened Ops
  import opened Engine
  import opened Runs
  import opened Clock
  import opened Tokens
  import opened Gate
  import opened OpFlow
  import opened DoomedOps
  import opened Earliest
  import opened Progress
  import opened Replay
  import Rerouted

  // ----- Nodes that answer every op at once -----

  /** One node fails every op, the others succeed. */
  function Biased(n: Rerouted.Node, bad: nat): NodeDef {
    NodeDef(
      n.state,
      (me, now, s) => Return(s),
      (me, now, from, msg, s) => Return(s),
      (me, now, timer, s) => Return(s),
      (me: nat, now: nat, op: ClientOp, token: nat, s: NodeState) =>
        if me == bad then Do(CompleteOp(token, Failed), Return((s, Pending))) else Return((s, Done(n.answer))),
      timer => "t")
  }

  ghost predicate IsBiased(cfg: Config, n: Rerouted.Node, bad: nat) {
    cfg.nodeCount > 0 && cfg.def == Biased(n, bad) && cfg.codec == Some(Rerouted.PlainCodec(n))
  }

  /** Nothing is queued but ops and faults, and nothing is pending. */
  ghost predicate Racing(cfg: Config, w: World) {
    && Punctual(cfg, w)
    && w.core.pending == map[]
    && forall e :: e in w.core.queue ==> e.kind.Issue? || e.kind.Fault?
  }

  lemma {:induction false} NoVictims(bound: nat, process: Option<nat>)
    ensures PendingTokens(map[], bound, process) == []
  {
    if bound == 0 {
    } else {
      NoVictims(bound - 1, process);
    }
  }

  lemma TakesEvent(cfg: Config, c: Core) returns (e: Scheduled, c': Core)
    requires ClockOk(cfg, c) && c.pending == map[] && Pop(cfg, c).1.Some?
    requires forall e :: e in c.queue ==> e.kind.Issue? || e.kind.Fault?
    ensures e in c.queue && e.at < cfg.horizon && Pop(cfg, c) == (c', Some(e.kind))
    ensures |c'.queue| == |c.queue| - 1 && forall x :: x in c'.queue <==> x in c.queue && x != e
    ensures c'.now == e.at && c'.history == c.history && c'.pending == map[]
  {
    e, c' := TakeRest(cfg, c);
    TakeShape(cfg, c, e, c');
    assert |Without(c.queue, MinIndex(c.queue))| == |c.queue| - 1;
    if e.kind.Fault? && e.kind.action.Crash? {
      NoVictims(c'.nextToken, Some(e.kind.action.node));
    }
  }

  lemma FaultPasses(cfg: Config, n: Rerouted.Node, bad: nat, w: World, action: FaultAction) returns (w': World)
    requires IsBiased(cfg, n, bad)
    ensures w' == Dispatch(cfg, w, Fault(action))
    ensures w'.core == w.core && w'.perProcess == w.perProcess && w'.scheduled == w.scheduled
  {
    w' := Dispatch(cfg, w, Fault(action));
  }

  /** An op is answered on the spot. */
  lemma AnswersOp(cfg: Config, n: Rerouted.Node, bad: nat, w: World, q: nat, ix: nat)
    returns (w': World, invoke: OpEntry, terminal: OpEntry)
    requires IsBiased(cfg, n, bad) && |w.nodes| == cfg.nodeCount && ix < |cfg.ops| && w.core.pending == map[]
    ensures w' == Dispatch(cfg, w, Issue(q, ix))
    ensures w'.perProcess == w.perProcess && w'.scheduled == w.scheduled && |w'.nodes| == |w.nodes|
    ensures w'.core.queue == w.core.queue && w'.core.now == w.core.now && w'.core.pending == map[]
    ensures w'.core.history == w.core.history + [invoke, terminal]
    ensures invoke.kind.Invoke? && invoke.process == q && terminal.process == q
    ensures terminal.kind == if Target(cfg.ops[ix], q, cfg.nodeCount) == bad then Fail else Ok
  {
    var op := cfg.ops[ix];
    var target := Target(op, q, cfg.nodeCount);
    var token := w.core.nextToken;
    var c1 := OpenOp(w.core, q, "op", op.op);
    invoke := c1.history[|w.core.history|];
    var cb := cfg.def.onClientOp(target, c1.now, n.op, token, w.nodes[target]);
    var c2 := if target == bad then CloseOp(c1, token, Fail, Nil) else CloseOp(c1, token, Ok, Nil);
    if target == bad {
      assert cb == Do(CompleteOp(token, Failed), Return((w.nodes[target], Pending)));
      assert Exec(cfg, c1, target, cb) == (c2, (w.nodes[target], Pending));
    } else {
      assert cb == Return((w.nodes[target], Done(n.answer)));
      assert Exec(cfg, c1, target, cb) == (c1, (w.nodes[target], Done(n.answer)));
    }
    w' := w.(core := c2, nodes := w.nodes[target := w.nodes[target]]);
    assert Dispatch(cfg, w, Issue(q, ix)) == w';
    terminal := c2.history[|w.core.history| + 1];
    assert c1.pending - {token} == map[];
  }

  lemma PumpOneRacing(cfg: Config, w: World, p: nat, w': World)
    requires Racing(cfg, w) && w' == PumpOne(w, p)
    ensures Racing(cfg, w') && w'.core.history == w.core.history && w'.core.now == w.core.now
  {
    PumpOneOnTime(cfg, w, p);
    PumpOneGate(cfg, w, p);
    if w' != w {
      EnqueueOk(cfg, w.core, w.core.now + MILLIS, Issue(p, w.perProcess[p][0]));
    }
  }

  lemma {:induction false} PumpRacing(cfg: Config, w: World, upTo: nat, v: World)
    requires Racing(cfg, w) && v == Pump(w, upTo)
    ensures Racing(cfg, v) && v.core.history == w.core.history && v.core.now == w.core.now
  {
    if upTo == 0 {
    } else {
      var u := Pump(w, upTo - 1);
      PumpRacing(cfg, w, upTo - 1, u);
      PumpLast(w, upTo);
      PumpOneRacing(cfg, u, upTo - 1, v);
    }
  }

  lemma PopPunctual(cfg: Config, w: World)
    requires Punctual(cfg, w) && Pop(cfg, w.core).1.Some?
    ensures var (c, popped) := Pop(cfg, w.core);
            && OnTime(cfg, w.(core := c)) && ClockOk(cfg, c) && WorldGate(cfg, w.(core := c), HandOf(popped))
            && (popped.value.Issue? ==> popped.value.process < cfg.nodeCount && popped.value.index < |cfg.ops|)
  {
    PopOnTime(cfg, w);
    KeepsClock(cfg);
    PopKeeps(cfg, w.core, c => ClockOk(cfg, c));
    PopGate(cfg, w.core, w.scheduled);
  }

  lemma DispatchPunctual(cfg: Config, w: World, kind: EventKind)
    requires OnTime(cfg, w) && ClockOk(cfg, w.core) && WorldGate(cfg, w, HandOf(Some(kind)))
    requires kind.Issue? ==> kind.process < cfg.nodeCount && kind.index < |cfg.ops|
    ensures Punctual(cfg, Dispatch(cfg, w, kind))
  {
    DispatchOnTime(cfg, w, kind);
    KeepsClock(cfg);
    MovesIncludeEffects(cfg, c => ClockOk(cfg, c));
    DispatchKeeps(cfg, w, kind, c => ClockOk(cfg, c));
    DispatchGate(cfg, w, kind);
  }

  lemma SnapshotRacing(cfg: Config, w: World)
    requires Racing(cfg, w)
    ensures Racing(cfg, Snapshot(w))
  {
    StillOnTime(cfg, w, Snapshot(w));
  }

  /** What a round adds to the history: an op invoked and answered, or nothing. */
  ghost predicate Answered(cfg: Config, bad: nat, e: Scheduled, h: seq<OpEntry>, h': seq<OpEntry>)
    requires cfg.nodeCount > 0
  {
    if e.kind.Issue? then
      && e.kind.process < cfg.nodeCount && e.kind.index < |cfg.ops|
      && |h'| == |h| + 2 && h <= h'
      && h'[|h|].kind.Invoke? && h'[|h|].process == e.kind.process && h'[|h| + 1].process == e.kind.process
      && h'[|h| + 1].kind == if Target(cfg.ops[e.kind.index], e.kind.process, cfg.nodeCount) == bad then Fail else Ok
    else h' == h
  }

  /** A round takes an event off the queue, an op to be answered or a fault; then the pump has its turn. */
  lemma Round(cfg: Config, n: Rerouted.Node, bad: nat, w: World) returns (e: Scheduled, served: World)
    requires IsBiased(cfg, n, bad) && Racing(cfg, w) && Step(cfg, w).1
    ensures e in w.core.queue && e.at < cfg.horizon
    ensures Racing(cfg, served) && served.perProcess == w.perProcess && served.scheduled == w.scheduled
    ensures |served.core.queue| == |w.core.queue| - 1 && served.core.now == e.at
    ensures forall x :: x in served.core.queue <==> x in w.core.queue && x != e
    ensures Answered(cfg, bad, e, w.core.history, served.core.history)
    ensures Step(cfg, w) == (Snapshot(Pump(served, cfg.nodeCount)), true)
  {
    var c;
    e, c := TakesEvent(cfg, w.core);
    PopPunctual(cfg, w);
    var popped := w.(core := c);
    DispatchPunctual(cfg, popped, e.kind);
    match e.kind {
      case Issue(q, ix) =>
        var invoke, terminal;
        served, invoke, terminal := AnswersOp(cfg, n, bad, popped, q, ix);
      case Fault(action) =>
        served := FaultPasses(cfg, n, bad, popped, action);
    }
  }

  // ----- The run ends -----

  function Total(queues: seq<seq<nat>>): nat {
    if queues == [] then 0 else |queues[0]| + Total(queues[1..])
  }

  lemma {:induction false} TotalWithout(queues: seq<seq<nat>>, p: nat)
    requires p < |queues| && queues[p] != []
    ensures Total(queues[p := queues[p][1..]]) == Total(queues) - 1
    decreases |queues|
  {
    var queues' := queues[p := queues[p][1..]];
    if p == 0 {
      assert queues'[1..] == queues[1..];
    } else {
      TotalWithout(queues[1..], p - 1);
      assert queues'[1..] == queues[1..][p - 1 := queues[1..][p - 1][1..]];
    }
  }

  /** The ops still to be issued. */
  function OpsLeft(w: World): nat {
    |w.core.queue| + Total(w.perProcess)
  }

  lemma PumpOneConserves(w: World, p: nat)
    ensures OpsLeft(PumpOne(w, p)) == OpsLeft(w)
  {
    if PumpOne(w, p) != w {
      TotalWithout(w.perProcess, p);
    }
  }

  lemma {:induction false} PumpConserves(w: World, upTo: nat)
    ensures OpsLeft(Pump(w, upTo)) == OpsLeft(w)
  {
    if upTo == 0 {
    } else {
      PumpConserves(w, upTo - 1);
      PumpOneConserves(Pump(w, upTo - 1), upTo - 1);
      PumpLast(w, upTo);
    }
  }

  lemma RoundRacing(cfg: Config, n: Rerouted.Node, bad: nat, w: World) returns (w': World)
    requires IsBiased(cfg, n, bad) && Racing(cfg, w) && Step(cfg, w).1
    ensures Step(cfg, w) == (w', true) && Racing(cfg, w') && OpsLeft(w') == OpsLeft(w) - 1
  {
    var e, served := Round(cfg, n, bad, w);
    var pumped := Pump(served, cfg.nodeCount);
    PumpRacing(cfg, served, cfg.nodeCount, pumped);
    SnapshotRacing(cfg, pumped);
    PumpConserves(served, cfg.nodeCount);
    w' := Snapshot(pumped);
  }

  lemma {:induction false} RoundsRacing(cfg: Config, n: Rerouted.Node, bad: nat, w0: World, k: nat) returns (w: World)
    requires IsBiased(cfg, n, bad) && Racing(cfg, w0) && Run(cfg, w0, k).1
    ensures Run(cfg, w0, k) == (w, true) && Racing(cfg, w) && OpsLeft(w) + k == OpsLeft(w0)
  {
    if k == 0 {
      w := w0;
    } else {
      var before := RoundsRacing(cfg, n, bad, w0, k - 1);
      w := RoundRacing(cfg, n, bad, before);
    }
  }

  // ----- The badly routed op is issued, and fails -----

  ghost predicate FailedFor(h: seq<OpEntry>, p: nat) {
    exists k :: 0 <= k < |h| && h[k].process == p && h[k].kind.Fail?
  }

  /** Op `i` of `p` is yet to be queued, queued, or has failed. */
  ghost predicate Accounted(w: World, p: nat, i: nat)
    requires p < |w.perProcess|
  {
    i in w.perProcess[p] || (exists e :: e in w.core.queue && e.kind == Issue(p, i)) || FailedFor(w.core.history, p)
  }

  /** The ops of `p` are issued as early as their ranks allow. */
  ghost predicate Hasty(cfg: Config, w: World, p: nat, i: nat)
    requires cfg.nodeCount > 0
  {
    && p < |w.scheduled| == |w.perProcess|
    && (forall e :: e in w.core.queue && IssueOf(e, p) ==>
          && e.at <= w.scheduled[p] * MILLIS
          && e.kind.index < |cfg.ops| && Rank(cfg, e.kind.index) + 1 == w.scheduled[p])
    && (BusyOrDone(w, p) || w.core.now <= w.scheduled[p] * MILLIS)
    && Accounted(w, p, i)
  }

  lemma PumpOtherHasty(cfg: Config, w: World, q: nat, p: nat, i: nat)
    requires Racing(cfg, w) && Hasty(cfg, w, p, i) && q != p
    ensures Hasty(cfg, PumpOne(w, q), p, i)
  {
    var w' := PumpOne(w, q);
    if w' != w {
      forall e | e in w.core.queue ensures e in w'.core.queue {
      }
      assert BusyOrDone(w, p) ==> BusyOrDone(w', p);
    }
  }

  lemma PumpOwnHasty(cfg: Config, w: World, p: nat, i: nat)
    requires Racing(cfg, w) && Hasty(cfg, w, p, i)
    ensures Hasty(cfg, PumpOne(w, p), p, i)
  {
    var w' := PumpOne(w, p);
    OneTurn(cfg, w, p);
    if w.perProcess[p] != [] && w.scheduled[p] <= ClosedFor(w.core.history, p) {
      var index := w.perProcess[p][0];
      assert OnTimeFor(cfg, w, p);
      NoneInFlight(cfg, w, p);
      QueuedAt(cfg, p, |cfg.ops|, w.scheduled[p]);
      var e := w'.core.queue[|w.core.queue|];
      assert e in w'.core.queue && e.kind == Issue(p, index);
      assert i in w.perProcess[p] ==> i == index || i in w'.perProcess[p];
    }
  }

  lemma PumpOneHasty(cfg: Config, w: World, q: nat, p: nat, i: nat, w': World)
    requires Racing(cfg, w) && Hasty(cfg, w, p, i) && w' == PumpOne(w, q)
    ensures Hasty(cfg, w', p, i)
  {
    if q == p {
      PumpOwnHasty(cfg, w, p, i);
    } else {
      PumpOtherHasty(cfg, w, q, p, i);
    }
  }

  lemma {:induction false} PumpHasty(cfg: Config, w: World, upTo: nat, p: nat, i: nat, v: World)
    requires Racing(cfg, w) && Hasty(cfg, w, p, i) && v == Pump(w, upTo)
    ensures Hasty(cfg, v, p, i)
  {
    if upTo == 0 {
    } else {
      var u := Pump(w, upTo - 1);
      PumpHasty(cfg, w, upTo - 1, p, i, u);
      PumpRacing(cfg, w, upTo - 1, u);
      PumpLast(w, upTo);
      PumpOneHasty(cfg, u, upTo - 1, p, i, v);
    }
  }

  lemma ServedAccounted(cfg: Config, bad: nat, w: World, served: World, e: Scheduled, p: nat, i: nat)
    requires cfg.nodeCount > 0 && i < |cfg.ops| && Target(cfg.ops[i], p, cfg.nodeCount) == bad
    requires p < |w.perProcess| && served.perProcess == w.perProcess && Accounted(w, p, i)
    requires forall x :: x in served.core.queue <==> x in w.core.queue && x != e
    requires Answered(cfg, bad, e, w.core.history, served.core.history)
    ensures Accounted(served, p, i)
  {
    var h, h' := w.core.history, served.core.history;
    if FailedFor(h, p) {
      var k :| 0 <= k < |h| && h[k].process == p && h[k].kind.Fail?;
      assert h'[k] == h[k];
    } else if i !in w.perProcess[p] {
      var x :| x in w.core.queue && x.kind == Issue(p, i);
      assert x != e ==> x in served.core.queue;
      assert x == e ==> h'[|h| + 1].process == p && h'[|h| + 1].kind.Fail?;
    }
  }

  lemma ServedBusy(cfg: Config, bad: nat, w: World, served: World, e: Scheduled, p: nat)
    requires cfg.nodeCount > 0 && Answered(cfg, bad, e, w.core.history, served.core.history)
    requires served.perProcess == w.perProcess && served.scheduled == w.scheduled
    requires !IssueOf(e, p) && BusyOrDone(w, p)
    ensures BusyOrDone(served, p)
  {
    if e.kind.Issue? {
      var h, h' := w.core.history, served.core.history;
      assert h' == h + [h'[|h|]] + [h'[|h| + 1]];
      CountSnoc(h, h'[|h|], p);
      CountSnoc(h + [h'[|h|]], h'[|h| + 1], p);
    }
  }

  lemma ServedHasty(cfg: Config, n: Rerouted.Node, bad: nat, w: World, p: nat, i: nat)
    returns (served: World)
    requires IsBiased(cfg, n, bad) && Racing(cfg, w) && Step(cfg, w).1
    requires Hasty(cfg, w, p, i) && BusyOrDone(w, p) && i < |cfg.ops| && Target(cfg.ops[i], p, cfg.nodeCount) == bad
    ensures Racing(cfg, served) && Hasty(cfg, served, p, i)
    ensures Step(cfg, w) == (Snapshot(Pump(served, cfg.nodeCount)), true)
  {
    var e;
    e, served := Round(cfg, n, bad, w);
    ServedAccounted(cfg, bad, w, served, e, p, i);
    if !IssueOf(e, p) {
      ServedBusy(cfg, bad, w, served, e, p);
    }
  }

  ghost predicate Ready(cfg: Config, w: World, p: nat, i: nat)
    requires cfg.nodeCount > 0
  {
    Racing(cfg, w) && Hasty(cfg, w, p, i) && BusyOrDone(w, p)
  }

  lemma PumpReady(cfg: Config, w: World, p: nat, i: nat, v: World)
    requires Racing(cfg, w) && Hasty(cfg, w, p, i) && v == Pump(w, cfg.nodeCount) && p < cfg.nodeCount
    ensures Ready(cfg, v, p, i)
  {
    PumpHasty(cfg, w, cfg.nodeCount, p, i, v);
    PumpRacing(cfg, w, cfg.nodeCount, v);
    PumpLeavesNoneIdle(cfg, w, cfg.nodeCount);
  }

  lemma SnapshotReady(cfg: Config, w: World, p: nat, i: nat)
    requires cfg.nodeCount > 0 && Ready(cfg, w, p, i)
    ensures Ready(cfg, Snapshot(w), p, i)
  {
    SnapshotRacing(cfg, w);
  }

  lemma RoundHasty(cfg: Config, n: Rerouted.Node, bad: nat, w: World, p: nat, i: nat) returns (w': World)
    requires IsBiased(cfg, n, bad) && Ready(cfg, w, p, i) && Step(cfg, w).1
    requires p < cfg.nodeCount && i < |cfg.ops| && Target(cfg.ops[i], p, cfg.nodeCount) == bad
    ensures Step(cfg, w) == (w', true) && Ready(cfg, w', p, i)
  {
    var served := ServedHasty(cfg, n, bad, w, p, i);
    var pumped := Pump(served, cfg.nodeCount);
    PumpReady(cfg, served, p, i, pumped);
    SnapshotReady(cfg, pumped, p, i);
    w' := Snapshot(pumped);
  }

  lemma NextHasty(
    cfg: Config, n: Rerouted.Node, bad: nat, w0: World, k: nat, before: World, p: nat, i: nat) returns (w: World)
    requires IsBiased(cfg, n, bad) && Ready(cfg, before, p, i)
    requires k > 0 && Run(cfg, w0, k - 1) == (before, true) && Run(cfg, w0, k).1
    requires p < cfg.nodeCount && i < |cfg.ops| && Target(cfg.ops[i], p, cfg.nodeCount) == bad
    ensures Run(cfg, w0, k) == (w, true) && Ready(cfg, w, p, i)
  {
    w := RoundHasty(cfg, n, bad, before, p, i);
  }

  lemma {:induction false} RoundsHasty(cfg: Config, n: Rerouted.Node, bad: nat, w0: World, k: nat, p: nat, i: nat)
    returns (w: World)
    requires IsBiased(cfg, n, bad) && Ready(cfg, w0, p, i) && Run(cfg, w0, k).1
    requires p < cfg.nodeCount && i < |cfg.ops| && Target(cfg.ops[i], p, cfg.nodeCount) == bad
    ensures Run(cfg, w0, k) == (w, true) && Ready(cfg, w, p, i)
  {
    if k == 0 {
      w := w0;
    } else {
      var before := RoundsHasty(cfg, n, bad, w0, k - 1, p, i);
      w := NextHasty(cfg, n, bad, w0, k, before, p, i);
    }
  }

  /** The loop ends when nothing is due before the horizon. */
  lemma EndsLate(cfg: Config, w: World, e: Scheduled)
    requires Racing(cfg, w) && !Step(cfg, w).1 && e in w.core.queue
    ensures e.at >= cfg.horizon
  {
    var head := w.core.queue[MinIndex(w.core.queue)];
    assert head in w.core.queue;
    var j :| 0 <= j < |w.core.queue| && w.core.queue[j] == e;
    assert !Before(e, head);
  }

  lemma OneIsInFlight(cfg: Config, w: World, p: nat)
    requires Racing(cfg, w) && BusyOrDone(w, p) && p < cfg.nodeCount && w.perProcess[p] != []
    ensures exists e :: e in w.core.queue && IssueOf(e, p)
  {
    InFlightMember(w.core.queue, p);
    assert w.scheduled[p] == Opened(w.core.history, p) + InFlight(w.core.queue, p);
    assert !Busy(w.core.pending, p);
  }

  /** An op of `p` still to be queued comes after the one in flight. */
  lemma LeftIsLater(cfg: Config, w: World, p: nat, i: nat) returns (e: Scheduled)
    requires Racing(cfg, w) && Hasty(cfg, w, p, i) && BusyOrDone(w, p) && p < cfg.nodeCount && i in w.perProcess[p]
    ensures i < |cfg.ops| && e in w.core.queue && e.at <= Rank(cfg, i) * MILLIS
  {
    assert OnTimeFor(cfg, w, p);
    OneIsInFlight(cfg, w, p);
    e :| e in w.core.queue && IssueOf(e, p);
    var k :| 0 <= k < |w.perProcess[p]| && w.perProcess[p][k] == i;
    QueuedAt(cfg, p, |cfg.ops|, w.scheduled[p] + k);
  }

  /** When op `i` of `p` is queued, it is for the time its rank allows. */
  lemma QueuedIsTimely(cfg: Config, w: World, p: nat, i: nat) returns (e: Scheduled)
    requires cfg.nodeCount > 0 && Hasty(cfg, w, p, i) && exists e :: e in w.core.queue && e.kind == Issue(p, i)
    ensures i < |cfg.ops| && e in w.core.queue && e.at <= (Rank(cfg, i) + 1) * MILLIS
  {
    e :| e in w.core.queue && e.kind == Issue(p, i);
    assert IssueOf(e, p);
  }

  lemma EndFails(cfg: Config, w: World, p: nat, i: nat)
    requires Racing(cfg, w) && Hasty(cfg, w, p, i) && BusyOrDone(w, p) && !Step(cfg, w).1
    requires p < cfg.nodeCount && i < |cfg.ops| && Reachable(cfg, i)
    ensures FailedFor(w.core.history, p)
  {
    if i in w.perProcess[p] {
      var e := LeftIsLater(cfg, w, p, i);
      EndsLate(cfg, w, e);
    } else if exists e :: e in w.core.queue && e.kind == Issue(p, i) {
      var e := QueuedIsTimely(cfg, w, p, i);
      EndsLate(cfg, w, e);
    }
  }

  // ----- The start -----

  lemma {:induction false} IdleStart(cfg: Config, n: Rerouted.Node, bad: nat, w: World, upTo: nat, v: World)
    requires IsBiased(cfg, n, bad) && v == StartAll(cfg, w, upTo)
    ensures v.core == w.core && v.perProcess == w.perProcess && v.scheduled == w.scheduled
  {
    if upTo == 0 {
    } else {
      var u := StartAll(cfg, w, upTo - 1);
      IdleStart(cfg, n, bad, w, upTo - 1, u);
      assert v == DispatchStart(cfg, u, upTo - 1);
    }
  }

  lemma {:induction false} QueuedHas(cfg: Config, p: nat, upTo: nat, i: nat)
    requires cfg.nodeCount > 0 && i < upTo <= |cfg.ops| && cfg.ops[i].process % cfg.nodeCount == p
    ensures i in Queued(cfg, p, upTo)
  {
    if i == upTo - 1 {
    } else {
      QueuedHas(cfg, p, upTo - 1, i);
    }
  }

  lemma {:induction false} FaultsOnly(c: Core, faults: seq<(nat, FaultAction)>)
    requires forall e :: e in c.queue ==> e.kind.Fault?
    ensures var c' := ScheduleFaults(c, faults);
            && (forall e :: e in c'.queue ==> e.kind.Fault?)
            && c'.history == c.history && c'.now == c.now && c'.pending == c.pending
    decreases |faults|
  {
    if faults == [] {
    } else {
      FaultsOnly(Enqueue(c, faults[0].0, Fault(faults[0].1)), faults[1..]);
    }
  }

  /** Before the first pump. */
  lemma Started(cfg: Config, n: Rerouted.Node, bad: nat, faults: seq<(nat, FaultAction)>) returns (w: World)
    requires IsBiased(cfg, n, bad)
    ensures Racing(cfg, w) && Init(cfg, faults) == Pump(w, cfg.nodeCount)
    ensures w.core.history == [] && w.core.now == 0 && w.perProcess == Boot(cfg, faults).perProcess
    ensures forall e :: e in w.core.queue ==> !e.kind.Issue?
  {
    var started := StartAll(cfg, Boot(cfg, faults), cfg.nodeCount);
    w := Snapshot(started);
    IdleStart(cfg, n, bad, Boot(cfg, faults), cfg.nodeCount, started);
    StartsOnTime(cfg, faults, started);
    BootGate(cfg, faults);
    StartAllGate(cfg, Boot(cfg, faults), cfg.nodeCount);
    FaultsOnly(NewCore(), faults);
    KeepsClock(cfg);
    ScheduledFaultsOk(cfg, NewCore(), faults);
  }

  lemma InitReady(cfg: Config, n: Rerouted.Node, bad: nat, faults: seq<(nat, FaultAction)>, p: nat, i: nat)
    returns (w0: World)
    requires IsBiased(cfg, n, bad) && p < cfg.nodeCount && i < |cfg.ops| && cfg.ops[i].process % cfg.nodeCount == p
    ensures w0 == Init(cfg, faults) && Ready(cfg, w0, p, i)
  {
    var w := Started(cfg, n, bad, faults);
    w0 := Pump(w, cfg.nodeCount);
    QueuedHas(cfg, p, |cfg.ops|, i);
    assert i in w.perProcess[p];
    PumpReady(cfg, w, p, i, w0);
  }

  lemma InitRacing(cfg: Config, n: Rerouted.Node, bad: nat, faults: seq<(nat, FaultAction)>) returns (w0: World)
    requires IsBiased(cfg, n, bad)
    ensures w0 == Init(cfg, faults) && Racing(cfg, w0) && w0.core.history == []
  {
    var w := Started(cfg, n, bad, faults);
    w0 := Pump(w, cfg.nodeCount);
    PumpRacing(cfg, w, cfg.nodeCount, w0);
  }

  // ----- The original fails, its replay does not -----

  /** The run ends, and by then the badly routed op has failed. */
  lemma OriginalFails(cfg: Config, n: Rerouted.Node, bad: nat, faults: seq<(nat, FaultAction)>, p: nat, i: nat)
    returns (k: nat)
    requires IsBiased(cfg, n, bad) && p < cfg.nodeCount && i < |cfg.ops| && cfg.ops[i].process % cfg.nodeCount == p
    requires Target(cfg.ops[i], p, cfg.nodeCount) == bad && Reachable(cfg, i)
    ensures !Run(cfg, Init(cfg, faults), k).1 && FailedFor(Run(cfg, Init(cfg, faults), k).0.core.history, p)
  {
    var w0 := InitReady(cfg, n, bad, faults, p, i);
    k := OpsLeft(w0) + 1;
    if Run(cfg, w0, k).1 {
      var late := RoundsRacing(cfg, n, bad, w0, k);
    }
    var j := LastIteration(cfg, faults, k);
    var w := RoundsHasty(cfg, n, bad, w0, j, p, i);
    EndFails(cfg, w, p, i);
    LastKeepsHistory(cfg, faults, j);
  }

  lemma StaysClean(cfg: Config, bad: nat, e: Scheduled, h: seq<OpEntry>, h': seq<OpEntry>, p: nat)
    requires cfg.nodeCount > 0 && Answered(cfg, bad, e, h, h') && p != bad && !FailedFor(h, p)
    requires forall i :: 0 <= i < |cfg.ops| ==> cfg.ops[i].route.None?
    ensures !FailedFor(h', p)
  {
    if e.kind.Issue? {
      SmallMod(e.kind.process, cfg.nodeCount);
    }
    forall k | 0 <= k < |h'| ensures !(h'[k].process == p && h'[k].kind.Fail?) {
      assert k < |h| ==> h'[k] == h[k];
    }
  }

  lemma CleanRound(cfg: Config, n: Rerouted.Node, bad: nat, w: World, p: nat) returns (w': World)
    requires IsBiased(cfg, n, bad) && Racing(cfg, w) && Step(cfg, w).1 && p != bad
    requires forall i :: 0 <= i < |cfg.ops| ==> cfg.ops[i].route.None?
    requires !FailedFor(w.core.history, p)
    ensures Step(cfg, w) == (w', true) && Racing(cfg, w') && !FailedFor(w'.core.history, p)
  {
    var e, served := Round(cfg, n, bad, w);
    var pumped := Pump(served, cfg.nodeCount);
    PumpRacing(cfg, served, cfg.nodeCount, pumped);
    SnapshotRacing(cfg, pumped);
    w' := Snapshot(pumped);
    StaysClean(cfg, bad, e, w.core.history, served.core.history, p);
  }

  /** The last call of `pop` leaves the history as it was. */
  lemma EndKeepsHistory(cfg: Config, w: World)
    requires Racing(cfg, w) && !Step(cfg, w).1
    ensures Step(cfg, w).0.core.history == w.core.history
  {
    if w.core.queue != [] {
      var head, c := TakeRest(cfg, w.core);
      TakeShape(cfg, w.core, head, c);
    }
  }

  lemma CleanStep(cfg: Config, n: Rerouted.Node, bad: nat, before: (World, bool), p: nat) returns (after: (World, bool))
    requires IsBiased(cfg, n, bad) && p != bad && forall i :: 0 <= i < |cfg.ops| ==> cfg.ops[i].route.None?
    requires (before.1 ==> Racing(cfg, before.0)) && !FailedFor(before.0.core.history, p)
    ensures after == if before.1 then Step(cfg, before.0) else before
    ensures (after.1 ==> Racing(cfg, after.0)) && !FailedFor(after.0.core.history, p)
  {
    after := before;
    if before.1 {
      after := Step(cfg, before.0);
      if after.1 {
        var w' := CleanRound(cfg, n, bad, before.0, p);
      } else {
        EndKeepsHistory(cfg, before.0);
      }
    }
  }

  lemma {:induction false} CleanRounds(cfg: Config, n: Rerouted.Node, bad: nat, w0: World, k: nat, p: nat)
    returns (run: (World, bool))
    requires IsBiased(cfg, n, bad) && p != bad && forall i :: 0 <= i < |cfg.ops| ==> cfg.ops[i].route.None?
    requires Racing(cfg, w0) && !FailedFor(w0.core.history, p)
    ensures run == Run(cfg, w0, k) && (run.1 ==> Racing(cfg, run.0)) && !FailedFor(run.0.core.history, p)
  {
    if k == 0 {
      run := (w0, true);
    } else {
      var before := CleanRounds(cfg, n, bad, w0, k - 1, p);
      run := CleanStep(cfg, n, bad, before, p);
    }
  }

  /** Without routes, no op of any other process than the failing node's fails. */
  lemma CleanRun(cfg: Config, n: Rerouted.Node, bad: nat, faults: seq<(nat, FaultAction)>, k: nat, p: nat)
    requires IsBiased(cfg, n, bad) && p != bad && forall i :: 0 <= i < |cfg.ops| ==> cfg.ops[i].route.None?
    ensures !FailedFor(Run(cfg, Init(cfg, faults), k).0.core.history, p)
  {
    var w0 := InitRacing(cfg, n, bad, faults);
    var run := CleanRounds(cfg, n, bad, w0, k, p);
  }

  // ----- The theorem -----

  /** The same ops, horizon and network. */
  ghost predicate SameFrame(cfg: Config, cfg': Config) {
    cfg' == cfg.(def := cfg'.def, codec := cfg'.codec, tape := cfg'.tape)
  }

  ghost predicate SameOps(cfg: Config, cfg': Config) {
    cfg'.ops == cfg.ops && cfg'.nodeCount == cfg.nodeCount && cfg'.horizon == cfg.horizon
  }

  lemma {:induction false} SameQueued(cfg: Config, cfg': Config, p: nat, upTo: nat)
    requires SameOps(cfg, cfg') && cfg.nodeCount > 0 && upTo <= |cfg.ops|
    ensures Queued(cfg', p, upTo) == Queued(cfg, p, upTo)
  {
    if upTo == 0 {
    } else {
      SameQueued(cfg, cfg', p, upTo - 1);
    }
  }

  lemma SameReachable(cfg: Config, cfg': Config, i: nat)
    requires SameOps(cfg, cfg') && cfg.nodeCount > 0 && i < |cfg.ops|
    ensures Reachable(cfg', i) == Reachable(cfg, i)
  {
    SameQueued(cfg, cfg', cfg.ops[i].process % cfg.nodeCount, i);
  }

  ghost predicate AlwaysReproduced(cfg: Config, faults: seq<(nat, FaultAction)>)
    requires cfg.nodeCount > 0
  {
    forall cfg', k {:trigger Reproduced(cfg', faults, k)} ::
      SameFrame(cfg, cfg') && !Run(cfg', Init(cfg', faults), k).1 ==> Reproduced(cfg', faults, k)
  }

  /** An op that is routed elsewhere and has time: some nodes make its replay another run. */
  lemma RouteMatters(n: Rerouted.Node, cfg: Config, faults: seq<(nat, FaultAction)>, i: nat)
    returns (cfg': Config, k: nat)
    requires cfg.nodeCount > 0 && i < |cfg.ops| && Reachable(cfg, i) && !RouteIsDefault(cfg.ops[i], cfg.nodeCount)
    ensures SameFrame(cfg, cfg') && !Run(cfg', Init(cfg', faults), k).1 && !Reproduced(cfg', faults, k)
  {
    var p := cfg.ops[i].process % cfg.nodeCount;
    var bad := cfg.ops[i].route.value % cfg.nodeCount;
    cfg' := cfg.(def := Biased(n, bad), codec := Some(Rerouted.PlainCodec(n)));
    SameReachable(cfg, cfg', i);
    k := OriginalFails(cfg', n, bad, faults, p, i);
    var h := Finish(Run(cfg', Init(cfg', faults), k).0).core.history;
    CollectedRoutes(h);
    CleanRun(ReplayOf(cfg', h), n, bad, faults, k, p);
  }

  /** Replay reproduces every completed run of these ops under these faults, whatever the nodes, codec and
      draws, exactly when no op the horizon leaves time for is routed to another node than its process's. */
  lemma ReplayIsExact(n: Rerouted.Node, cfg: Config, faults: seq<(nat, FaultAction)>)
    requires cfg.nodeCount > 0
    ensures AlwaysReproduced(cfg, faults) <==> RoutesOk(cfg)
  {
    if RoutesOk(cfg) {
      forall cfg', k {:trigger Reproduced(cfg', faults, k)}
        | SameFrame(cfg, cfg') && !Run(cfg', Init(cfg', faults), k).1
        ensures Reproduced(cfg', faults, k)
      {
        forall i | 0 <= i < |cfg.ops| && Reachable(cfg', i) ensures RouteIsDefault(cfg'.ops[i], cfg.nodeCount) {
          SameReachable(cfg, cfg', i);
        }
        ReplayReproduces(cfg', faults, k);
      }
    } else {
      var i :| 0 <= i < |cfg.ops| && Reachable(cfg, i) && !RouteIsDefault(cfg.ops[i], cfg.nodeCount);
      var cfg', k := RouteMatters(n, cfg, faults, i);
    }
  }
}
