/** Nodes that tell two horizons apart: the first of them arms one timer at the start, which fires only if
    the run is not over by then. */
module LateTimer {
  import opened Ops
  import opened Engine
  import opened Runs
  import opened Clock
  import opened Gate
  import opened DoomedOps
  import opened Earliest
  import opened Replay
  import opened Misrouted
  import opened Properties

  // ----- The nodes -----

  function OneTimer(t: Timer, s: NodeState, late: nat): NodeDef {
    NodeDef(
      s,
      (me: nat, now: nat, st: NodeState) => if me == 0 then Do(SetTimer(t, late), Return(st)) else Return(st),
      (me, now, from, msg, st) => Return(st),
      (me, now, timer, st) => Return(st),
      (me, now, op, token, st) => Return((st, Pending)),
      timer => "t")
  }

  ghost predicate HasTimer(cfg: Config, t: Timer, s: NodeState, late: nat) {
    cfg.nodeCount > 0 && cfg.def == OneTimer(t, s, late) && cfg.codec == None && late < cfg.horizon
  }

  predicate Ring(e: Scheduled, t: Timer) {
    e.kind == Fire(0, t, 1)
  }

  /** Nothing is queued but ops and the timer, until it has fired. */
  ghost predicate Ticking(cfg: Config, w: World, t: Timer, late: nat) {
    && ClockOk(cfg, w.core) && w.core.crashed == [] && Generation(w.core, (0, "t")) == 1
    && (forall e :: e in w.core.queue ==> e.kind.Issue? || (Ring(e, t) && e.at == late))
    && ((exists e :: e in w.core.queue && Ring(e, t)) || late <= w.core.now)
  }

  // ----- One round -----

  lemma TakesEvent(cfg: Config, t: Timer, s: NodeState, late: nat, w: World) returns (e: Scheduled, c: Core)
    requires HasTimer(cfg, t, s, late) && Ticking(cfg, w, t, late) && Pop(cfg, w.core).1.Some?
    ensures e in w.core.queue && Pop(cfg, w.core) == (c, Some(e.kind))
    ensures |c.queue| == |w.core.queue| - 1 && forall x :: x in c.queue <==> x in w.core.queue && x != e
    ensures c.now == e.at && c.crashed == [] && c.timerGen == w.core.timerGen && ClockOk(cfg, c)
  {
    e, c := TakeRest(cfg, w.core);
    TakeShape(cfg, w.core, e, c);
    assert |Without(w.core.queue, MinIndex(w.core.queue))| == |w.core.queue| - 1;
    TakeOk(cfg, w.core);
    assert TimerKey(cfg, 0, t) == (0, "t");
    assert Fires(cfg, w.core, e.kind);
  }

  /** Ops fail at once and the timer is let pass. */
  lemma LetsPass(cfg: Config, t: Timer, s: NodeState, late: nat, w: World, kind: EventKind)
    requires HasTimer(cfg, t, s, late) && (kind.Issue? || kind.Fire?)
    ensures var w' := Dispatch(cfg, w, kind);
            && w'.core.queue == w.core.queue && w'.core.now == w.core.now && w'.core.crashed == w.core.crashed
            && w'.core.timerGen == w.core.timerGen && w'.perProcess == w.perProcess && w'.frames == w.frames
  {
  }

  lemma PumpOneTicks(cfg: Config, w: World, p: nat, t: Timer, late: nat, w': World)
    requires Ticking(cfg, w, t, late) && w' == PumpOne(w, p)
    ensures Ticking(cfg, w', t, late)
  {
    if w' != w {
      EnqueueOk(cfg, w.core, w.core.now + MILLIS, Issue(p, w.perProcess[p][0]));
      assert forall e :: e in w.core.queue ==> e in w'.core.queue;
    }
  }

  lemma {:induction false} PumpTicks(cfg: Config, w: World, upTo: nat, t: Timer, late: nat, v: World)
    requires Ticking(cfg, w, t, late) && v == Pump(w, upTo)
    ensures Ticking(cfg, v, t, late)
  {
    if upTo == 0 {
    } else {
      var u := Pump(w, upTo - 1);
      PumpTicks(cfg, w, upTo - 1, t, late, u);
      PumpLast(w, upTo);
      PumpOneTicks(cfg, u, upTo - 1, t, late, v);
    }
  }

  /** Between two rounds: the last frame is of now. */
  ghost predicate Ticks(cfg: Config, w: World, t: Timer, late: nat) {
    Ticking(cfg, w, t, late) && w.frames != [] && w.frames[|w.frames| - 1].0 == w.core.now
  }

  lemma PumpedTicks(cfg: Config, w: World, t: Timer, late: nat) returns (w': World)
    requires Ticking(cfg, w, t, late)
    ensures w' == Snapshot(Pump(w, cfg.nodeCount)) && Ticks(cfg, w', t, late) && OpsLeft(w') == OpsLeft(w)
  {
    var v := Pump(w, cfg.nodeCount);
    PumpTicks(cfg, w, cfg.nodeCount, t, late, v);
    PumpConserves(w, cfg.nodeCount);
    w' := Snapshot(v);
  }

  lemma ServedTicks(cfg: Config, t: Timer, s: NodeState, late: nat, w: World) returns (served: World)
    requires HasTimer(cfg, t, s, late) && Ticking(cfg, w, t, late) && Step(cfg, w).1
    ensures Ticking(cfg, served, t, late) && OpsLeft(served) == OpsLeft(w) - 1
    ensures Step(cfg, w) == (Snapshot(Pump(served, cfg.nodeCount)), true)
  {
    var e, c := TakesEvent(cfg, t, s, late, w);
    var popped := w.(core := c);
    served := Dispatch(cfg, popped, e.kind);
    LetsPass(cfg, t, s, late, popped, e.kind);
    KeepsClock(cfg);
    MovesIncludeEffects(cfg, c => ClockOk(cfg, c));
    DispatchKeeps(cfg, popped, e.kind, c => ClockOk(cfg, c));
    if exists x :: x in w.core.queue && Ring(x, t) {
      var x :| x in w.core.queue && Ring(x, t);
      assert x == e || x in served.core.queue;
    }
  }

  lemma RoundTicks(cfg: Config, t: Timer, s: NodeState, late: nat, w: World) returns (w': World)
    requires HasTimer(cfg, t, s, late) && Ticks(cfg, w, t, late) && Step(cfg, w).1
    ensures Step(cfg, w) == (w', true) && Ticks(cfg, w', t, late) && OpsLeft(w') == OpsLeft(w) - 1
  {
    var served := ServedTicks(cfg, t, s, late, w);
    w' := PumpedTicks(cfg, served, t, late);
  }

  lemma {:induction false} RoundsTick(cfg: Config, t: Timer, s: NodeState, late: nat, w0: World, k: nat)
    returns (w: World)
    requires HasTimer(cfg, t, s, late) && Ticks(cfg, w0, t, late) && Run(cfg, w0, k).1
    ensures Run(cfg, w0, k) == (w, true) && Ticks(cfg, w, t, late) && OpsLeft(w) + k == OpsLeft(w0)
  {
    if k == 0 {
      w := w0;
    } else {
      var before := RoundsTick(cfg, t, s, late, w0, k - 1);
      w := RoundTicks(cfg, t, s, late, before);
    }
  }

  // ----- The start -----

  lemma ArmsOnly(cfg: Config, c: Core, t: Timer, late: nat, s: NodeState)
    ensures Exec(cfg, c, 0, Do(SetTimer(t, late), Return(s))) == (ArmTimer(cfg, c, 0, t, late), s)
  {
    assert Exec(cfg, ArmTimer(cfg, c, 0, t, late), 0, Return(s)) == (ArmTimer(cfg, c, 0, t, late), s);
  }

  /** The first node arms its timer, the others do nothing. */
  lemma {:induction false} Starts(cfg: Config, t: Timer, s: NodeState, late: nat, upTo: nat, v: World)
    requires HasTimer(cfg, t, s, late) && 0 < upTo <= cfg.nodeCount && v == StartAll(cfg, Boot(cfg, []), upTo)
    ensures v.core == ArmTimer(cfg, NewCore(), 0, t, late) && |v.nodes| == cfg.nodeCount && v.frames == []
  {
    var w := Boot(cfg, []);
    if upTo == 1 {
      assert StartAll(cfg, w, 0) == w;
      ArmsOnly(cfg, w.core, t, late, w.nodes[0]);
      assert v == DispatchStart(cfg, w, 0);
    } else {
      var u := StartAll(cfg, w, upTo - 1);
      Starts(cfg, t, s, late, upTo - 1, u);
      assert v == DispatchStart(cfg, u, upTo - 1);
    }
  }

  lemma InitTicks(cfg: Config, t: Timer, s: NodeState, late: nat) returns (w0: World)
    requires HasTimer(cfg, t, s, late)
    ensures w0 == Init(cfg, []) && Ticks(cfg, w0, t, late)
  {
    var started := StartAll(cfg, Boot(cfg, []), cfg.nodeCount);
    Starts(cfg, t, s, late, cfg.nodeCount, started);
    w0 := Init(cfg, []);
    var w := Snapshot(started);
    var c := ArmOk(cfg, NewCore(), 0, t, late);
    assert Ring(w.core.queue[0], t) && w.core.queue == [w.core.queue[0]];
    PumpTicks(cfg, w, cfg.nodeCount, t, late, w0);
    PumpStill(w, cfg.nodeCount);
  }

  // ----- The whole run -----

  lemma RingIsDue(cfg: Config, t: Timer, s: NodeState, late: nat, w: World, e: Scheduled)
    requires HasTimer(cfg, t, s, late) && Ticking(cfg, w, t, late) && e in w.core.queue && Ring(e, t)
    ensures Pop(cfg, w.core).1.Some?
  {
    var head, c := TakeRest(cfg, w.core);
    assert e == head || Before(head, e);
    assert Fires(cfg, w.core, head.kind);
  }

  lemma EndsLate(cfg: Config, t: Timer, s: NodeState, late: nat, w: World)
    requires HasTimer(cfg, t, s, late) && Ticks(cfg, w, t, late) && !Step(cfg, w).1
    ensures late <= w.core.now
  {
    if exists e :: e in w.core.queue && Ring(e, t) {
      var e :| e in w.core.queue && Ring(e, t);
      RingIsDue(cfg, t, s, late, w, e);
    }
  }

  /** The run ends, and by then some frame is as late as the timer. */
  lemma RingsLate(cfg: Config, t: Timer, s: NodeState, late: nat) returns (k: nat, i: nat)
    requires HasTimer(cfg, t, s, late)
    ensures !Run(cfg, Init(cfg, []), k).1
    ensures i < |Run(cfg, Init(cfg, []), k).0.frames| && late <= Run(cfg, Init(cfg, []), k).0.frames[i].0
  {
    var w0 := InitTicks(cfg, t, s, late);
    k := OpsLeft(w0) + 1;
    if Run(cfg, w0, k).1 {
      var over := RoundsTick(cfg, t, s, late, w0, k);
    }
    var j := LastIteration(cfg, [], k);
    var w := RoundsTick(cfg, t, s, late, w0, j);
    EndsLate(cfg, t, s, late, w);
    i := |w.frames| - 1;
  }

  // ----- No frame is as late as the horizon -----

  lemma {:induction false} PopsEarly(cfg: Config, c: Core)
    requires Pop(cfg, c).1.Some?
    ensures Pop(cfg, c).0.now < cfg.horizon
    decreases |c.queue|
  {
    var head, c1 := c.queue[MinIndex(c.queue)], TakeHead(cfg, c);
    if Fires(cfg, c, head.kind) {
      CloseAllStill(c1, Victims(c1, head.kind));
    } else {
      PopsEarly(cfg, c1);
    }
  }

  ghost predicate FramesEarly(cfg: Config, w: World) {
    forall i :: 0 <= i < |w.frames| ==> w.frames[i].0 < cfg.horizon
  }

  lemma StepEarly(cfg: Config, w: World)
    requires FramesEarly(cfg, w)
    ensures FramesEarly(cfg, Step(cfg, w).0)
  {
    var (c, popped) := Pop(cfg, w.core);
    if popped.Some? {
      PopsEarly(cfg, w.core);
      var w1 := w.(core := c);
      DispatchStill(cfg, w1, popped.value);
      PumpStill(Dispatch(cfg, w1, popped.value), cfg.nodeCount);
    }
  }

  lemma {:induction false} RoundsEarly(cfg: Config, w0: World, n: nat)
    requires FramesEarly(cfg, w0)
    ensures FramesEarly(cfg, Run(cfg, w0, n).0)
  {
    if n == 0 {
    } else {
      RoundsEarly(cfg, w0, n - 1);
      StepEarly(cfg, Run(cfg, w0, n - 1).0);
    }
  }

  lemma RunsEarly(cfg: Config, faults: seq<(nat, FaultAction)>, n: nat)
    requires cfg.nodeCount > 0 && cfg.horizon > 0
    ensures FramesEarly(cfg, Run(cfg, Init(cfg, faults), n).0)
  {
    RunFrames(cfg, faults, 0);
    FaultsOnlyQueue(NewCore(), faults);
    StartAllStill(cfg, Boot(cfg, faults), cfg.nodeCount);
    PumpStill(Snapshot(StartAll(cfg, Boot(cfg, faults), cfg.nodeCount)), cfg.nodeCount);
    RoundsEarly(cfg, Init(cfg, faults), n);
  }
}
