/** How early a process can issue an op: ops are a millisecond apart at least, so the op of rank `r` in its
    process is never issued before `r + 1` milliseconds (`pump_client_ops`, crates/propsim-sim/src/lib.rs). */
module Earliest {
  import opened Ops
  import opened Engine
  import opened Runs
  import opened Clock
  import opened Gate
  import opened DoomedOps

  predicate IssueOf(e: Scheduled, p: nat) {
    e.kind.Issue? && e.kind.process == p
  }

  /** The next op of `p` is queued no earlier than its rank allows, or could not be queued earlier now. */
  ghost predicate Due(c: Core, p: nat, n: nat) {
    && (forall e :: e in c.queue && IssueOf(e, p) ==> n * MILLIS <= e.at)
    && ((exists e :: e in c.queue && IssueOf(e, p)) || n * MILLIS <= c.now)
  }

  /** What is left of a process's queue, and when. */
  ghost predicate OnTimeFor(cfg: Config, w: World, p: nat)
    requires cfg.nodeCount > 0 && p < |w.scheduled| && p < |w.perProcess|
  {
    && w.scheduled[p] <= |Queued(cfg, p, |cfg.ops|)|
    && w.perProcess[p] == Queued(cfg, p, |cfg.ops|)[w.scheduled[p]..]
    && Due(w.core, p, w.scheduled[p])
  }

  ghost predicate OnTime(cfg: Config, w: World) {
    && |w.scheduled| == |w.perProcess| == cfg.nodeCount
    && forall p :: 0 <= p < cfg.nodeCount ==> OnTimeFor(cfg, w, p)
  }

  // ----- Taking an event -----

  lemma TakenDue(cfg: Config, c: Core, p: nat, n: nat)
    requires ClockOk(cfg, c) && Due(c, p, n)
    requires c.queue != [] && c.queue[MinIndex(c.queue)].at < cfg.horizon
    ensures Due(TakeHead(cfg, c), p, n)
  {
    var head, c' := TakeRest(cfg, c);
    TakeShape(cfg, c, head, c');
    if exists e :: e in c.queue && IssueOf(e, p) {
      var e :| e in c.queue && IssueOf(e, p);
      if e != head {
        assert e in c'.queue;
      }
    }
  }

  lemma {:induction false} ClosingSame(c: Core, tokens: seq<nat>)
    ensures CloseAll(c, tokens).queue == c.queue && CloseAll(c, tokens).now == c.now
    decreases |tokens|
  {
    if tokens == [] {
    } else {
      ClosingSame(CloseOp(c, tokens[0], Info, Nil), tokens[1..]);
    }
  }

  lemma SameDue(c: Core, c': Core, p: nat, n: nat)
    requires Due(c, p, n) && c'.queue == c.queue && c'.now == c.now
    ensures Due(c', p, n)
  {
  }

  lemma {:induction false} PopDue(cfg: Config, c: Core, p: nat, n: nat)
    requires ClockOk(cfg, c) && Due(c, p, n) && Pop(cfg, c).1.Some?
    ensures Due(Pop(cfg, c).0, p, n)
    decreases |c.queue|
  {
    var head := c.queue[MinIndex(c.queue)];
    var c1 := TakeHead(cfg, c);
    TakenDue(cfg, c, p, n);
    if Fires(cfg, c, head.kind) {
      ClosingSame(c1, Victims(c1, head.kind));
      SameDue(c1, Pop(cfg, c).0, p, n);
    } else {
      TakeOk(cfg, c);
      PopDue(cfg, c1, p, n);
    }
  }

  // ----- Running it -----

  /** The same ops are queued and no time has passed. */
  ghost predicate SameIssues(c: Core, q: seq<Scheduled>, now: nat) {
    c.now == now && forall e: Scheduled :: e.kind.Issue? ==> (e in c.queue <==> e in q)
  }

  lemma MoveSameIssues(cfg: Config, c: Core, m: Move, q: seq<Scheduled>, now: nat)
    requires SameIssues(c, q, now) && Enabled(cfg, c, m) && (IsEffect(m) || m.Opening?)
    ensures SameIssues(Apply(cfg, c, m), q, now)
  {
  }

  lemma KeepsIssues(cfg: Config, q: seq<Scheduled>, now: nat)
    ensures KeptByDispatch(cfg, c => SameIssues(c, q, now))
  {
    forall c: Core, m {:trigger Apply(cfg, c, m)}
      | SameIssues(c, q, now) && Enabled(cfg, c, m) && (IsEffect(m) || m.Opening?)
      ensures SameIssues(Apply(cfg, c, m), q, now)
    {
      MoveSameIssues(cfg, c, m, q, now);
    }
  }

  lemma IssuesDue(c: Core, c': Core, p: nat, n: nat)
    requires Due(c, p, n) && SameIssues(c', c.queue, c.now)
    ensures Due(c', p, n)
  {
  }

  /** A change that leaves queued ops, the clock and the processes' queues alone. */
  lemma StillOnTime(cfg: Config, w: World, w': World)
    requires OnTime(cfg, w) && SameIssues(w'.core, w.core.queue, w.core.now)
    requires w'.scheduled == w.scheduled && w'.perProcess == w.perProcess
    ensures OnTime(cfg, w')
  {
    forall p | 0 <= p < cfg.nodeCount ensures OnTimeFor(cfg, w', p) {
      assert OnTimeFor(cfg, w, p);
      IssuesDue(w.core, w'.core, p, w.scheduled[p]);
    }
  }

  lemma PopOnTime(cfg: Config, w: World)
    requires OnTime(cfg, w) && ClockOk(cfg, w.core) && Pop(cfg, w.core).1.Some?
    ensures OnTime(cfg, w.(core := Pop(cfg, w.core).0))
  {
    var w' := w.(core := Pop(cfg, w.core).0);
    forall p | 0 <= p < cfg.nodeCount ensures OnTimeFor(cfg, w', p) {
      assert OnTimeFor(cfg, w, p);
      PopDue(cfg, w.core, p, w.scheduled[p]);
    }
  }

  lemma DispatchOnTime(cfg: Config, w: World, kind: EventKind)
    requires OnTime(cfg, w)
    ensures OnTime(cfg, Dispatch(cfg, w, kind))
  {
    KeepsIssues(cfg, w.core.queue, w.core.now);
    DispatchKeeps(cfg, w, kind, c => SameIssues(c, w.core.queue, w.core.now));
    StillOnTime(cfg, w, Dispatch(cfg, w, kind));
  }

  // ----- Pumping -----

  /** A process that may go on has nothing in flight. */
  lemma NoneInFlight(cfg: Config, w: World, p: nat)
    requires WorldGate(cfg, w, None) && p < cfg.nodeCount && w.scheduled[p] <= ClosedFor(w.core.history, p)
    ensures forall e :: e in w.core.queue ==> !IssueOf(e, p)
  {
    InFlightMember(w.core.queue, p);
    assert w.scheduled[p] == Opened(w.core.history, p) + InFlight(w.core.queue, p);
    assert w.core.history[..|w.core.history|] == w.core.history;
    assert ClosedFor(w.core.history, p) <= Opened(w.core.history, p);
  }

  lemma PumpedDue(c: Core, p: nat, index: nat, n: nat)
    requires Due(c, p, n) && forall e :: e in c.queue ==> !IssueOf(e, p)
    ensures Due(Enqueue(c, c.now + MILLIS, Issue(p, index)), p, n + 1)
  {
    var c' := Enqueue(c, c.now + MILLIS, Issue(p, index));
    assert c'.queue[|c.queue|] in c'.queue;
  }

  lemma OthersDue(c: Core, p: nat, index: nat, q: nat, n: nat)
    requires Due(c, q, n) && q != p
    ensures Due(Enqueue(c, c.now + MILLIS, Issue(p, index)), q, n)
  {
    var c' := Enqueue(c, c.now + MILLIS, Issue(p, index));
    if exists e :: e in c.queue && IssueOf(e, q) {
      var e :| e in c.queue && IssueOf(e, q);
      assert e in c'.queue;
    }
  }

  lemma PumpOneOnTime(cfg: Config, w: World, p: nat)
    requires OnTime(cfg, w) && WorldGate(cfg, w, None)
    ensures OnTime(cfg, PumpOne(w, p))
  {
    var w' := PumpOne(w, p);
    if p < cfg.nodeCount && w.perProcess[p] != [] && w.scheduled[p] <= ClosedFor(w.core.history, p) {
      var index := w.perProcess[p][0];
      assert w'.core == Enqueue(w.core, w.core.now + MILLIS, Issue(p, index));
      forall q | 0 <= q < cfg.nodeCount ensures OnTimeFor(cfg, w', q) {
        assert OnTimeFor(cfg, w, q);
        if q == p {
          NoneInFlight(cfg, w, p);
          PumpedDue(w.core, p, index, w.scheduled[p]);
        } else {
          OthersDue(w.core, p, index, q, w.scheduled[q]);
        }
      }
    }
  }

  lemma {:induction false} PumpOnTime(cfg: Config, w: World, upTo: nat)
    requires OnTime(cfg, w) && WorldGate(cfg, w, None)
    ensures OnTime(cfg, Pump(w, upTo))
  {
    if upTo == 0 {
    } else {
      PumpOnTime(cfg, w, upTo - 1);
      PumpGate(cfg, w, upTo - 1);
      PumpOneOnTime(cfg, Pump(w, upTo - 1), upTo - 1);
      PumpLast(w, upTo);
    }
  }

  // ----- The run -----

  lemma {:induction false} QueuedShort(cfg: Config, p: nat, upTo: nat)
    requires upTo <= |cfg.ops| && cfg.nodeCount > 0
    ensures |Queued(cfg, p, upTo)| <= upTo
  {
    if upTo == 0 {
    } else {
      QueuedShort(cfg, p, upTo - 1);
    }
  }

  lemma BootOnTime(cfg: Config, faults: seq<(nat, FaultAction)>)
    requires cfg.nodeCount > 0
    ensures OnTime(cfg, Boot(cfg, faults))
  {
    var w := Boot(cfg, faults);
    FaultsOnlyQueue(NewCore(), faults);
    FaultsNotInFlight(NewCore(), faults);
    forall p | 0 <= p < cfg.nodeCount ensures OnTimeFor(cfg, w, p) {
      InFlightMember(w.core.queue, p);
    }
  }

  lemma {:induction false} StartAllOnTime(cfg: Config, w: World, upTo: nat)
    requires OnTime(cfg, w)
    ensures OnTime(cfg, StartAll(cfg, w, upTo))
  {
    if upTo == 0 {
    } else {
      StartAllOnTime(cfg, w, upTo - 1);
      var w1 := StartAll(cfg, w, upTo - 1);
      assert DispatchStart(cfg, w1, upTo - 1) == Dispatch(cfg, w1, Fault(Restart(upTo - 1)));
      DispatchOnTime(cfg, w1, Fault(Restart(upTo - 1)));
    }
  }

  lemma StepOnTime(cfg: Config, w: World)
    requires OnTime(cfg, w) && ClockOk(cfg, w.core) && WorldGate(cfg, w, None) && Step(cfg, w).1
    ensures OnTime(cfg, Step(cfg, w).0)
  {
    var (c, popped) := Pop(cfg, w.core);
    var w1 := w.(core := c);
    PopOnTime(cfg, w);
    PopGate(cfg, w.core, w.scheduled);
    DispatchOnTime(cfg, w1, popped.value);
    DispatchGate(cfg, w1, popped.value);
    var w2 := Dispatch(cfg, w1, popped.value);
    PumpOnTime(cfg, w2, cfg.nodeCount);
    StillOnTime(cfg, Pump(w2, cfg.nodeCount), Snapshot(Pump(w2, cfg.nodeCount)));
  }

  ghost predicate Punctual(cfg: Config, w: World) {
    OnTime(cfg, w) && ClockOk(cfg, w.core) && WorldGate(cfg, w, None)
  }

  lemma StepPunctual(cfg: Config, before: World, w: World)
    requires Punctual(cfg, before) && Step(cfg, before) == (w, true)
    ensures Punctual(cfg, w)
  {
    StepOnTime(cfg, before);
    StepGate(cfg, before);
    KeepsClock(cfg);
    StepKeeps(cfg, before, c => ClockOk(cfg, c));
  }

  lemma {:induction false} RoundsPunctual(cfg: Config, w0: World, n: nat) returns (w: World)
    requires Punctual(cfg, w0) && Run(cfg, w0, n).1
    ensures Run(cfg, w0, n) == (w, true) && Punctual(cfg, w)
  {
    if n == 0 {
      w := w0;
    } else {
      var before := RoundsPunctual(cfg, w0, n - 1);
      w := Run(cfg, w0, n).0;
      StepPunctual(cfg, before, w);
    }
  }

  lemma InitPunctual(cfg: Config, faults: seq<(nat, FaultAction)>)
    requires cfg.nodeCount > 0
    ensures Punctual(cfg, Init(cfg, faults))
  {
    var w := StartAll(cfg, Boot(cfg, faults), cfg.nodeCount);
    BootOnTime(cfg, faults);
    BootGate(cfg, faults);
    StartAllOnTime(cfg, Boot(cfg, faults), cfg.nodeCount);
    StartAllGate(cfg, Boot(cfg, faults), cfg.nodeCount);
    StillOnTime(cfg, w, Snapshot(w));
    PumpOnTime(cfg, Snapshot(w), cfg.nodeCount);
    RunGate(cfg, faults, 0);
    ClockHolds(cfg, faults, 0);
  }

  /** In every round of every run. */
  lemma RunPunctual(cfg: Config, faults: seq<(nat, FaultAction)>, n: nat) returns (w: World)
    requires cfg.nodeCount > 0 && Run(cfg, Init(cfg, faults), n).1
    ensures Run(cfg, Init(cfg, faults), n) == (w, true) && Punctual(cfg, w)
  {
    InitPunctual(cfg, faults);
    w := RoundsPunctual(cfg, Init(cfg, faults), n);
  }

  // ----- Ranks -----

  /** How many ops of its process come before an op. */
  function Rank(cfg: Config, i: nat): nat
    requires cfg.nodeCount > 0 && i < |cfg.ops|
  {
    |Queued(cfg, cfg.ops[i].process % cfg.nodeCount, i)|
  }

  /** An op the horizon leaves time for. */
  predicate Reachable(cfg: Config, i: nat)
    requires cfg.nodeCount > 0 && i < |cfg.ops|
  {
    (Rank(cfg, i) + 1) * MILLIS < cfg.horizon
  }

  lemma {:induction false} QueuedAt(cfg: Config, p: nat, upTo: nat, r: nat)
    requires cfg.nodeCount > 0 && upTo <= |cfg.ops| && r < |Queued(cfg, p, upTo)|
    ensures Queued(cfg, p, upTo)[r] < upTo
    ensures var i := Queued(cfg, p, upTo)[r]; cfg.ops[i].process % cfg.nodeCount == p && Rank(cfg, i) == r
  {
    if r == |Queued(cfg, p, upTo - 1)| {
    } else {
      QueuedAt(cfg, p, upTo - 1, r);
    }
  }

  /** The op a process may queue next, if it is not too late, is one the horizon leaves time for. */
  lemma NextIsReachable(cfg: Config, w: World, p: nat)
    requires OnTime(cfg, w) && WorldGate(cfg, w, None) && p < cfg.nodeCount
    requires w.perProcess[p] != [] && w.scheduled[p] <= ClosedFor(w.core.history, p)
    requires w.core.now + MILLIS < cfg.horizon
    ensures w.perProcess[p][0] < |cfg.ops| && Reachable(cfg, w.perProcess[p][0])
  {
    assert OnTimeFor(cfg, w, p);
    NoneInFlight(cfg, w, p);
    QueuedAt(cfg, p, |cfg.ops|, w.scheduled[p]);
  }
}
