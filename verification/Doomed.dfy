/** Client ops scheduled at or beyond the horizon are never issued, and block their process for the
    rest of the run. Leaving them out, the number of ops a process has scheduled only grows and
    ends at the number it issued. */
module DoomedOps {
  import opened Ops
  import opened Engine
  import opened Runs
  import opened Gate
  import opened OpFlow
  import opened Views

  ghost predicate HasDoomed(cfg: Config, q: seq<Scheduled>, p: nat) {
    exists e :: e in q && Doomed(cfg, e) && e.kind.process == p
  }

  /** Ops of `p` scheduled so far that will be issued. */
  ghost function Live(cfg: Config, w: World, p: nat): int
    requires p < |w.scheduled|
  {
    var total: int := w.scheduled[p];
    total - if HasDoomed(cfg, w.core.queue, p) then 1 else 0
  }

  ghost predicate SameDoomed(cfg: Config, q: seq<Scheduled>, q': seq<Scheduled>) {
    forall e :: Doomed(cfg, e) ==> (e in q <==> e in q')
  }

  ghost predicate AgreeOn(cfg: Config, w: World, w': World, p: nat) {
    && |w.scheduled| == |w'.scheduled| && |w.perProcess| == |w'.perProcess|
    && p < |w.scheduled| && p < |w.perProcess|
    && w.scheduled[p] == w'.scheduled[p]
    && w.perProcess[p] == w'.perProcess[p]
    && (HasDoomed(cfg, w.core.queue, p) <==> HasDoomed(cfg, w'.core.queue, p))
  }

  lemma SameDoomedHas(cfg: Config, q: seq<Scheduled>, q': seq<Scheduled>, p: nat)
    requires SameDoomed(cfg, q, q')
    ensures HasDoomed(cfg, q, p) <==> HasDoomed(cfg, q', p)
  {
  }

  lemma {:induction false} InFlightMember(q: seq<Scheduled>, p: nat)
    ensures InFlight(q, p) > 0 <==> exists e :: e in q && e.kind.Issue? && e.kind.process == p
  {
    if q == [] {
    } else {
      var last := |q| - 1;
      InFlightMember(q[..last], p);
      assert q == q[..last] + [q[last]];
    }
  }

  // ----- Popping and dispatching leave doomed ops alone -----

  lemma {:induction false} CloseAllQueue(c: Core, tokens: seq<nat>)
    ensures CloseAll(c, tokens).queue == c.queue
    decreases |tokens|
  {
    if tokens == [] {
    } else {
      CloseAllQueue(CloseOp(c, tokens[0], Info, Nil), tokens[1..]);
    }
  }

  lemma {:induction false} PopDoomed(cfg: Config, c: Core)
    requires Pop(cfg, c).1.Some? && Ordered(c.queue)
    ensures SameDoomed(cfg, c.queue, Pop(cfg, c).0.queue)
    decreases |c.queue|
  {
    var head, c1 := TakeRest(cfg, c);
    assert SameDoomed(cfg, c.queue, c1.queue);
    if Fires(cfg, c, head.kind) {
      CloseAllQueue(c1, Victims(c1, head.kind));
    } else {
      PopDoomed(cfg, c1);
    }
  }

  lemma NoNewDoomed(cfg: Config, c: Core, m: Move)
    requires Enabled(cfg, c, m) && (IsEffect(m) || m.Opening?)
    ensures SameDoomed(cfg, c.queue, Apply(cfg, c, m).queue)
  {
  }

  lemma DispatchDoomed(cfg: Config, w: World, kind: EventKind)
    ensures SameDoomed(cfg, w.core.queue, Dispatch(cfg, w, kind).core.queue)
    ensures Dispatch(cfg, w, kind).scheduled == w.scheduled && Dispatch(cfg, w, kind).perProcess == w.perProcess
    ensures Dispatch(cfg, w, kind).frames == w.frames
  {
    var q := w.core.queue;
    forall c: Core, m {:trigger Apply(cfg, c, m)}
      | SameDoomed(cfg, q, c.queue) && Enabled(cfg, c, m) && (IsEffect(m) || m.Opening?)
      ensures SameDoomed(cfg, q, Apply(cfg, c, m).queue)
    {
      NoNewDoomed(cfg, c, m);
    }
    DispatchKeeps(cfg, w, kind, (c: Core) => SameDoomed(cfg, q, c.queue));
  }

  // ----- Pumping -----

  lemma PumpOneElsewhere(cfg: Config, w: World, q: nat, p: nat)
    requires WorldGate(cfg, w, None) && p < cfg.nodeCount && p != q
    ensures AgreeOn(cfg, w, PumpOne(w, q), p)
  {
  }

  lemma PumpOneHere(cfg: Config, w: World, p: nat)
    requires WorldGate(cfg, w, None) && p < cfg.nodeCount
    ensures HasDoomed(cfg, w.core.queue, p) ==> PumpOne(w, p) == w
    ensures Live(cfg, w, p) <= Live(cfg, PumpOne(w, p), p)
  {
    var w' := PumpOne(w, p);
    if HasDoomed(cfg, w.core.queue, p) {
      InFlightMember(w.core.queue, p);
      assert w.scheduled[p] == Opened(w.core.history, p) + InFlight(w.core.queue, p);
      assert w.core.history[..|w.core.history|] == w.core.history;
      assert ClosedFor(w.core.history, p) <= Opened(w.core.history, p);
    }
  }

  /** Pumping treats processes separately: other turns before and after do not touch `p`. */
  lemma {:induction false} PumpBefore(cfg: Config, w: World, upTo: nat, p: nat)
    requires WorldGate(cfg, w, None) && upTo <= p < cfg.nodeCount
    ensures AgreeOn(cfg, Pump(w, upTo), w, p)
  {
    if upTo == 0 {
    } else {
      PumpGate(cfg, w, upTo - 1);
      PumpBefore(cfg, w, upTo - 1, p);
      PumpOneElsewhere(cfg, Pump(w, upTo - 1), upTo - 1, p);
    }
  }

  lemma PumpLast(w: World, upTo: nat)
    requires upTo > 0
    ensures Pump(w, upTo) == PumpOne(Pump(w, upTo - 1), upTo - 1)
  {
  }

  lemma StillAgree(cfg: Config, u: World, v: World, w: World, q: nat, p: nat)
    requires WorldGate(cfg, v, None) && p < cfg.nodeCount && p != q
    requires AgreeOn(cfg, v, u, p) && w == PumpOne(v, q)
    ensures AgreeOn(cfg, w, u, p)
  {
    PumpOneElsewhere(cfg, v, q, p);
  }

  lemma {:induction false} PumpAfter(cfg: Config, w: World, upTo: nat, p: nat, v: World, u: World)
    requires WorldGate(cfg, w, None) && p < upTo <= cfg.nodeCount && v == Pump(w, upTo) && u == Pump(w, p + 1)
    ensures AgreeOn(cfg, v, u, p)
  {
    if p == upTo - 1 {
      PumpGate(cfg, w, upTo);
    } else {
      PumpGate(cfg, w, upTo - 1);
      var v0 := Pump(w, upTo - 1);
      PumpAfter(cfg, w, upTo - 1, p, v0, u);
      PumpLast(w, upTo);
      StillAgree(cfg, u, v0, v, upTo - 1, p);
    }
  }

  lemma PumpLive(cfg: Config, w: World, p: nat)
    requires WorldGate(cfg, w, None) && p < cfg.nodeCount
    ensures var w' := Pump(w, cfg.nodeCount);
            && |w'.scheduled| == |w.scheduled|
            && Live(cfg, w, p) <= Live(cfg, w', p)
            && (HasDoomed(cfg, w.core.queue, p) ==>
                  HasDoomed(cfg, w'.core.queue, p) && Live(cfg, w, p) == Live(cfg, w', p))
  {
    PumpAfter(cfg, w, cfg.nodeCount, p, Pump(w, cfg.nodeCount), Pump(w, p + 1));
    PumpBefore(cfg, w, p, p);
    PumpGate(cfg, w, p);
    PumpOneHere(cfg, Pump(w, p), p);
  }

  // ----- Steps and runs -----

  lemma StepLive(cfg: Config, w: World, p: nat)
    requires WorldFlow(cfg, w, None) && Ordered(w.core.queue) && Step(cfg, w).1 && p < cfg.nodeCount
    ensures var w' := Step(cfg, w).0;
            && |w'.scheduled| == |w.scheduled|
            && Live(cfg, w, p) <= Live(cfg, w', p)
            && (HasDoomed(cfg, w.core.queue, p) ==>
                  HasDoomed(cfg, w'.core.queue, p) && Live(cfg, w, p) == Live(cfg, w', p))
  {
    var (c, popped) := Pop(cfg, w.core);
    var w1 := w.(core := c);
    var w2 := Dispatch(cfg, w1, popped.value);
    PopDoomed(cfg, w.core);
    SameDoomedHas(cfg, w.core.queue, c.queue, p);
    DispatchDoomed(cfg, w1, popped.value);
    SameDoomedHas(cfg, c.queue, w2.core.queue, p);
    PopGate(cfg, w.core, w.scheduled);
    DispatchGate(cfg, w1, popped.value);
    PumpLive(cfg, w2, p);
  }

  lemma SkipRest(cfg: Config, c: Core, head: Scheduled, c1: Core)
    requires c.queue != [] && head == c.queue[MinIndex(c.queue)] && c1 == TakeHead(cfg, c)
    requires head.at < cfg.horizon && !Fires(cfg, c, head.kind)
    ensures Rest(c1.(now := 0)) == Rest(c.(now := 0))
  {
  }

  lemma {:induction false} PopNoneIssues(cfg: Config, c: Core)
    requires Pop(cfg, c).1.None? && Ordered(c.queue)
    ensures forall e :: e in c.queue && e.kind.Issue? ==> e.at >= cfg.horizon
    ensures Rest(Pop(cfg, c).0.(now := 0)) == Rest(c.(now := 0))
    decreases |c.queue|
  {
    if c.queue != [] && c.queue[MinIndex(c.queue)].at < cfg.horizon {
      var head, c1 := TakeRest(cfg, c);
      TakeShape(cfg, c, head, c1);
      PopNoneIssues(cfg, c1);
      SkipRest(cfg, c, head, c1);
    } else {
      PopEnds(cfg, c);
    }
  }

  /** At the last iteration every op that was scheduled and not doomed has been issued. */
  lemma LastLive(cfg: Config, w: World, p: nat)
    requires WorldFlow(cfg, w, None) && Ordered(w.core.queue) && !Step(cfg, w).1 && p < cfg.nodeCount
    ensures Live(cfg, w, p) == Opened(w.core.history, p)
  {
    PopNoneIssues(cfg, w.core);
    InFlightMember(w.core.queue, p);
    assert w.scheduled[p] == Opened(w.core.history, p) + InFlight(w.core.queue, p);
    assert w.core.history[..|w.core.history|] == w.core.history;
    assert ClosedFor(w.core.history, p) <= Opened(w.core.history, p);
    if exists e :: e in w.core.queue && e.kind.Issue? && e.kind.process == p {
      var e :| e in w.core.queue && e.kind.Issue? && e.kind.process == p;
      assert Doomed(cfg, e);
    }
  }
}
