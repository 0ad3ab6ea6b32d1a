/** When the shrunk scenario reproduces the failure of every completed run of a plan: exactly when no op
    that has time is routed to another node than its process's and no late script is lost
    (`shrink_scenario`, crates/propsim-sim/src/lib.rs). */
module Reproducing {
  import opened Ops
  import opened Spans
  import opened Linearizability
  import opened Engine
  import opened Runs
  import opened Replay
  import opened FaultPlan
  import opened Properties
  import opened Shrink
  import opened ShrinkInputs
  import opened Misrouted
  import opened LateTimer
  import Earliest
  import Rerouted

  /** The configuration and faults of the original run. */
  function OriginalSetup(s: Subject, sampled: seq<FrozenOp>): (Config, seq<(nat, FaultAction)>) {
    Setup(s.data, s.def, s.codec, s.tape, s.faultTape, sampled)
  }

  function Recovered(s: Subject, sampled: seq<FrozenOp>): seq<FrozenOp> {
    CollectOps(Finish(OriginalRun(s, sampled).0).core.history)
  }

  /** If the run completes and judge `i` rejects it, the scenario kept still fails. */
  ghost predicate Keeps<State(!new), Op(!new)>(
    s: Subject, judges: seq<Judge<State, Op>>, i: nat, sampled: seq<FrozenOp>, best: seq<FrozenOp>)
  {
    && i < |judges| && Reproducible(judges[i])
    && !OriginalRun(s, sampled).1 && Violates(judges[i], OriginalRun(s, sampled).0)
    && StopsAt(Recovered(s, sampled), ops => StillFails(s, judges, ops), best) ==>
      StillFails(s, judges, best)
  }

  /** So it is for every node, codec, draws, number of rounds and judges. */
  ghost predicate AlwaysKeeps(data: PlanData, sampled: seq<FrozenOp>) {
    forall s: Subject, judges: seq<Plain>, i: nat, best {:trigger Keeps(s, judges, i, sampled, best)} ::
      s.data == data ==> Keeps(s, judges, i, sampled, best)
  }

  // ----- A judge that no pinned run fails -----

  ghost predicate Unrouted(ops: seq<FrozenOp>) {
    forall k :: 0 <= k < |ops| ==> ops[k].route.None?
  }

  /** If only the original fails, the loop keeps a scenario that does not. */
  lemma NothingKept(s: Subject, judges: seq<Plain>, sampled: seq<FrozenOp>)
    requires |judges| == 1 && Reproducible(judges[0])
    requires !OriginalRun(s, sampled).1 && Violates(judges[0], OriginalRun(s, sampled).0)
    requires forall ops :: Unrouted(ops) ==> !StillFails(s, judges, ops)
    ensures !Keeps(s, judges, 0, sampled, Recovered(s, sampled))
  {
    var full := Recovered(s, sampled);
    CollectedRoutes(Finish(OriginalRun(s, sampled).0).core.history);
    assert full[..|full|] == full;
    assert StopsAt(full, ops => StillFails(s, judges, ops), full);
  }

  // ----- A routed op -----

  /** Force-closing adds no failure. */
  lemma FinishAddsNone(w: World, p: nat)
    ensures FailedFor(Finish(w).core.history, p) <==> FailedFor(w.core.history, p)
  {
    var h, h' := w.core.history, Finish(w).core.history;
    ClosingEndsInfo(w.core, PendingTokens(w.core.pending, w.core.nextToken, None));
    if FailedFor(h, p) {
      var k :| 0 <= k < |h| && h[k].process == p && h[k].kind.Fail?;
      assert h'[k] == h[k];
    }
    if FailedFor(h', p) {
      var k :| 0 <= k < |h'| && h'[k].process == p && h'[k].kind.Fail?;
      assert k < |h| && h[k] == h'[k];
    }
  }

  lemma SameFailures(h: seq<OpEntry>, h': seq<OpEntry>, n: nat, p: nat)
    requires SameUpToTimes(h, h', n)
    ensures FailedFor(h, p) <==> FailedFor(h', p)
  {
    assert forall k :: 0 <= k < |h| ==> h[k].process == h'[k].process && h[k].kind == h'[k].kind;
  }

  lemma FailuresAreBlind(p: nat)
    ensures BlindToFinalTimes(OnHistory(h => !FailedFor(h, p)))
  {
    forall h, h', n: nat | SameUpToTimes(h, h', n) && EndsInfo(h, n) ensures FailedFor(h, p) <==> FailedFor(h', p) {
      SameFailures(h, h', n, p);
    }
  }

  /** The configuration and faults of a run with these ops pinned. */
  function PinnedSetup(s: Subject, ops: seq<FrozenOp>): (Config, seq<(nat, FaultAction)>) {
    Setup(DataWithOps(s.data, ops), s.def, s.codec, s.tape, s.faultTape, [])
  }

  /** No pinned run without routes fails an op of the process. */
  lemma PinnedClean(s: Subject, n: Rerouted.Node, bad: nat, p: nat, ops: seq<FrozenOp>)
    requires s.def == Biased(n, bad) && s.codec == Some(Rerouted.PlainCodec(n)) && p != bad && Unrouted(ops)
    ensures var judges: seq<Plain> := [ByProperty(OnHistory(h => !FailedFor(h, p)))]; !StillFails(s, judges, ops)
  {
    var (cfg, faults) := PinnedSetup(s, ops);
    CleanRun(cfg, n, bad, faults, s.rounds, p);
    RunFrames(cfg, faults, s.rounds);
    FinishAddsNone(PinnedRun(s, ops).0, p);
    OneJudge(s, h => !FailedFor(h, p), ops);
  }

  /** With an op that is routed elsewhere and has time, some nodes fail only as long as the route is there. */
  lemma RoutedIsLost(n: Rerouted.Node, s: Subject, sampled: seq<FrozenOp>)
    requires !RoutesOk(OriginalSetup(s, sampled).0)
    ensures !AlwaysKeeps(s.data, sampled)
  {
    var (cfg, faults) := OriginalSetup(s, sampled);
    var i :| 0 <= i < |cfg.ops| && Earliest.Reachable(cfg, i) && !RouteIsDefault(cfg.ops[i], cfg.nodeCount);
    var p, bad := cfg.ops[i].process % cfg.nodeCount, cfg.ops[i].route.value % cfg.nodeCount;
    var cfg' := cfg.(def := Biased(n, bad), codec := Some(Rerouted.PlainCodec(n)));
    SameReachable(cfg, cfg', i);
    var k := OriginalFails(cfg', n, bad, faults, p, i);
    var s' := s.(def := cfg'.def, codec := cfg'.codec, rounds := k);
    assert OriginalSetup(s', sampled) == (cfg', faults);
    var judges: seq<Plain> := [ByProperty(OnHistory(h => !FailedFor(h, p)))];
    var a := OriginalRun(s', sampled).0;
    RunFrames(cfg', faults, k);
    FinishAddsNone(a, p);
    OnHistoryIs(h => !FailedFor(h, p), Finish(a).core.history, a.frames, a.core.events);
    FailuresAreBlind(p);
    forall ops | Unrouted(ops) ensures !StillFails(s', judges, ops) {
      PinnedClean(s', n, bad, p, ops);
    }
    NothingKept(s', judges, sampled);
  }

  // ----- A late script -----

  /** A property of a frame's time alone. */
  function EarlierThan(late: nat): Property {
    Property(PropertyKind.Always, (nodes: seq<NodeState>, h: seq<OpEntry>, t: nat) => t < late, None)
  }

  lemma {:induction false} EarlierIs(late: nat, h: seq<OpEntry>, frames: seq<Frame>)
    ensures AllFrames(EarlierThan(late), h, frames) <==> forall i :: 0 <= i < |frames| ==> frames[i].0 < late
    decreases |frames|
  {
    if frames == [] {
    } else {
      EarlierIs(late, h, frames[1..]);
      assert Holds(EarlierThan(late), h, frames[0]) <==> frames[0].0 < late;
      assert forall i :: 0 < i < |frames| ==> frames[i] == frames[1..][i - 1];
    }
  }

  lemma PinnedEarly(s: Subject, ops: seq<FrozenOp>, late: nat)
    requires RunHorizon(DataWithOps(s.data, ops)) == late > 0
    ensures var judges: seq<Plain> := [ByProperty(EarlierThan(late))]; !StillFails(s, judges, ops)
  {
    var (cfg, faults) := PinnedSetup(s, ops);
    var w := PinnedRun(s, ops).0;
    RunsEarly(cfg, faults, s.rounds);
    EarlierIs(late, Finish(w).core.history, w.frames);
    var judges: seq<Plain> := [ByProperty(EarlierThan(late))];
    assert !Rejects(judges[0], Finish(w).core.history, w.frames, w.core.events);
  }

  /** With a late script, some nodes fail only in the time the pinned plan does not have. */
  lemma LateIsLost(n: Rerouted.Node, t: Timer, s: Subject, sampled: seq<FrozenOp>)
    requires !ScriptIsShort(s.data)
    ensures !AlwaysKeeps(s.data, sampled)
  {
    var late := 15 * SECONDS;
    HorizonPreserved(s.data, []);
    var s0 := s.(def := OneTimer(t, n.state, late), codec := None);
    var (cfg, faults) := OriginalSetup(s0, sampled);
    assert faults == [] && late < cfg.horizon;
    var k, i := RingsLate(cfg, t, n.state, late);
    var s' := s0.(rounds := k);
    var a := OriginalRun(s', sampled).0;
    var judges: seq<Plain> := [ByProperty(EarlierThan(late))];
    EarlierIs(late, Finish(a).core.history, a.frames);
    forall ops | Unrouted(ops) ensures !StillFails(s', judges, ops) {
      PinnedEarly(s', ops, late);
    }
    NothingKept(s', judges, sampled);
  }

  // ----- The theorem -----

  /** Which ops have time and where they go is settled by the plan. */
  lemma SamePlan(s: Subject, s': Subject, sampled: seq<FrozenOp>)
    requires s'.data == s.data && RoutesOk(OriginalSetup(s, sampled).0)
    ensures RoutesOk(OriginalSetup(s', sampled).0)
  {
    var cfg, cfg' := OriginalSetup(s, sampled).0, OriginalSetup(s', sampled).0;
    forall i | 0 <= i < |cfg'.ops| && Earliest.Reachable(cfg', i)
      ensures RouteIsDefault(cfg'.ops[i], cfg'.nodeCount)
    {
      SameReachable(cfg, cfg', i);
    }
  }

  /** Shrinking keeps its promise for a plan and its ops, whatever the nodes, codec, draws, rounds and judges,
      exactly when no op that has time is routed elsewhere and no late script is lost. */
  lemma ShrinkingIsExact(n: Rerouted.Node, t: Timer, s: Subject, sampled: seq<FrozenOp>)
    ensures AlwaysKeeps(s.data, sampled) <==> RoutesOk(OriginalSetup(s, sampled).0) && ScriptIsShort(s.data)
  {
    if !RoutesOk(OriginalSetup(s, sampled).0) {
      RoutedIsLost(n, s, sampled);
    } else if !ScriptIsShort(s.data) {
      LateIsLost(n, t, s, sampled);
    } else {
      forall s': Subject, judges: seq<Plain>, i: nat, best {:trigger Keeps(s', judges, i, sampled, best)}
        | s'.data == s.data
        ensures Keeps(s', judges, i, sampled, best)
      {
        SamePlan(s, s', sampled);
        if i < |judges| && Reproducible(judges[i]) && !OriginalRun(s', sampled).1
           && Violates(judges[i], OriginalRun(s', sampled).0)
           && StopsAt(Recovered(s', sampled), ops => StillFails(s', judges, ops), best)
        {
          KeptScenarioFails(s', judges, i, sampled, best);
        }
      }
    }
  }
}
