/** Shrinking a failing run by truncating its op stream (`shrink_scenario` and `still_fails`,
    crates/propsim-sim/src/lib.rs): the scenario kept still fails. */
module Shrink {
  import opened Ops
  import opened Spans
  import opened Linearizability
  import opened Engine
  import opened Runs
  import opened Tokens
  import opened Replay
  import opened FaultPlan
  import opened Properties
  import opened Driver

  // ----- What it means for a run to fail -----

  /** A judge that goes by the failed name: a property or a history oracle. */
  datatype Judge<!State(==, !new), !Op(!new)> =
    | ByProperty(property: Property)
    | ByOracle(model: SequentialModel<State, Op>, realTime: bool)

  /** Everything about a run but its op stream. `rounds` bounds the main loop. */
  datatype Subject = Subject(
    data: PlanData, def: NodeDef, codec: Option<Codec>, tape: nat -> u64, faultTape: nat -> u64, rounds: nat)

  ghost predicate Rejects<State(!new), Op(!new)>(
    judge: Judge<State, Op>, history: seq<OpEntry>, frames: seq<Frame>, events: seq<RunEvent>)
  {
    match judge
    case ByProperty(property) => !EvaluateOne(property, history, frames, events)
    case ByOracle(model, realTime) => !HistoryLinearizable(model, realTime, history)
  }

  ghost predicate Violates<State(!new), Op(!new)>(judge: Judge<State, Op>, w: World) {
    Rejects(judge, Finish(w).core.history, w.frames, w.core.events)
  }

  ghost predicate SomeRejects<State(!new), Op(!new)>(
    judges: seq<Judge<State, Op>>, history: seq<OpEntry>, frames: seq<Frame>, events: seq<RunEvent>)
  {
    exists i :: 0 <= i < |judges| && Rejects(judges[i], history, frames, events)
  }

  /** The run of the plan itself, with the op stream its workload yields. */
  function OriginalRun(s: Subject, sampled: seq<FrozenOp>): (World, bool) {
    var (cfg, faults) := Setup(s.data, s.def, s.codec, s.tape, s.faultTape, sampled);
    Run(cfg, Init(cfg, faults), s.rounds)
  }

  /** The run with this op stream pinned. */
  function PinnedRun(s: Subject, ops: seq<FrozenOp>): (World, bool) {
    var (cfg, faults) := Setup(DataWithOps(s.data, ops), s.def, s.codec, s.tape, s.faultTape, []);
    Run(cfg, Init(cfg, faults), s.rounds)
  }

  ghost predicate StillFails<State(!new), Op(!new)>(
    s: Subject, judges: seq<Judge<State, Op>>, ops: seq<FrozenOp>)
  {
    var w := PinnedRun(s, ops).0;
    SomeRejects(judges, Finish(w).core.history, w.frames, w.core.events)
  }

  // ----- The loop -----

  /** What the loop stops at: every longer proper prefix fails, and cutting one more op passes. */
  ghost predicate StopsAt(full: seq<FrozenOp>, fails: seq<FrozenOp> -> bool, best: seq<FrozenOp>) {
    && best <= full
    && (forall m :: |best| <= m < |full| ==> fails(full[..m]))
    && (best != [] ==> !fails(full[..|best| - 1]))
  }

  lemma NotLonger(full: seq<FrozenOp>, fails: seq<FrozenOp> -> bool, a: seq<FrozenOp>, b: seq<FrozenOp>)
    requires StopsAt(full, fails, a) && StopsAt(full, fails, b)
    ensures |a| <= |b|
  {
    if a == [] {
    } else {
      var shorter := full[..|a| - 1];
      assert !fails(shorter);
    }
  }

  /** There is one place to stop at. */
  lemma StopsOnce(full: seq<FrozenOp>, fails: seq<FrozenOp> -> bool, a: seq<FrozenOp>, b: seq<FrozenOp>)
    requires StopsAt(full, fails, a) && StopsAt(full, fails, b)
    ensures a == b
  {
    NotLonger(full, fails, a, b);
    NotLonger(full, fails, b, a);
    assert a == full[..|a|] && b == full[..|b|];
  }

  method RunStillFails<State(==, !new), Op(!new)>(s: Subject, judges: seq<Judge<State, Op>>, ops: seq<FrozenOp>)
    returns (failed: bool)
    ensures failed <==> StillFails(s, judges, ops)
  {
    var (cfg, faults) := Setup(DataWithOps(s.data, ops), s.def, s.codec, s.tape, s.faultTape, []);
    var history, frames, events, running := RunDeterministic(cfg, faults, s.rounds);
    for i := 0 to |judges|
      invariant forall k :: 0 <= k < i ==> !Rejects(judges[k], history, frames, events)
    {
      var valid: bool;
      match judges[i] {
        case ByProperty(property) => valid := EvaluateOne(property, history, frames, events);
        case ByOracle(model, realTime) =>
          var oracle := new LinearizabilityOracle<State, Op>(model, realTime);
          valid := oracle.Check(history);
      }
      if !valid {
        assert Rejects(judges[i], history, frames, events);
        return true;
      }
    }
    failed := false;
  }

  /** Every proper prefix from length `len` on fails. */
  ghost predicate FailsDownTo(full: seq<FrozenOp>, fails: seq<FrozenOp> -> bool, len: nat) {
    len <= |full| && forall m :: len <= m < |full| ==> fails(full[..m])
  }

  lemma CutOne(full: seq<FrozenOp>, fails: seq<FrozenOp> -> bool, len: nat)
    requires len > 0 && FailsDownTo(full, fails, len) && fails(full[..len - 1])
    ensures FailsDownTo(full, fails, len - 1)
  {
  }

  lemma Stopped(full: seq<FrozenOp>, fails: seq<FrozenOp> -> bool, len: nat)
    requires FailsDownTo(full, fails, len)
    requires len > 0 ==> !fails(full[..len - 1])
    ensures StopsAt(full, fails, full[..len])
  {
  }

  method Truncate<State(==, !new), Op(!new)>(s: Subject, judges: seq<Judge<State, Op>>, full: seq<FrozenOp>)
    returns (best: seq<FrozenOp>)
    ensures StopsAt(full, ops => StillFails(s, judges, ops), best)
  {
    best := full;
    var len := |full|;
    ghost var fails := (ops: seq<FrozenOp>) => StillFails(s, judges, ops);
    while len > 0
      invariant 0 <= len <= |full| && best == full[..len] && FailsDownTo(full, fails, len)
    {
      var candidate := full[..len - 1];
      var failed := RunStillFails(s, judges, candidate);
      if !failed {
        break;
      }
      CutOne(full, fails, len);
      best := candidate;
      len := len - 1;
    }
    Stopped(full, fails, len);
  }

  /** `shrink_scenario`: run once more, recover the ops, and cut while the run still fails. */
  method ShrinkScenario<State(==, !new), Op(!new)>(
    s: Subject, judges: seq<Judge<State, Op>>, sampled: seq<FrozenOp>)
    returns (full: seq<FrozenOp>, kept: Scenario)
    ensures full == CollectOps(Finish(OriginalRun(s, sampled).0).core.history)
    ensures StopsAt(full, ops => StillFails(s, judges, ops), kept.ops)
    ensures kept.faults == match s.data.faults case Some(faults) => faults case None => Faults(Swarm([]), Safety)
  {
    var (cfg, faults) := Setup(s.data, s.def, s.codec, s.tape, s.faultTape, sampled);
    var history, frames, events, running := RunDeterministic(cfg, faults, s.rounds);
    full := CollectOps(history);
    var best := Truncate(s, judges, full);
    kept := Scenario(best, if s.data.faults.Some? then s.data.faults.value else SWARM);
  }

  // ----- The scenario kept still fails -----

  ghost predicate EndsInfo(h: seq<OpEntry>, n: nat) {
    forall i :: n <= i < |h| ==> h[i].kind.Info?
  }

  /** A property that does not read the times of indeterminate entries at the end of a history. */
  ghost predicate BlindToFinalTimes(property: Property) {
    forall nodes, t, h, h', n: nat :: SameUpToTimes(h, h', n) && EndsInfo(h, n) ==>
      property.claim(nodes, h, t) == property.claim(nodes, h', t)
  }

  lemma {:induction false} BlindAllFrames(property: Property, h: seq<OpEntry>, h': seq<OpEntry>, n: nat,
      frames: seq<Frame>)
    requires BlindToFinalTimes(property) && SameUpToTimes(h, h', n) && EndsInfo(h, n)
    ensures AllFrames(property, h, frames) == AllFrames(property, h', frames)
    decreases |frames|
  {
    if frames == [] {
    } else {
      BlindAllFrames(property, h, h', n, frames[1..]);
    }
  }

  lemma {:induction false} BlindAnyFrame(
    property: Property, h: seq<OpEntry>, h': seq<OpEntry>, n: nat, frames: seq<Frame>, lo: nat, hi: Option<nat>)
    requires BlindToFinalTimes(property) && SameUpToTimes(h, h', n) && EndsInfo(h, n)
    ensures AnyFrame(property, h, frames, lo, hi) == AnyFrame(property, h', frames, lo, hi)
    decreases |frames|
  {
    if frames == [] {
    } else {
      BlindAnyFrame(property, h, h', n, frames[1..], lo, hi);
    }
  }

  /** Such a property gets the same verdict on both. */
  lemma BlindEvaluates(
    property: Property, h: seq<OpEntry>, h': seq<OpEntry>, n: nat, frames: seq<Frame>, events: seq<RunEvent>)
    requires BlindToFinalTimes(property) && SameUpToTimes(h, h', n) && EndsInfo(h, n)
    ensures EvaluateOne(property, h, frames, events) == EvaluateOne(property, h', frames, events)
  {
    BlindAllFrames(property, h, h', n, frames);
    BlindAnyFrame(property, h, h', n, frames, 0, None);
    if property.kind.EventuallyWithin? {
      var t0 := AnchorTime(property.after, events);
      BlindAnyFrame(property, h, h', n, frames, t0, Some(t0 + property.kind.deadline));
    }
  }

  lemma {:induction false} ClosingEndsInfo(c: Core, tokens: seq<nat>)
    ensures |c.history| <= |CloseAll(c, tokens).history| && EndsInfo(CloseAll(c, tokens).history, |c.history|)
    ensures c.history <= CloseAll(c, tokens).history
    decreases |tokens|
  {
    if tokens == [] {
    } else {
      ClosingEndsInfo(CloseOp(c, tokens[0], Info, Nil), tokens[1..]);
    }
  }

  /** Judges whose verdict survives a replay. */
  ghost predicate Reproducible<State(!new), Op(!new)>(judge: Judge<State, Op>) {
    judge.ByProperty? ==> BlindToFinalTimes(judge.property)
  }

  /** A judge that rejects a completed run still rejects it when its recovered ops are replayed, if
      no op that has time is routed elsewhere and no late script is lost. */
  lemma RejectedAgain<State(!new), Op(!new)>(s: Subject, judge: Judge<State, Op>, sampled: seq<FrozenOp>)
    requires !OriginalRun(s, sampled).1 && Violates(judge, OriginalRun(s, sampled).0) && Reproducible(judge)
    requires RoutesOk(Setup(s.data, s.def, s.codec, s.tape, s.faultTape, sampled).0) && ScriptIsShort(s.data)
    ensures Violates(judge, PinnedRun(s, CollectOps(Finish(OriginalRun(s, sampled).0).core.history)).0)
  {
    PinnedPlanReproduces(s.data, s.def, s.codec, s.tape, s.faultTape, sampled, s.rounds);
    var a := OriginalRun(s, sampled).0;
    var h := Finish(a).core.history;
    var b := PinnedRun(s, CollectOps(h)).0;
    var h' := Finish(b).core.history;
    match judge
    case ByProperty(property) =>
      ClosingEndsInfo(a.core, PendingTokens(a.core.pending, a.core.nextToken, None));
      BlindEvaluates(property, h, h', |a.core.history|, a.frames, a.core.events);
    case ByOracle(model, realTime) =>
      SpansIgnoreTimes(model, h, h');
  }

  /** The recovered ops fail if the original run did. */
  lemma FullStillFails<State(!new), Op(!new)>(
    s: Subject, judges: seq<Judge<State, Op>>, i: nat, sampled: seq<FrozenOp>)
    requires i < |judges| && Reproducible(judges[i])
    requires !OriginalRun(s, sampled).1 && Violates(judges[i], OriginalRun(s, sampled).0)
    requires RoutesOk(Setup(s.data, s.def, s.codec, s.tape, s.faultTape, sampled).0) && ScriptIsShort(s.data)
    ensures StillFails(s, judges, CollectOps(Finish(OriginalRun(s, sampled).0).core.history))
  {
    RejectedAgain(s, judges[i], sampled);
  }

  /** What the loop keeps fails exactly if there was a failure to begin with: of the whole stream, or of a
      shorter one that the loop accepted. */
  lemma KeptFails(full: seq<FrozenOp>, fails: seq<FrozenOp> -> bool, best: seq<FrozenOp>)
    requires StopsAt(full, fails, best)
    ensures fails(best) <==> fails(full) || best != full
  {
    assert best == full[..|best|] && full == full[..|full|];
  }

  /** The promise of shrinking: the scenario kept reproduces the failure of a completed run, whatever
      the nodes, draws and faults. */
  lemma KeptScenarioFails<State(!new), Op(!new)>(
    s: Subject, judges: seq<Judge<State, Op>>, i: nat, sampled: seq<FrozenOp>, best: seq<FrozenOp>)
    requires i < |judges| && Reproducible(judges[i])
    requires !OriginalRun(s, sampled).1 && Violates(judges[i], OriginalRun(s, sampled).0)
    requires RoutesOk(Setup(s.data, s.def, s.codec, s.tape, s.faultTape, sampled).0) && ScriptIsShort(s.data)
    requires StopsAt(CollectOps(Finish(OriginalRun(s, sampled).0).core.history), ops => StillFails(s, judges, ops),
            best)
    ensures StillFails(s, judges, best)
  {
    FullStillFails(s, judges, i, sampled);
    KeptFails(CollectOps(Finish(OriginalRun(s, sampled).0).core.history), ops => StillFails(s, judges, ops), best);
  }

  // ----- Whether it is the shortest -----

  /** A prefix that fails while no shorter one does. */
  ghost predicate Shortest(full: seq<FrozenOp>, fails: seq<FrozenOp> -> bool, best: seq<FrozenOp>) {
    && best <= full && fails(best)
    && forall m :: 0 <= m < |best| ==> !fails(full[..m])
  }

  /** No failing proper prefix is followed by a passing one. */
  ghost predicate FailsOnward(full: seq<FrozenOp>, fails: seq<FrozenOp> -> bool) {
    forall m, n :: 0 <= m <= n < |full| && fails(full[..m]) ==> fails(full[..n])
  }

  lemma FirstCut(full: seq<FrozenOp>, fails: seq<FrozenOp> -> bool, best: seq<FrozenOp>)
    requires StopsAt(full, fails, best) && full != []
    ensures best != full <==> fails(full[..|full| - 1])
  {
    var m := |full| - 1;
    assert best == full[..|best|];
    if best != full {
      assert |best| <= m;
    }
  }

  lemma OnwardFromBest(full: seq<FrozenOp>, fails: seq<FrozenOp> -> bool, best: seq<FrozenOp>)
    requires StopsAt(full, fails, best)
    ensures (forall m :: 0 <= m < |best| ==> !fails(full[..m])) <==> FailsOnward(full, fails)
  {
  }

  /** The loop keeps the shortest failing prefix exactly when the whole stream or the first cut fails and
      failures go onward: it stops at the first prefix that passes. */
  lemma ShortestIffOnward(full: seq<FrozenOp>, fails: seq<FrozenOp> -> bool, best: seq<FrozenOp>)
    requires StopsAt(full, fails, best)
    ensures Shortest(full, fails, best) <==>
              (fails(full) || (full != [] && fails(full[..|full| - 1]))) && FailsOnward(full, fails)
  {
    KeptFails(full, fails, best);
    if full == [] {
      assert best == full;
    } else {
      FirstCut(full, fails, best);
    }
    OnwardFromBest(full, fails, best);
  }
}
