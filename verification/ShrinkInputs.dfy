/** Two runs on which shrinking does less than its comment says: one whose kept scenario passes, because
    its op was routed, and one whose kept scenario is not the shortest that fails. */
module ShrinkInputs {
  import opened Ops
  import opened Engine
  import opened Runs
  import opened Tokens
  import opened Gate
  import opened OpFlow
  import opened Progress
  import opened Replay
  import opened FaultPlan
  import opened Properties
  import opened Shrink
  import opened Transport
  import Rerouted
  import Serial

  type Plain = Judge<bool, bool>

  /** A property of the final history alone. */
  function OnHistory(claim: seq<OpEntry> -> bool): Property {
    Property(PropertyKind.Always, (nodes: seq<NodeState>, h: seq<OpEntry>, t: nat) => claim(h), None)
  }

  lemma {:induction false} OnHistoryIs(claim: seq<OpEntry> -> bool, h: seq<OpEntry>, frames: seq<Frame>,
      events: seq<RunEvent>)
    requires frames != []
    ensures EvaluateOne(OnHistory(claim), h, frames, events) == claim(h)
  {
    assert Holds(OnHistory(claim), h, frames[0]) == claim(h);
    if |frames| == 1 {
      assert AllFrames(OnHistory(claim), h, frames[1..]);
    } else {
      OnHistoryIs(claim, h, frames[1..], events);
    }
  }

  /** The one judge decides. */
  lemma OneJudge(s: Subject, claim: seq<OpEntry> -> bool, ops: seq<FrozenOp>)
    requires PinnedRun(s, ops).0.frames != []
    ensures var judges: seq<Plain> := [ByProperty(OnHistory(claim))];
            StillFails(s, judges, ops) <==> !claim(Finish(PinnedRun(s, ops).0).core.history)
  {
    var w := PinnedRun(s, ops).0;
    var judges: seq<Plain> := [ByProperty(OnHistory(claim))];
    OnHistoryIs(claim, Finish(w).core.history, w.frames, w.core.events);
    assert Rejects(judges[0], Finish(w).core.history, w.frames, w.core.events)
        == !claim(Finish(w).core.history);
  }

  // ----- Runs without ops -----

  lemma {:induction false} NoneOpened(h: seq<OpEntry>, i: nat)
    requires i < |h| && h[i].kind.Invoke?
    ensures Opened(h, h[i].process) > 0
  {
    var last := |h| - 1;
    if i == last {
    } else {
      assert h[..last][i] == h[i];
      NoneOpened(h[..last], i);
    }
  }

  lemma NothingOpened(cfg: Config, faults: seq<(nat, FaultAction)>, n: nat, p: nat)
    requires p < cfg.nodeCount && cfg.ops == []
    ensures Opened(Run(cfg, Init(cfg, faults), n).0.core.history, p) == 0
  {
    var k := n;
    if !Run(cfg, Init(cfg, faults), n).1 {
      k := LastIteration(cfg, faults, n);
      LastKeepsHistory(cfg, faults, k);
    }
    StreamIsConserved(cfg, faults, k, p);
    IssuedCount(Run(cfg, Init(cfg, faults), k).0.core.history, p);
    assert Stream(cfg, p) == [];
  }

  lemma NoInvokeAt(cfg: Config, faults: seq<(nat, FaultAction)>, n: nat, h: seq<OpEntry>, i: nat)
    requires cfg.nodeCount > 0 && cfg.ops == []
    requires h == Run(cfg, Init(cfg, faults), n).0.core.history && i < |h|
    ensures !h[i].kind.Invoke?
  {
    if h[i].kind.Invoke? {
      InvokesStayInCluster(cfg, faults, n);
      NoneOpened(h, i);
      NothingOpened(cfg, faults, n, h[i].process);
    }
  }

  lemma NoOpsNoInvokes(cfg: Config, faults: seq<(nat, FaultAction)>, n: nat)
    requires cfg.nodeCount > 0 && cfg.ops == []
    ensures var h := Run(cfg, Init(cfg, faults), n).0.core.history; forall i :: 0 <= i < |h| ==> !h[i].kind.Invoke?
  {
    var h := Run(cfg, Init(cfg, faults), n).0.core.history;
    forall i | 0 <= i < |h| ensures !h[i].kind.Invoke? {
      NoInvokeAt(cfg, faults, n, h, i);
    }
  }

  lemma FirstIsInvoke(c: Core)
    requires c.history != []
    requires forall j: nat :: j < |c.history| && !c.history[j].kind.Invoke? ==>
               exists i: nat :: Closes(c.history, c.tokens, i, j)
    ensures c.history[0].kind.Invoke?
  {
    var first: nat := 0;
    assert !c.history[first].kind.Invoke? ==> exists i: nat :: Closes(c.history, c.tokens, i, first);
  }

  /** A run without ops records nothing. */
  lemma NoOpsNoHistory(cfg: Config, faults: seq<(nat, FaultAction)>, n: nat)
    requires cfg.nodeCount > 0 && cfg.ops == []
    ensures Finish(Run(cfg, Init(cfg, faults), n).0).core.history == []
  {
    var w := Run(cfg, Init(cfg, faults), n).0;
    NoOpsNoInvokes(cfg, faults, n);
    FinishAddsTerminals(w.core);
    EveryInvokeIsClosed(cfg, faults, n);
    if Finish(w).core.history != [] {
      FirstIsInvoke(Finish(w).core);
    }
  }

  // ----- A kept scenario that passes -----

  predicate NotAnswered(h: seq<OpEntry>) {
    !(|h| == 2 && h[1].kind.Ok?)
  }

  function RoutedSubject(n: Rerouted.Node, tape: nat -> u64, faultTape: nat -> u64): Subject {
    Subject(PlanData(2, None, None, 1, None), Rerouted.SecondAnswers(n), Some(Rerouted.PlainCodec(n)), tape,
        faultTape, 2)
  }

  const ROUTED: seq<FrozenOp> := [FrozenOp(0, Some(1), Nil)]
  const UNROUTED: seq<FrozenOp> := [FrozenOp(0, None, Nil)]

  lemma RoutedRuns(n: Rerouted.Node, tape: nat -> u64, faultTape: nat -> u64) returns (a: World, b: World)
    ensures var s := RoutedSubject(n, tape, faultTape);
            && OriginalRun(s, ROUTED) == (a, false) && PinnedRun(s, UNROUTED) == (b, false)
            && CollectOps(Finish(a).core.history) == UNROUTED
    ensures a.frames != [] && b.frames != []
    ensures !NotAnswered(Finish(a).core.history) && NotAnswered(Finish(b).core.history)
  {
    var s := RoutedSubject(n, tape, faultTape);
    var horizon := 15 * SECONDS;
    a := Rerouted.WholeRun(n, Some(1), tape, horizon);
    b := Rerouted.WholeRun(n, None, tape, horizon);
    Rerouted.FinalHistory(a.core, Rerouted.Server(Some(1)));
    Rerouted.FinalHistory(b.core, Rerouted.Server(None));
    Rerouted.Collected(Finish(a).core.history);
    assert Setup(s.data, s.def, s.codec, tape, faultTape, ROUTED) == (Rerouted.OneOp(n, Some(1), tape, horizon), []);
    assert Setup(DataWithOps(s.data, UNROUTED), s.def, s.codec, tape, faultTape, [])
        == (Rerouted.OneOp(n, None, tape, horizon), []);
  }

  lemma NothingRuns(n: Rerouted.Node, tape: nat -> u64, faultTape: nat -> u64)
    ensures var w := PinnedRun(RoutedSubject(n, tape, faultTape), []).0;
            Finish(w).core.history == [] && w.frames != []
  {
    var s := RoutedSubject(n, tape, faultTape);
    var (cfg, faults) := Setup(DataWithOps(s.data, []), s.def, s.codec, tape, faultTape, []);
    NoOpsNoHistory(cfg, faults, s.rounds);
    RunFrames(cfg, faults, s.rounds);
  }

  /** The original run fails, and the scenario kept, the one op without its route, does not. */
  lemma KeptScenarioPasses(n: Rerouted.Node, tape: nat -> u64, faultTape: nat -> u64)
    ensures var s := RoutedSubject(n, tape, faultTape);
            var judges: seq<Plain> := [ByProperty(OnHistory(NotAnswered))];
            && !OriginalRun(s, ROUTED).1 && Violates(judges[0], OriginalRun(s, ROUTED).0)
            && StopsAt(CollectOps(Finish(OriginalRun(s, ROUTED).0).core.history), ops => StillFails(s, judges, ops),
                UNROUTED)
            && !StillFails(s, judges, UNROUTED)
  {
    var s := RoutedSubject(n, tape, faultTape);
    var a, b := RoutedRuns(n, tape, faultTape);
    NothingRuns(n, tape, faultTape);
    OneJudge(s, NotAnswered, UNROUTED);
    OneJudge(s, NotAnswered, []);
    OnHistoryIs(NotAnswered, Finish(a).core.history, a.frames, a.core.events);
    assert UNROUTED[..0] == [];
  }

  // ----- A kept scenario that is not the shortest -----

  predicate OneOpRecorded(h: seq<OpEntry>) {
    |h| == 2
  }

  function SerialSubject(s: NodeState, tape: nat -> u64, faultTape: nat -> u64): Subject {
    Subject(PlanData(1, None, None, 1, None), Serial.Idle(s), None, tape, faultTape, 3)
  }

  /** Runs of no, one and two ops. */
  lemma SerialRuns(s: NodeState, tape: nat -> u64, faultTape: nat -> u64, k: nat) returns (w: World)
    requires k <= 2
    ensures var subject := SerialSubject(s, tape, faultTape);
            OriginalRun(subject, Serial.Repeated(k)) == PinnedRun(subject, Serial.Repeated(k)) == (w, false)
    ensures w.frames != [] && |Finish(w).core.history| == 2 * k &&
            CollectOps(Finish(w).core.history) == Serial.Repeated(k)
  {
    var subject := SerialSubject(s, tape, faultTape);
    var horizon, ops := 15 * SECONDS, Serial.Repeated(k);
    w := Serial.WholeRun(s, tape, horizon, k, 3);
    Serial.NothingToClose(w.core);
    var cfg := Serial.Setting(s, tape, horizon, k);
    assert Setup(subject.data, subject.def, None, tape, faultTape, ops) == (cfg, []);
    assert Setup(DataWithOps(subject.data, ops), subject.def, None, tape, faultTape, []) == (cfg, []);
  }

  /** A property that only a run of one op meets: two ops fail, one op passes, and so the loop keeps
      two although none at all would do. */
  lemma KeepsMoreThanNeeded(s: NodeState, tape: nat -> u64, faultTape: nat -> u64)
    ensures var subject := SerialSubject(s, tape, faultTape);
            var judges: seq<Plain> := [ByProperty(OnHistory(OneOpRecorded))];
            var fails := (ops: seq<FrozenOp>) => StillFails(subject, judges, ops);
            var two := Serial.Repeated(2);
            && CollectOps(Finish(OriginalRun(subject, two).0).core.history) == two
            && StopsAt(two, fails, two) && fails(two) && fails([]) && !Shortest(two, fails, two)
  {
    var subject := SerialSubject(s, tape, faultTape);
    var judges: seq<Plain> := [ByProperty(OnHistory(OneOpRecorded))];
    var none := SerialRuns(s, tape, faultTape, 0);
    var one := SerialRuns(s, tape, faultTape, 1);
    var two := SerialRuns(s, tape, faultTape, 2);
    OneJudge(subject, OneOpRecorded, Serial.Repeated(0));
    OneJudge(subject, OneOpRecorded, Serial.Repeated(1));
    OneJudge(subject, OneOpRecorded, Serial.Repeated(2));
    assert Serial.Repeated(2)[..1] == Serial.Repeated(1) && Serial.Repeated(2)[..0] == Serial.Repeated(0) == [];
  }
}
