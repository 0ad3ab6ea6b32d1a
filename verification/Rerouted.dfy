/** What replay does to a routed op: one sent to another node than its process's comes back from
    the history without its route, and the replay runs it somewhere else
    (`collect_ops`, crates/propsim-sim/src/lib.rs). */
module Rerouted {
  import opened Ops
  import opened Engine
  import opened Replay

  /** The one state of the nodes, and what the second of them answers to a client op. */
  datatype Node = Node(state: NodeState, op: ClientOp, answer: Response)

  /** Two nodes of which only the second answers client ops; the first leaves them pending. */
  function SecondAnswers(n: Node): NodeDef {
    NodeDef(
      n.state,
      (me, now, s) => Return(s),
      (me, now, from, msg, s) => Return(s),
      (me, now, timer, s) => Return(s),
      (me, now, op, token, s) => Return((s, if me == 1 then Done(n.answer) else Pending)),
      timer => "t")
  }

  function PlainCodec(n: Node): Codec {
    Codec((v: Value) => Some(("op", n.op)), (f: string, r: Response) => Nil)
  }

  /** Two nodes and one op of process 0. */
  function OneOp(n: Node, route: Option<nat>, tape: nat -> u64, horizon: nat): Config {
    Config(SecondAnswers(n), Some(PlainCodec(n)), tape, NetworkModel(0, 0, Never, Never, true), horizon, 2,
           [FrozenOp(0, route, Nil)])
  }

  const FIRST: Scheduled := Scheduled(MILLIS, 0, Issue(0, 0))

  lemma StartsIdle(n: Node, route: Option<nat>, tape: nat -> u64, horizon: nat)
    ensures var cfg := OneOp(n, route, tape, horizon);
            var w := StartAll(cfg, Boot(cfg, []), 2);
            w.core == NewCore() && |w.nodes| == 2 && w.perProcess == [[0], []] && w.scheduled == [0, 0]
  {
    var cfg := OneOp(n, route, tape, horizon);
    var w := Boot(cfg, []);
    assert Queued(cfg, 0, 1) == [0] && Queued(cfg, 1, 1) == [] by {
      assert Queued(cfg, 0, 0) == [] && Queued(cfg, 1, 0) == [];
    }
    assert w.perProcess == [[0], []] && w.scheduled == [0, 0];
    var w1 := StartAll(cfg, w, 1);
    assert StartAll(cfg, w, 0) == w;
    assert |w1.nodes| == 2 && w1.core == NewCore();
  }

  lemma FirstPump(w: World)
    requires w.core == NewCore() && w.perProcess == [[0], []] && w.scheduled == [0, 0]
    ensures var w' := Pump(w, 2);
            && w'.core == NewCore().(queue := [FIRST], seqNo := 1)
            && w'.perProcess == [[], []] && w'.nodes == w.nodes
  {
    assert Pump(w, 0) == w;
    var w1 := Pump(w, 1);
    assert w1 == PumpOne(w, 0);
    assert ClosedFor(w.core.history, 0) == 0;
    assert w.perProcess[0][1..] == [];
    assert w1.core == NewCore().(queue := [FIRST], seqNo := 1);
    assert w1.perProcess == [[], []] && w1.scheduled == [1, 0];
    assert Pump(w, 2) == PumpOne(w1, 1) == w1;
  }

  lemma TakesFirst(cfg: Config, c: Core)
    requires c == NewCore().(queue := [FIRST], seqNo := 1) && cfg.horizon > MILLIS
    ensures var (c', popped) := Pop(cfg, c);
            && popped == Some(Issue(0, 0))
            && c' == c.(queue := [], now := MILLIS, log := [LogEvent.Taken(FIRST, true)])
  {
    assert MinIndex(c.queue) == 0;
    assert Without(c.queue, 0) == [];
  }

  /** The node the op is for. */
  function Server(route: Option<nat>): nat {
    Target(FrozenOp(0, route, Nil), 0, 2)
  }

  /** What the op leaves in the history. */
  ghost predicate Served(c: Core, server: nat) {
    && c.history != [] && c.history[0].kind.Invoke? && c.history[0].process == 0 && c.history[0].value == Nil
    && c.nextToken == 1
    && if server == 1 then
         c.pending == map[] && |c.history| == 2 && c.history[1].kind.Ok?
       else
         c.pending == map[0 := PendingOp(0, "op")] && |c.history| == 1
  }

  lemma RunsOp(n: Node, route: Option<nat>, tape: nat -> u64, horizon: nat, w: World)
    requires |w.nodes| == 2 && w.core.history == [] && w.core.pending == map[] && w.core.nextToken == 0
    ensures var cfg := OneOp(n, route, tape, horizon);
            var w' := Dispatch(cfg, w, Issue(0, 0));
            w'.perProcess == w.perProcess && w'.core.queue == w.core.queue && Served(w'.core, Server(route))
  {
    var cfg := OneOp(n, route, tape, horizon);
    var target := Server(route);
    var c := OpenOp(w.core, 0, "op", Nil);
    var outcome := if target == 1 then Done(n.answer) else Pending;
    assert Exec(cfg, c, target, cfg.def.onClientOp(target, c.now, n.op, 0, w.nodes[target]))
        == (c, (w.nodes[target], outcome));
    var c2 := if target == 1 then CloseOp(c, 0, Ok, Nil) else c;
    assert Dispatch(cfg, w, Issue(0, 0)).core == c2;
  }

  lemma NothingToPump(w: World)
    requires w.perProcess == [[], []]
    ensures Pump(w, 2) == w
  {
    assert Pump(w, 0) == w;
    assert Pump(w, 1) == PumpOne(w, 0) == w;
  }

  /** The whole run: one round, after which nothing is queued. */
  lemma WholeRun(n: Node, route: Option<nat>, tape: nat -> u64, horizon: nat) returns (w: World)
    requires horizon > MILLIS
    ensures var cfg := OneOp(n, route, tape, horizon); Run(cfg, Init(cfg, []), 2) == (w, false)
    ensures w.frames != []
    ensures Served(w.core, Server(route))
  {
    var cfg := OneOp(n, route, tape, horizon);
    StartsIdle(n, route, tape, horizon);
    var w0 := Init(cfg, []);
    FirstPump(Snapshot(StartAll(cfg, Boot(cfg, []), 2)));
    TakesFirst(cfg, w0.core);
    var popped := w0.(core := Pop(cfg, w0.core).0);
    RunsOp(n, route, tape, horizon, popped);
    var ran := Dispatch(cfg, popped, Issue(0, 0));
    NothingToPump(ran);
    w := Snapshot(ran);
    assert Run(cfg, w0, 0) == (w0, true);
    assert Run(cfg, w0, 1) == (w, true);
    assert Step(cfg, w) == (w, false);
  }

  /** Force-closing answers the op the first node left pending. */
  lemma FinalHistory(c: Core, server: nat)
    requires Served(c, server)
    ensures var h := ForceClosePending(c).history;
            && |h| == 2 && h[0] == c.history[0]
            && if server == 1 then h[1].kind.Ok? else h[1].kind.Info?
  {
    var none: seq<nat> := [];
    assert PendingTokens(c.pending, 0, None) == none;
    if server == 1 {
      assert PendingTokens(c.pending, 1, None) == none;
    } else {
      assert PendingTokens(c.pending, 1, None) == [0];
      assert CloseAll(c, [0]) == CloseAll(CloseOp(c, 0, Info, Nil), none) by {
        assert [0][1..] == none;
      }
    }
  }

  lemma Collected(h: seq<OpEntry>)
    requires |h| == 2 && h[0].kind.Invoke? && h[0].process == 0 && h[0].value == Nil && !h[1].kind.Invoke?
    ensures CollectOps(h) == [FrozenOp(0, None, Nil)]
  {
    assert h[..1][..0] == [] && h[..1][0] == h[0];
    assert CollectOps(h[..1]) == [FrozenOp(0, None, Nil)];
  }

  /** Recovered without its route, the op goes to the node that never answers: a completed run, answered
      Ok, whose own replay ends indeterminate. */
  lemma RoutedOpIsMisplaced(n: Node, tape: nat -> u64, horizon: nat)
    requires horizon > MILLIS
    ensures var cfg := OneOp(n, Some(1), tape, horizon);
            var (a, more) := Run(cfg, Init(cfg, []), 2);
            var cfg' := ReplayOf(cfg, Finish(a).core.history);
            var (b, more') := Run(cfg', Init(cfg', []), 2);
            && !more && !more' && !RoutesOk(cfg)
            && |Finish(a).core.history| == |Finish(b).core.history| == 2
            && Finish(a).core.history[1].kind.Ok? && Finish(b).core.history[1].kind.Info?
  {
    var cfg := OneOp(n, Some(1), tape, horizon);
    var a := WholeRun(n, Some(1), tape, horizon);
    FinalHistory(a.core, Server(Some(1)));
    Collected(Finish(a).core.history);
    assert ReplayOf(cfg, Finish(a).core.history) == OneOp(n, None, tape, horizon);
    var b := WholeRun(n, None, tape, horizon);
    FinalHistory(b.core, Server(None));
    assert !RouteIsDefault(cfg.ops[0], 2);
  }
}
