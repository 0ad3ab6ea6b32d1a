/** Runs of one node without a codec: each op is invoked and fails at once, one after the other. */
module Serial {
  import opened Ops
  import opened Engine
  import opened Gate
  import opened Replay

  function Idle(s: NodeState): NodeDef {
    NodeDef(
      s,
      (me, now, st) => Return(st),
      (me, now, from, msg, st) => Return(st),
      (me, now, timer, st) => Return(st),
      (me, now, op, token, st) => Return((st, Pending)),
      timer => "t")
  }

  const OP: FrozenOp := FrozenOp(0, None, Nil)

  function Repeated(k: nat): (ops: seq<FrozenOp>)
    ensures |ops| == k && forall i :: 0 <= i < k ==> ops[i] == OP
  {
    if k == 0 then [] else Repeated(k - 1) + [OP]
  }

  function Setting(s: NodeState, tape: nat -> u64, horizon: nat, k: nat): Config {
    Config(Idle(s), None, tape, NetworkModel(0, 0, Never, Never, true), horizon, 1, Repeated(k))
  }

  /** The indices from `r` on. */
  function From(r: nat, k: nat): (s: seq<nat>)
    ensures |s| == (if r < k then k - r else 0) && forall i :: 0 <= i < |s| ==> s[i] == r + i
  {
    if r < k then seq(k - r, i requires 0 <= i => r + i) else []
  }

  /** When the op of round `r` has been answered. */
  function Instant(r: nat): nat {
    if r == 0 then 0 else Instant(r - 1) + MILLIS
  }

  lemma {:induction false} NotLater(r: nat, k: nat)
    requires r <= k
    ensures Instant(r) <= Instant(k)
  {
    if r == k {
    } else {
      NotLater(r, k - 1);
    }
  }

  /** The queue with the op of round `r` on it. */
  predicate Expects(q: seq<Scheduled>, r: nat, k: nat) {
    if r < k then |q| == 1 && q[0].at == Instant(r + 1) && q[0].kind == Issue(0, r) else q == []
  }

  /** After `r` of `k` ops. */
  ghost predicate After(w: World, r: nat, k: nat) {
    && r <= k
    && |w.nodes| == 1 && w.frames != []
    && w.core.crashed == [] && w.core.pending == map[] && w.core.now == Instant(r)
    && |w.core.history| == 2 * r && ClosedFor(w.core.history, 0) == r && CollectOps(w.core.history) == Repeated(r)
    && Expects(w.core.queue, r, k)
    && w.perProcess == [From(r + 1, k)] && w.scheduled == [if r < k then r + 1 else k]
  }

  lemma {:induction false} AllQueued(cfg: Config, n: nat)
    requires cfg.nodeCount == 1 && n <= |cfg.ops|
    ensures Queued(cfg, 0, n) == From(0, n)
  {
    if n == 0 {
    } else {
      AllQueued(cfg, n - 1);
      assert From(0, n) == From(0, n - 1) + [n - 1];
    }
  }

  /** The pump issues the next op if there is one. */
  lemma PumpsNext(w: World, r: nat, k: nat)
    requires r <= k && w.core.now == Instant(r) && w.core.queue == [] && ClosedFor(w.core.history, 0) == r
    requires w.perProcess == [From(r, k)] && w.scheduled == [r]
    ensures var w' := Pump(w, 1);
            && Expects(w'.core.queue, r, k)
            && w'.core == w.core.(queue := w'.core.queue, seqNo := w'.core.seqNo)
            && w'.perProcess == [From(r + 1, k)] && w'.scheduled == [if r < k then r + 1 else k]
            && w'.nodes == w.nodes && w'.frames == w.frames
  {
    assert Pump(w, 0) == w;
    assert Pump(w, 1) == PumpOne(w, 0);
    assert r < k ==> From(r, k)[1..] == From(r + 1, k) && From(r, k)[0] == r;
  }

  lemma Begins(s: NodeState, tape: nat -> u64, horizon: nat, k: nat)
    ensures var cfg := Setting(s, tape, horizon, k); After(Init(cfg, []), 0, k)
  {
    var cfg := Setting(s, tape, horizon, k);
    AllQueued(cfg, k);
    var w := Boot(cfg, []);
    assert w.perProcess == [From(0, k)] && w.scheduled == [0];
    assert StartAll(cfg, w, 0) == w;
    var w1 := StartAll(cfg, w, 1);
    assert w1.core == NewCore() && |w1.nodes| == 1 && w1.perProcess == w.perProcess && w1.scheduled == w.scheduled;
    PumpsNext(Snapshot(w1), 0, k);
  }

  lemma TakesOne(cfg: Config, c: Core, r: nat, k: nat)
    requires r < k && Expects(c.queue, r, k) && cfg.horizon > Instant(r + 1)
    ensures var (c', popped) := Pop(cfg, c);
            && popped == Some(Issue(0, r))
            && c' == c.(queue := [], now := Instant(r + 1), log := c.log + [LogEvent.Taken(c.queue[0], true)])
  {
    assert MinIndex(c.queue) == 0;
    assert Without(c.queue, 0) == [];
  }

  lemma FailsAtOnce(cfg: Config, w: World, r: nat)
    requires cfg.codec == None && r < |cfg.ops| && cfg.ops[r] == OP && |w.nodes| == 1 && w.core.pending == map[]
    ensures var w' := Dispatch(cfg, w, Issue(0, r));
            && w' == w.(core := w'.core)
            && w'.core.pending == map[] && w'.core.crashed == w.core.crashed && w'.core.now == w.core.now
            && w'.core.queue == w.core.queue
            && |w'.core.history| == |w.core.history| + 2
            && ClosedFor(w'.core.history, 0) == ClosedFor(w.core.history, 0) + 1
            && CollectOps(w'.core.history) == CollectOps(w.core.history) + [OP]
  {
    var token := w.core.nextToken;
    var c1 := OpenOp(w.core, 0, "op", Nil);
    var c2 := CloseOp(c1, token, Fail, Nil);
    assert Dispatch(cfg, w, Issue(0, r)) == w.(core := c2);
    var h := w.core.history;
    var invoke, terminal := c1.history[|h|], c2.history[|h| + 1];
    assert c1.history == h + [invoke] && c2.history == h + [invoke] + [terminal];
    CountSnoc(h, invoke, 0);
    CountSnoc(h + [invoke], terminal, 0);
    CollectSnoc(h, invoke);
    CollectSnoc(h + [invoke], terminal);
    assert c1.pending - {token} == map[];
  }

  /** The op of round `r` comes up and fails. */
  lemma TakesAndFails(cfg: Config, w: World, r: nat, k: nat) returns (c: Core, ran: World)
    requires r < k && After(w, r, k) && cfg.horizon > Instant(r + 1)
    requires cfg.codec == None && r < |cfg.ops| && cfg.ops[r] == OP
    ensures Pop(cfg, w.core) == (c, Some(Issue(0, r))) && ran == Dispatch(cfg, w.(core := c), Issue(0, r))
    ensures ran.core.queue == [] && ran.core.now == Instant(r + 1)
    ensures ran.core.pending == map[] && ran.core.crashed == []
    ensures |ran.core.history| == 2 * (r + 1) && ClosedFor(ran.core.history, 0) == r + 1
    ensures CollectOps(ran.core.history) == Repeated(r + 1)
    ensures ran == w.(core := ran.core)
  {
    TakesOne(cfg, w.core, r, k);
    c := Pop(cfg, w.core).0;
    FailsAtOnce(cfg, w.(core := c), r);
    ran := Dispatch(cfg, w.(core := c), Issue(0, r));
  }

  lemma OneMore(s: NodeState, tape: nat -> u64, horizon: nat, k: nat, w: World, r: nat, next: nat)
    returns (w': World)
    requires r < k && next == r + 1 && After(w, r, k) && horizon > Instant(k)
    ensures Step(Setting(s, tape, horizon, k), w) == (w', true) && After(w', next, k)
  {
    var cfg := Setting(s, tape, horizon, k);
    NotLater(r + 1, k);
    var c, ran := TakesAndFails(cfg, w, r, k);
    PumpsNext(ran, r + 1, k);
    w' := Snapshot(Pump(ran, 1));
  }

  lemma RunStep(cfg: Config, w0: World, r: nat, before: World, w: World)
    requires r > 0 && Run(cfg, w0, r - 1) == (before, true) && Step(cfg, before) == (w, true)
    ensures Run(cfg, w0, r) == (w, true)
  {
  }

  lemma NextRound(s: NodeState, tape: nat -> u64, horizon: nat, k: nat, w0: World, before: World, r: nat)
    returns (w: World)
    requires 0 < r <= k && horizon > Instant(k)
    requires Run(Setting(s, tape, horizon, k), w0, r - 1) == (before, true) && After(before, r - 1, k)
    ensures Run(Setting(s, tape, horizon, k), w0, r) == (w, true) && After(w, r, k)
  {
    w := OneMore(s, tape, horizon, k, before, r - 1, r);
    RunStep(Setting(s, tape, horizon, k), w0, r, before, w);
  }

  lemma {:induction false} Rounds(
    s: NodeState, tape: nat -> u64, horizon: nat, k: nat, w0: World, r: nat) returns (w: World)
    requires r <= k && horizon > Instant(k) && After(w0, 0, k)
    ensures Run(Setting(s, tape, horizon, k), w0, r) == (w, true) && After(w, r, k)
  {
    if r == 0 {
      w := w0;
    } else {
      var before := Rounds(s, tape, horizon, k, w0, r - 1);
      w := NextRound(s, tape, horizon, k, w0, before, r);
    }
  }

  lemma {:induction false} Stops(
    s: NodeState, tape: nat -> u64, horizon: nat, k: nat, w0: World, n: nat) returns (w: World)
    requires k < n && horizon > Instant(k) && After(w0, 0, k)
    ensures Run(Setting(s, tape, horizon, k), w0, n) == (w, false)
    ensures After(w, k, k)
  {
    if n == k + 1 {
      w := Rounds(s, tape, horizon, k, w0, k);
      assert Step(Setting(s, tape, horizon, k), w) == (w, false);
    } else {
      w := Stops(s, tape, horizon, k, w0, n - 1);
    }
  }

  /** The whole run. */
  lemma WholeRun(s: NodeState, tape: nat -> u64, horizon: nat, k: nat, n: nat) returns (w: World)
    requires k < n && horizon > Instant(k)
    ensures var cfg := Setting(s, tape, horizon, k); Run(cfg, Init(cfg, []), n) == (w, false)
    ensures After(w, k, k)
  {
    Begins(s, tape, horizon, k);
    w := Stops(s, tape, horizon, k, Init(Setting(s, tape, horizon, k), []), n);
  }

  lemma {:induction false} NoTokens(bound: nat)
    ensures PendingTokens(map[], bound, None) == []
  {
    if bound == 0 {
    } else {
      NoTokens(bound - 1);
    }
  }

  lemma NothingToClose(c: Core)
    requires c.pending == map[]
    ensures ForceClosePending(c) == c
  {
    NoTokens(c.nextToken);
  }
}
