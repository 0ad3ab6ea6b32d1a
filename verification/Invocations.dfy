/** Where the invokes of a history come from: there is one for each op whose turn came, with its token, process,
    payload, name and time, and one that cannot be decoded is failed at once
    (`dispatch_client_op` and `op_function`, crates/propsim-sim/src/lib.rs). */
module Invocations {
  import opened Ops
  import opened Engine
  import opened Runs
  import opened Clock
  import opened Links
  import opened Tokens
  import opened Answers

  // ----- Invokes and issues -----

  datatype Invocation = Invocation(token: nat, process: nat, op: Value, time: Time)

  function InvokesOf(h: seq<OpEntry>, tokens: seq<nat>): seq<Invocation>
    requires |tokens| == |h|
  {
    if h == [] then []
    else
      var last := |h| - 1;
      InvokesOf(h[..last], tokens[..last])
      + (if h[last].kind.Invoke? then [Invocation(tokens[last], h[last].process, h[last].value, h[last].time)] else [])
  }

  /** The ops whose turn came, numbered in that order. */
  function IssuesOf(ops: seq<FrozenOp>, log: seq<LogEvent>): seq<Invocation> {
    if log == [] then []
    else
      var last, before := log[|log| - 1], IssuesOf(ops, log[..|log| - 1]);
      if last.Taken? && last.taken.kind.Issue? && last.taken.kind.index < |ops|
      then before + [Invocation(|before|, last.taken.kind.process, ops[last.taken.kind.index].op,
                                Instant(last.taken.at))]
      else before
  }

  /** The name an op goes by: the one the codec gives, or else the keyword it is or leads with, or else "op". */
  ghost predicate GoesBy(cfg: Config, op: Value, f: string) {
    if !Undecodable(cfg, op) then f == cfg.codec.value.decode(op).value.0
    else if op.Keyword? then op == Keyword(f)
    else if op.List? && op.items != [] && op.items[0].Keyword? then op.items[0] == Keyword(f)
    else f == "op"
  }

  /** Something happened at that instant. */
  ghost predicate Timely(log: seq<LogEvent>, t: Time) {
    exists i :: 0 <= i < |log| && log[i].Taken? && t == Instant(log[i].taken.at)
  }

  ghost predicate EntryOk(cfg: Config, h: seq<OpEntry>, tokens: seq<nat>, log: seq<LogEvent>, i: nat)
    requires i < |h|
  {
    && Timely(log, h[i].time)
    && (h[i].kind.Invoke? ==>
          && GoesBy(cfg, h[i].value, h[i].f)
          && (Undecodable(cfg, h[i].value) ==> FailsMalformed(cfg, h, tokens, i + 1)))
  }

  ghost predicate EntriesOk(cfg: Config, h: seq<OpEntry>, tokens: seq<nat>, log: seq<LogEvent>) {
    forall i: nat :: i < |h| ==> EntryOk(cfg, h, tokens, log, i)
  }

  /** The invokes are the issues, but for one that is `due`. */
  ghost predicate Booked(cfg: Config, c: Core, due: seq<Invocation>) {
    && |c.tokens| == |c.history|
    && InvokesOf(c.history, c.tokens) + due == IssuesOf(cfg.ops, c.log)
    && c.nextToken == |InvokesOf(c.history, c.tokens)|
    && EntriesOk(cfg, c.history, c.tokens, c.log)
  }

  // ----- One more entry, one more log event -----

  lemma EntryStill(cfg: Config, h: seq<OpEntry>, tokens: seq<nat>, log: seq<LogEvent>, h': seq<OpEntry>,
      tokens': seq<nat>, log': seq<LogEvent>, i: nat)
    requires |tokens| == |h| && |tokens'| == |h'| && h <= h' && tokens <= tokens' && log <= log'
    requires i < |h| && EntryOk(cfg, h, tokens, log, i)
    ensures EntryOk(cfg, h', tokens', log', i)
  {
    var k :| 0 <= k < |log| && log[k].Taken? && h[i].time == Instant(log[k].taken.at);
    assert log'[k] == log[k];
  }

  lemma EntriesStill(cfg: Config, h: seq<OpEntry>, tokens: seq<nat>, log: seq<LogEvent>, log': seq<LogEvent>)
    requires |tokens| == |h| && log <= log' && EntriesOk(cfg, h, tokens, log)
    ensures EntriesOk(cfg, h, tokens, log')
  {
    forall i: nat | i < |h| ensures EntryOk(cfg, h, tokens, log', i) {
      EntryStill(cfg, h, tokens, log, h, tokens, log', i);
    }
  }

  lemma InvokesSnoc(h: seq<OpEntry>, tokens: seq<nat>, e: OpEntry, t: nat)
    requires |tokens| == |h|
    ensures InvokesOf(h + [e], tokens + [t])
         == InvokesOf(h, tokens) + (if e.kind.Invoke? then [Invocation(t, e.process, e.value, e.time)] else [])
  {
    assert (h + [e])[..|h|] == h && (tokens + [t])[..|h|] == tokens;
  }

  lemma EntriesLonger(cfg: Config, h: seq<OpEntry>, tokens: seq<nat>, log: seq<LogEvent>, e: OpEntry, t: nat)
    requires |tokens| == |h| && EntriesOk(cfg, h, tokens, log) && Timely(log, e.time)
    requires e.kind.Invoke? ==> GoesBy(cfg, e.value, e.f) && !Undecodable(cfg, e.value)
    ensures EntriesOk(cfg, h + [e], tokens + [t], log)
  {
    forall i: nat | i < |h| + 1 ensures EntryOk(cfg, h + [e], tokens + [t], log, i) {
      if i < |h| {
        EntryStill(cfg, h, tokens, log, h + [e], tokens + [t], log, i);
      }
    }
  }

  lemma CloseBooked(cfg: Config, c: Core, token: nat, kind: OpKind, value: Value, due: seq<Invocation>)
    requires Booked(cfg, c, due) && Timely(c.log, Instant(c.now)) && !kind.Invoke?
    ensures Booked(cfg, CloseOp(c, token, kind, value), due)
  {
    if token in c.pending {
      var c', e := CloseShape(c, token, kind, value);
      assert c'.nextToken == c.nextToken;
      InvokesSnoc(c.history, c.tokens, e, token);
      EntriesLonger(cfg, c.history, c.tokens, c.log, e, token);
    }
  }

  lemma OpenBooked(cfg: Config, c: Core, process: nat, f: string, op: Value)
    requires Booked(cfg, c, [Invocation(c.nextToken, process, op, Instant(c.now))])
    requires Timely(c.log, Instant(c.now)) && GoesBy(cfg, op, f) && !Undecodable(cfg, op)
    ensures Booked(cfg, OpenOp(c, process, f, op), [])
  {
    var c', e := OpenShape(c, process, f, op);
    InvokesSnoc(c.history, c.tokens, e, c.nextToken);
    EntriesLonger(cfg, c.history, c.tokens, c.log, e, c.nextToken);
  }

  lemma TwoEntries(cfg: Config, h: seq<OpEntry>, tokens: seq<nat>, log: seq<LogEvent>, e: OpEntry, e2: OpEntry, t: nat)
    requires |tokens| == |h| && EntriesOk(cfg, h, tokens, log) && Timely(log, e.time) && Timely(log, e2.time)
    requires e.kind.Invoke? && GoesBy(cfg, e.value, e.f) && Undecodable(cfg, e.value)
    requires e2.kind.Fail? && e2.value == Nil
    ensures EntriesOk(cfg, h + [e] + [e2], tokens + [t] + [t], log)
  {
    var h', tokens' := h + [e] + [e2], tokens + [t] + [t];
    forall i: nat | i < |h'| ensures EntryOk(cfg, h', tokens', log, i) {
      if i < |h| {
        EntryStill(cfg, h, tokens, log, h', tokens', log, i);
      }
    }
  }

  lemma MalformedBooked(cfg: Config, c: Core, process: nat, f: string, op: Value)
    requires Booked(cfg, c, [Invocation(c.nextToken, process, op, Instant(c.now))])
    requires Timely(c.log, Instant(c.now)) && GoesBy(cfg, op, f) && Undecodable(cfg, op)
    ensures Booked(cfg, CloseOp(OpenOp(c, process, f, op), c.nextToken, Fail, Nil), [])
  {
    var c1, e := OpenShape(c, process, f, op);
    var c', e2 := CloseShape(c1, c.nextToken, Fail, Nil);
    assert c'.nextToken == c1.nextToken;
    InvokesSnoc(c.history, c.tokens, e, c.nextToken);
    InvokesSnoc(c1.history, c1.tokens, e2, c.nextToken);
    TwoEntries(cfg, c.history, c.tokens, c.log, e, e2, c.nextToken);
  }

  lemma QuietBooked(cfg: Config, c: Core, c': Core, due: seq<Invocation>)
    requires Booked(cfg, c, due) && c'.history == c.history && c'.tokens == c.tokens && c'.nextToken == c.nextToken
    requires c'.log == c.log || (exists note :: c'.log == c.log + [note] && !(note.Taken? && note.taken.kind.Issue?))
    ensures Booked(cfg, c', due)
  {
    if c'.log != c.log {
      var note :| c'.log == c.log + [note] && !(note.Taken? && note.taken.kind.Issue?);
      assert c'.log[..|c'.log| - 1] == c.log;
    }
    EntriesStill(cfg, c.history, c.tokens, c.log, c'.log);
  }

  // ----- Effects -----

  /** While an event is handled, its time is the time. */
  ghost predicate Booking(cfg: Config, c: Core) {
    Booked(cfg, c, []) && Timely(c.log, Instant(c.now))
  }

  lemma TimelyStill(log: seq<LogEvent>, note: LogEvent, t: Time)
    requires Timely(log, t)
    ensures Timely(log + [note], t)
  {
    var i :| 0 <= i < |log| && log[i].Taken? && t == Instant(log[i].taken.at);
    assert (log + [note])[i] == log[i];
  }

  lemma NoteBooking(cfg: Config, c: Core, c': Core, note: LogEvent)
    requires Booking(cfg, c) && c'.log == c.log + [note] && !note.Taken? && c'.now == c.now
    requires c'.history == c.history && c'.tokens == c.tokens && c'.nextToken == c.nextToken
    ensures Booking(cfg, c')
  {
    QuietBooked(cfg, c, c', []);
    TimelyStill(c.log, note, Instant(c.now));
  }

  lemma EffectBooking(cfg: Config, c: Core, m: Move)
    requires Booking(cfg, c) && Enabled(cfg, c, m) && IsEffect(m)
    ensures Booking(cfg, Apply(cfg, c, m))
  {
    var c' := Apply(cfg, c, m);
    match m
    case Closing(token, kind, value) =>
      CloseBooked(cfg, c, token, kind, value, []);
      assert c'.log == c.log && c'.now == c.now;
    case Drawing =>
    case Transmitting(_, _, _, _, _) => NoteBooking(cfg, c, c', c'.log[|c.log|]);
    case Arming(_, _, _) => NoteBooking(cfg, c, c', c'.log[|c.log|]);
    case Disarming(_, _) => NoteBooking(cfg, c, c', c'.log[|c.log|]);
  }

  lemma KeepsBooking(cfg: Config)
    ensures KeptByEffects(cfg, c => Booking(cfg, c))
  {
    forall c, m {:trigger Apply(cfg, c, m)} | Booking(cfg, c) && Enabled(cfg, c, m) && IsEffect(m)
      ensures Booking(cfg, Apply(cfg, c, m))
    {
      EffectBooking(cfg, c, m);
    }
  }

  // ----- One iteration -----

  /** The op whose turn has just come. */
  function Due(cfg: Config, c: Core, kind: EventKind): seq<Invocation> {
    if kind.Issue? && kind.index < |cfg.ops|
    then [Invocation(c.nextToken, kind.process, cfg.ops[kind.index].op, Instant(c.now))]
    else []
  }

  lemma TakeBooked(cfg: Config, c: Core, head: Scheduled, c': Core)
    requires Booked(cfg, c, []) && c.queue != []
    requires head == c.queue[MinIndex(c.queue)] && c' == TakeHead(cfg, c)
    ensures head.at >= cfg.horizon ==> Booked(cfg, c', [])
    ensures head.at < cfg.horizon ==> Booked(cfg, c', Due(cfg, c', head.kind)) && Timely(c'.log, Instant(c'.now))
  {
    TakeShape(cfg, c, head, c');
    if head.at < cfg.horizon {
      var note := LogEvent.Taken(head, Fires(cfg, c, head.kind));
      assert c'.log == c.log + [note] && c'.log[|c.log|] == note;
      if head.kind.Issue? {
        assert c'.log[..|c'.log| - 1] == c.log;
        EntriesStill(cfg, c.history, c.tokens, c.log, c'.log);
        var invokes := InvokesOf(c.history, c.tokens);
        assert invokes + [] == invokes;
      } else {
        QuietBooked(cfg, c, c', []);
      }
    } else {
      QuietBooked(cfg, c, c', []);
    }
  }

  lemma ClosingBooked(cfg: Config, c: Core, tokens: seq<nat>)
    requires Booking(cfg, c)
    ensures Booking(cfg, CloseAll(c, tokens))
  {
    KeepsBooking(cfg);
    CloseAllKeeps(cfg, c, tokens, d => Booking(cfg, d));
  }

  lemma {:induction false} PopBooked(cfg: Config, c: Core)
    requires Booked(cfg, c, [])
    ensures var (c', popped) := Pop(cfg, c);
            if popped.None? then Booked(cfg, c', [])
            else Booked(cfg, c', Due(cfg, c', popped.value)) && Timely(c'.log, Instant(c'.now))
    decreases |c.queue|
  {
    if c.queue == [] {
    } else {
      var head, c1 := c.queue[MinIndex(c.queue)], TakeHead(cfg, c);
      TakeBooked(cfg, c, head, c1);
      if head.at < cfg.horizon {
        if !Fires(cfg, c, head.kind) {
          PopBooked(cfg, c1);
        } else if head.kind.Fault? {
          ClosingBooked(cfg, c1, Victims(c1, head.kind));
        }
      }
    }
  }

  lemma {:induction false} ExecBooked<A>(cfg: Config, c: Core, me: nat, cb: Callback<A>)
    requires Booking(cfg, c)
    ensures Booking(cfg, Exec(cfg, c, me, cb).0)
  {
    KeepsBooking(cfg);
    ExecKeeps(cfg, c, me, cb, d => Booking(cfg, d));
  }

  lemma ClientOpBooked(cfg: Config, w: World, process: nat, op: FrozenOp)
    requires |w.nodes| > 0 && Timely(w.core.log, Instant(w.core.now))
    requires Booked(cfg, w.core, [Invocation(w.core.nextToken, process, op.op, Instant(w.core.now))])
    ensures Booked(cfg, DispatchClientOp(cfg, w, process, op).core, [])
  {
    var target := Target(op, process, |w.nodes|);
    var token := w.core.nextToken;
    var decoded := if cfg.codec.Some? then cfg.codec.value.decode(op.op) else None;
    match decoded
    case None => MalformedBooked(cfg, w.core, process, OpFunction(op.op), op.op);
    case Some((f, clientOp)) =>
      var c := OpenOp(w.core, process, f, op.op);
      OpenBooked(cfg, w.core, process, f, op.op);
      var cb := cfg.def.onClientOp(target, c.now, clientOp, token, w.nodes[target]);
      ExecBooked(cfg, c, target, cb);
      var (c1, result) := Exec(cfg, c, target, cb);
      if result.1.Done? {
        CloseBooked(cfg, c1, token, Ok, cfg.codec.value.encode(f, result.1.response), []);
      }
  }

  lemma EventBooked(cfg: Config, w: World, kind: EventKind)
    requires Booked(cfg, w.core, Due(cfg, w.core, kind)) && Timely(w.core.log, Instant(w.core.now))
    requires |w.nodes| > 0
    ensures Booked(cfg, Dispatch(cfg, w, kind).core, [])
  {
    match kind
    case Deliver(from, to, msg) =>
      if to < |w.nodes| {
        ExecBooked(cfg, w.core, to, cfg.def.onMsg(to, w.core.now, from, msg, w.nodes[to]));
      }
    case Fire(node, timer, _) =>
      if node < |w.nodes| {
        ExecBooked(cfg, w.core, node, cfg.def.onTimer(node, w.core.now, timer, w.nodes[node]));
      }
    case Issue(process, index) =>
      if index < |cfg.ops| {
        ClientOpBooked(cfg, w, process, cfg.ops[index]);
      }
    case Fault(action) =>
      if action.Restart? && action.node < |w.nodes| {
        ExecBooked(cfg, w.core, action.node, cfg.def.onStart(action.node, w.core.now, w.nodes[action.node]));
      }
  }

  // ----- Whole runs -----

  lemma {:induction false} PumpBooked(cfg: Config, w: World, upTo: nat)
    requires Booked(cfg, w.core, [])
    ensures Booked(cfg, Pump(w, upTo).core, [])
  {
    if upTo == 0 {
    } else {
      PumpBooked(cfg, w, upTo - 1);
      var w1 := Pump(w, upTo - 1);
      QuietBooked(cfg, w1.core, PumpOne(w1, upTo - 1).core, []);
    }
  }

  lemma {:induction false} PumpNodes(w: World, upTo: nat)
    ensures Pump(w, upTo).nodes == w.nodes
  {
    if upTo == 0 {
    } else {
      PumpNodes(w, upTo - 1);
    }
  }

  lemma StepNodes(cfg: Config, w: World)
    ensures |Step(cfg, w).0.nodes| == |w.nodes|
  {
    var (c, popped) := Pop(cfg, w.core);
    if popped.Some? {
      var w2 := Dispatch(cfg, w.(core := c), popped.value);
      assert |w2.nodes| == |w.nodes|;
      PumpNodes(w2, cfg.nodeCount);
    }
  }

  lemma StepBooked(cfg: Config, w: World)
    requires Booked(cfg, w.core, []) && |w.nodes| > 0
    ensures Booked(cfg, Step(cfg, w).0.core, [])
  {
    PopBooked(cfg, w.core);
    var (c, popped) := Pop(cfg, w.core);
    if popped.Some? {
      var w1 := w.(core := c);
      var w2 := Dispatch(cfg, w1, popped.value);
      assert Booked(cfg, w2.core, []) by {
        EventBooked(cfg, w1, popped.value);
      }
      PumpBooked(cfg, w2, cfg.nodeCount);
    }
  }

  /** No client has asked for anything yet. */
  ghost predicate Unasked(c: Core) {
    && c.history == [] && c.tokens == [] && c.nextToken == 0 && c.pending == map[]
    && forall i :: 0 <= i < |c.log| ==> !c.log[i].Taken?
  }

  lemma KeepsUnasked(cfg: Config)
    ensures KeptByEffects(cfg, c => Unasked(c))
  {
    forall c, m {:trigger Apply(cfg, c, m)} | Unasked(c) && Enabled(cfg, c, m) && IsEffect(m)
      ensures Unasked(Apply(cfg, c, m))
    {
    }
  }

  lemma {:induction false} NothingIssued(ops: seq<FrozenOp>, log: seq<LogEvent>)
    requires forall i :: 0 <= i < |log| ==> !log[i].Taken?
    ensures IssuesOf(ops, log) == []
    decreases |log|
  {
    if log == [] {
    } else {
      NothingIssued(ops, log[..|log| - 1]);
    }
  }

  lemma {:induction false} StartNodes(cfg: Config, w: World, upTo: nat)
    ensures |StartAll(cfg, w, upTo).nodes| == |w.nodes|
  {
    if upTo == 0 {
    } else {
      StartNodes(cfg, w, upTo - 1);
    }
  }

  lemma StartBooked(cfg: Config, faults: seq<(nat, FaultAction)>)
    requires cfg.nodeCount > 0
    ensures Booked(cfg, Init(cfg, faults).core, []) && |Init(cfg, faults).nodes| == cfg.nodeCount
  {
    var w := Boot(cfg, faults);
    FaultsOnlyQueue(NewCore(), faults);
    KeepsUnasked(cfg);
    StartAllKeeps(cfg, w, cfg.nodeCount, c => Unasked(c));
    var w1 := StartAll(cfg, w, cfg.nodeCount);
    StartNodes(cfg, w, cfg.nodeCount);
    NothingIssued(cfg.ops, w1.core.log);
    PumpBooked(cfg, Snapshot(w1), cfg.nodeCount);
    PumpNodes(Snapshot(w1), cfg.nodeCount);
  }

  lemma {:induction false} RunBooked(cfg: Config, faults: seq<(nat, FaultAction)>, n: nat)
    requires cfg.nodeCount > 0
    ensures Booked(cfg, Run(cfg, Init(cfg, faults), n).0.core, [])
    ensures |Run(cfg, Init(cfg, faults), n).0.nodes| == cfg.nodeCount
  {
    if n == 0 {
      StartBooked(cfg, faults);
    } else {
      RunBooked(cfg, faults, n - 1);
      var w := Run(cfg, Init(cfg, faults), n - 1).0;
      StepBooked(cfg, w);
      StepNodes(cfg, w);
    }
  }

  /** At any moment of a run, and whatever is closed at its end: the invokes are the ops whose turn came, in that
      order, numbered from zero, each under its process with its payload and its time; every entry has the time of
      an event; an invoke goes by the name its codec gives it; and one that cannot be decoded fails at once. */
  lemma InvokesAreIssues(cfg: Config, faults: seq<(nat, FaultAction)>, n: nat)
    requires cfg.nodeCount > 0
    ensures var c := Run(cfg, Init(cfg, faults), n).0.core;
            && |c.tokens| == |c.history|
            && InvokesOf(c.history, c.tokens) == IssuesOf(cfg.ops, c.log)
            && EntriesOk(cfg, c.history, c.tokens, c.log)
  {
    RunBooked(cfg, faults, n);
    var c := Run(cfg, Init(cfg, faults), n).0.core;
    assert InvokesOf(c.history, c.tokens) + [] == InvokesOf(c.history, c.tokens);
  }

  // ----- When ops are issued -----

  /** One millisecond after the start, or after something that happened. */
  ghost predicate FollowsOn(cfg: Config, log: seq<LogEvent>, at: nat) {
    || at == 1_000_000
    || (exists i :: 0 <= i < |log| && log[i].Taken? && at == log[i].taken.at + 1_000_000)
    || at >= cfg.horizon + 1_000_000
  }

  ghost predicate IssuesFollow(cfg: Config, c: Core) {
    && FollowsOn(cfg, c.log, c.now + 1_000_000)
    && (forall e :: e in c.queue && e.kind.Issue? ==> FollowsOn(cfg, c.log, e.at))
    && (forall j :: 0 <= j < |c.log| && c.log[j].Taken? && c.log[j].taken.kind.Issue? ==>
          FollowsOn(cfg, c.log, c.log[j].taken.at))
  }

  lemma FollowsStill(cfg: Config, log: seq<LogEvent>, note: LogEvent, at: nat)
    requires FollowsOn(cfg, log, at)
    ensures FollowsOn(cfg, log + [note], at)
  {
    if i :| 0 <= i < |log| && log[i].Taken? && at == log[i].taken.at + 1_000_000 {
      assert (log + [note])[i] == log[i];
    }
  }

  lemma NoteFollows(cfg: Config, c: Core, c': Core, note: LogEvent)
    requires IssuesFollow(cfg, c) && c'.log == c.log + [note]
    requires c'.now == c.now || (note.Taken? && note.taken.at == c'.now)
    requires note.Taken? ==> note.taken in c.queue
    requires forall e :: e in c'.queue && e.kind.Issue? ==> e in c.queue
    ensures IssuesFollow(cfg, c')
  {
    forall at | FollowsOn(cfg, c.log, at) ensures FollowsOn(cfg, c'.log, at) {
      FollowsStill(cfg, c.log, note, at);
    }
    if c'.now != c.now {
      assert c'.log[|c.log|] == note;
    }
  }

  lemma TakeFollows(cfg: Config, c: Core)
    requires IssuesFollow(cfg, c) && c.queue != [] && Ordered(c.queue)
    ensures IssuesFollow(cfg, TakeHead(cfg, c)) && Ordered(TakeHead(cfg, c).queue)
  {
    var head, c' := TakeRest(cfg, c);
    TakeShape(cfg, c, head, c');
    if head.at < cfg.horizon {
      NoteFollows(cfg, c, c', LogEvent.Taken(head, Fires(cfg, c, head.kind)));
    }
  }

  lemma MoveFollows(cfg: Config, c: Core, m: Move)
    requires IssuesFollow(cfg, c) && Ordered(c.queue) && Enabled(cfg, c, m)
    ensures IssuesFollow(cfg, Apply(cfg, c, m))
  {
    var c' := Apply(cfg, c, m);
    match m
    case Transmitting(_, _, _, _, _) => NoteFollows(cfg, c, c', c'.log[|c.log|]);
    case Arming(_, _, _) => NoteFollows(cfg, c, c', c'.log[|c.log|]);
    case Disarming(_, _) => NoteFollows(cfg, c, c', c'.log[|c.log|]);
    case Taking => TakeFollows(cfg, c);
    case Issuing(process, index) =>
      assert forall e :: e in c'.queue && e !in c.queue ==> e.at == c.now + 1_000_000;
    case _ => assert c'.log == c.log && c'.queue == c.queue && c'.now == c.now;
  }

  lemma KeepsFollowing(cfg: Config)
    ensures KeptByMoves(cfg, c => IssuesFollow(cfg, c) && ClockOk(cfg, c))
  {
    forall c, m {:trigger Apply(cfg, c, m)} | IssuesFollow(cfg, c) && ClockOk(cfg, c) && Enabled(cfg, c, m)
      ensures IssuesFollow(cfg, Apply(cfg, c, m)) && ClockOk(cfg, Apply(cfg, c, m))
    {
      MoveFollows(cfg, c, m);
      MoveOk(cfg, c, m);
    }
  }

  lemma BootFollows(cfg: Config, faults: seq<(nat, FaultAction)>) returns (c: Core)
    ensures c == ScheduleFaults(NewCore(), faults) && IssuesFollow(cfg, c) && ClockOk(cfg, c)
  {
    c := ScheduleFaults(NewCore(), faults);
    FaultsOnlyQueue(NewCore(), faults);
    FaultsAreNoMessages(NewCore(), faults);
    ScheduledFaultsOk(cfg, NewCore(), faults);
  }

  lemma NextInOrder(cfg: Config, c: Core, j: nat)
    requires IssuesFollow(cfg, c) && ClockOk(cfg, c)
    requires j < |c.log| && c.log[j].Taken? && c.log[j].taken.kind.Issue?
    ensures || c.log[j].taken.at == 1_000_000
            || exists i :: 0 <= i < j && c.log[i].Taken? && c.log[j].taken.at == c.log[i].taken.at + 1_000_000
  {
    if c.log[j].taken.at != 1_000_000 {
      var i :| 0 <= i < |c.log| && c.log[i].Taken? && c.log[j].taken.at == c.log[i].taken.at + 1_000_000;
      assert i >= j ==> i == j || Before(c.log[j].taken, c.log[i].taken);
    }
  }

  /** In every run an op is issued one millisecond after the start or after an earlier event. */
  lemma IssuesAreNext(cfg: Config, faults: seq<(nat, FaultAction)>, n: nat, j: nat)
    requires cfg.nodeCount > 0
    requires var log := Run(cfg, Init(cfg, faults), n).0.core.log;
             j < |log| && log[j].Taken? && log[j].taken.kind.Issue?
    ensures var log := Run(cfg, Init(cfg, faults), n).0.core.log;
            || log[j].taken.at == 1_000_000
            || exists i :: 0 <= i < j && log[i].Taken? && log[j].taken.at == log[i].taken.at + 1_000_000
  {
    var c := BootFollows(cfg, faults);
    KeepsFollowing(cfg);
    RunKeeps(cfg, faults, n, c => IssuesFollow(cfg, c) && ClockOk(cfg, c));
    NextInOrder(cfg, Run(cfg, Init(cfg, faults), n).0.core, j);
  }
}
