/** Nodes do what their code says: every state a node is ever in is what one of its own callbacks came to, called
    for the event that was due, with the state the node was in, and with draws taken in order from the tape; and
    whatever is sent, armed or cancelled meanwhile is that node's doing (the dispatch helpers and the main loop,
    crates/propsim-sim/src/lib.rs). */
module Behaviour {
  import opened Ops
  import opened Engine
  import opened Runs
  import opened Sending

  // ----- One callback -----

  /** Where a callback gets with these draws: what it does on the way, and its result. */
  ghost predicate Follows<A(!new)>(cb: Callback<A>, draws: seq<u64>, effects: seq<Effect>, a: A)
    decreases cb
  {
    match cb
    case Return(result) => draws == [] && effects == [] && a == result
    case Do(effect, next) => effects != [] && effects[0] == effect && Follows(next, draws, effects[1..], a)
    case Draw(otherwise, cases) =>
      && draws != []
      && if draws[0] < |cases| then Follows(cases[draws[0]], draws[1..], effects, a)
         else Follows(otherwise, draws[1..], effects, a)
  }

  /** These are outputs of the tape, in order, at positions from `lo` to `hi`. */
  ghost predicate OnTape(tape: nat -> u64, draws: seq<u64>, lo: nat, hi: nat)
    decreases |draws|
  {
    if draws == [] then lo <= hi
    else exists p: nat :: lo <= p < hi && tape(p) == draws[0] && OnTape(tape, draws[1..], p + 1, hi)
  }

  lemma {:induction false} OnTapeFrom(tape: nat -> u64, draws: seq<u64>, lo: nat, lo': nat, hi: nat)
    requires OnTape(tape, draws, lo', hi) && lo <= lo'
    ensures OnTape(tape, draws, lo, hi)
  {
  }

  /** A log event is the doing of node `n`. */
  predicate IsBy(e: LogEvent, n: nat) {
    match e
    case Sent(s, _) => s.kind.Deliver? && s.kind.from == n
    case Armed(s, _, _) => s.kind.Fire? && s.kind.node == n
    case Cancelled(node, _) => node == n
    case Taken(_, _) => false
  }

  ghost predicate OnlyBy(c: Core, c': Core, n: nat) {
    && c.log <= c'.log && forall i :: |c.log| <= i < |c'.log| ==> IsBy(c'.log[i], n)
  }

  lemma OnlyByJoin(c: Core, c1: Core, c2: Core, n: nat)
    requires OnlyBy(c, c1, n) && OnlyBy(c1, c2, n)
    ensures OnlyBy(c, c2, n)
  {
  }

  lemma SendIsBy(cfg: Config, c: Core, from: nat, to: nat, msg: Msg) returns (c': Core)
    ensures c' == ScheduleDelivery(cfg, c, from, to, msg) && OnlyBy(c, c', from)
    ensures c.rng <= c'.rng && c'.nextToken == c.nextToken && c'.now == c.now
  {
    RollHits(cfg, c, c.rng, cfg.model.loss);
    c' := ScheduleDelivery(cfg, c, from, to, msg);
    if Connected(c, from, to) && !Hits(cfg, cfg.model.loss, c.rng) {
      var c3, wait, dup := DrawnFor(cfg, c, from, to, msg);
      var d, at, copies := TransmitShape(cfg, c3, from, to, msg, wait * 1_000_000, dup);
    }
  }

  lemma {:induction false} SendAllIsBy(cfg: Config, c: Core, from: nat, to: seq<nat>, msg: Msg) returns (c': Core)
    ensures c' == SendAll(cfg, c, from, to, msg) && OnlyBy(c, c', from)
    ensures c.rng <= c'.rng && c'.nextToken == c.nextToken && c'.now == c.now
    decreases |to|
  {
    if to == [] {
      c' := c;
    } else {
      var c1 := SendIsBy(cfg, c, from, to[0], msg);
      c' := SendAllIsBy(cfg, c1, from, to[1..], msg);
      OnlyByJoin(c, c1, c', from);
    }
  }

  lemma ArmIsBy(cfg: Config, c: Core, me: nat, timer: Timer, after: nat) returns (c': Core)
    ensures c' == ArmTimer(cfg, c, me, timer, after) && OnlyBy(c, c', me)
    ensures c.rng <= c'.rng && c'.nextToken == c.nextToken && c'.now == c.now
  {
    c' := ArmTimer(cfg, c, me, timer, after);
  }

  lemma DisarmIsBy(cfg: Config, c: Core, me: nat, timer: Timer) returns (c': Core)
    ensures c' == DisarmTimer(cfg, c, me, timer) && OnlyBy(c, c', me)
    ensures c.rng <= c'.rng && c'.nextToken == c.nextToken && c'.now == c.now
  {
    c' := DisarmTimer(cfg, c, me, timer);
  }

  lemma CompleteIsBy(cfg: Config, c: Core, me: nat, token: nat, completion: Completion) returns (c': Core)
    ensures c' == Complete(cfg, c, token, completion) && OnlyBy(c, c', me)
    ensures c.rng <= c'.rng && c'.nextToken == c.nextToken && c'.now == c.now
  {
    c' := Complete(cfg, c, token, completion);
  }

  lemma EffectIsBy(cfg: Config, c: Core, me: nat, effect: Effect) returns (c': Core)
    ensures c' == Perform(cfg, c, me, effect) && OnlyBy(c, c', me)
    ensures c.rng <= c'.rng && c'.nextToken == c.nextToken && c'.now == c.now
  {
    match effect
    case Send(to, msg) => c' := SendIsBy(cfg, c, me, to, msg);
    case Broadcast(msg) => c' := SendAllIsBy(cfg, c, me, Peers(cfg.nodeCount, me), msg);
    case SetTimer(timer, after) => c' := ArmIsBy(cfg, c, me, timer, after);
    case CancelTimer(timer) => c' := DisarmIsBy(cfg, c, me, timer);
    case CompleteOp(token, completion) => c' := CompleteIsBy(cfg, c, me, token, completion);
  }

  lemma {:induction false} TapeGoesOn(tape: nat -> u64, draws: seq<u64>, lo: nat, hi: nat)
    requires OnTape(tape, draws, lo, hi)
    ensures lo <= hi
    decreases |draws|
  {
    if draws == [] {
    } else {
      var p: nat :| lo <= p < hi && tape(p) == draws[0] && OnTape(tape, draws[1..], p + 1, hi);
    }
  }

  /** A callback runs along one of its paths, and only its node does anything meanwhile. */
  lemma {:induction false} ExecFollows<A(!new)>(cfg: Config, c: Core, me: nat, cb: Callback<A>)
    returns (c': Core, a: A, draws: seq<u64>, effects: seq<Effect>)
    ensures (c', a) == Exec(cfg, c, me, cb)
    ensures Follows(cb, draws, effects, a) && OnTape(cfg.tape, draws, c.rng, c'.rng) && OnlyBy(c, c', me)
    ensures c'.nextToken == c.nextToken && c'.now == c.now
    decreases cb
  {
    match cb
    case Return(result) => c', a, draws, effects := c, result, [], [];
    case Do(effect, next) =>
      var c1 := EffectIsBy(cfg, c, me, effect);
      var more;
      c', a, draws, more := ExecFollows(cfg, c1, me, next);
      effects := [effect] + more;
      assert effects[1..] == more;
      OnTapeFrom(cfg.tape, draws, c.rng, c1.rng, c'.rng);
      OnlyByJoin(c, c1, c', me);
    case Draw(otherwise, cases) =>
      var more;
      c', a, more, effects := ExecFollows(cfg, Drawn(c), me, Chosen(cb, cfg.tape(c.rng)));
      draws := [cfg.tape(c.rng)] + more;
      assert draws[1..] == more;
      assert OnTape(cfg.tape, draws, c.rng, c'.rng) by {
        assert OnTape(cfg.tape, draws[1..], c.rng + 1, c'.rng);
        TapeGoesOn(cfg.tape, more, c.rng + 1, c'.rng);
      }
  }

  // ----- One event -----

  /** `s` is what a callback can come to. */
  ghost predicate CanEnd<A(!new)>(cfg: Config, cb: Callback<A>, a: A) {
    exists draws, effects, lo, hi :: Follows(cb, draws, effects, a) && OnTape(cfg.tape, draws, lo, hi)
  }

  /** The node an op is for: the one it is routed to, or the one its process is at. */
  function Server(op: FrozenOp, process: nat, nodeCount: nat): nat
    requires nodeCount > 0
  {
    (match op.route case Some(n) => n case None => process) % nodeCount
  }

  /** The node that handles an event; if none does, any will do. */
  function Handler(cfg: Config, kind: EventKind): nat
    requires cfg.nodeCount > 0
  {
    match kind
    case Deliver(_, to, _) => to
    case Fire(node, _, _) => node
    case Issue(process, index) => if index < |cfg.ops| then Server(cfg.ops[index], process, cfg.nodeCount) else 0
    case Fault(action) => if action.Restart? then action.node else 0
  }

  /** What the handler becomes: the message, the timer or the op is handed to it, or it is started; an op comes with
      its token, that is the number of ops issued before. Nothing else makes a node change. */
  ghost predicate Becomes(cfg: Config, kind: EventKind, now: nat, token: nat, me: nat, s: NodeState, s': NodeState) {
    match kind
    case Deliver(from, _, msg) => CanEnd(cfg, cfg.def.onMsg(me, now, from, msg, s), s')
    case Fire(_, timer, _) => CanEnd(cfg, cfg.def.onTimer(me, now, timer, s), s')
    case Issue(_, index) =>
      if index < |cfg.ops| && cfg.codec.Some? && cfg.codec.value.decode(cfg.ops[index].op).Some?
      then
        var op := cfg.codec.value.decode(cfg.ops[index].op).value.1;
        exists outcome :: CanEnd(cfg, cfg.def.onClientOp(me, now, op, token, s), (s', outcome))
      else s' == s
    case Fault(action) => if action.Restart? then CanEnd(cfg, cfg.def.onStart(me, now, s), s') else s' == s
  }

  /** One event takes the nodes from `nodes` to `nodes'`. */
  ghost predicate Handles(cfg: Config, e: Scheduled, token: nat, nodes: seq<NodeState>, nodes': seq<NodeState>) {
    && cfg.nodeCount == |nodes| == |nodes'| > 0
    && (forall n :: 0 <= n < |nodes| && n != Handler(cfg, e.kind) ==> nodes'[n] == nodes[n])
    && (Handler(cfg, e.kind) < |nodes| ==>
          var me := Handler(cfg, e.kind);
          Becomes(cfg, e.kind, e.at, token, me, nodes[me], nodes'[me]))
  }

  lemma RunNodeIs(cfg: Config, w: World, id: nat, cb: Callback<NodeState>) returns (w': World, s: NodeState)
    requires id < |w.nodes|
    ensures w' == RunNode(cfg, w, id, cb) && w'.nodes == w.nodes[id := s] && CanEnd(cfg, cb, s)
    ensures OnlyBy(w.core, w'.core, id) && w'.core.nextToken == w.core.nextToken && w'.core.now == w.core.now
    ensures w'.frames == w.frames
  {
    var c, draws, effects;
    c, s, draws, effects := ExecFollows(cfg, w.core, id, cb);
    w' := RunNode(cfg, w, id, cb);
  }

  lemma OpIs(cfg: Config, w: World, process: nat, index: nat, e: Scheduled) returns (w': World)
    requires |w.nodes| == cfg.nodeCount > 0 && index < |cfg.ops|
    requires e.kind == Issue(process, index) && e.at == w.core.now
    ensures w' == DispatchClientOp(cfg, w, process, cfg.ops[index])
    ensures Handles(cfg, e, w.core.nextToken, w.nodes, w'.nodes)
    ensures OnlyBy(w.core, w'.core, Handler(cfg, e.kind)) && w'.core.nextToken == w.core.nextToken + 1
    ensures w'.core.now == w.core.now && w'.frames == w.frames
  {
    var op := cfg.ops[index];
    var target := Handler(cfg, e.kind);
    assert target == Target(op, process, |w.nodes|);
    w' := DispatchClientOp(cfg, w, process, op);
    if cfg.codec.Some? && cfg.codec.value.decode(op.op).Some? {
      var (f, clientOp) := cfg.codec.value.decode(op.op).value;
      var c := OpenOp(w.core, process, f, op.op);
      var c1, result, draws, effects :=
        ExecFollows(cfg, c, target, cfg.def.onClientOp(target, c.now, clientOp, w.core.nextToken, w.nodes[target]));
      assert result == (result.0, result.1);
    }
  }

  /** Handling one event. */
  lemma EventIs(cfg: Config, w: World, e: Scheduled) returns (w': World)
    requires |w.nodes| == cfg.nodeCount > 0 && e.at == w.core.now
    ensures w' == Dispatch(cfg, w, e.kind)
    ensures Handles(cfg, e, w.core.nextToken, w.nodes, w'.nodes)
    ensures OnlyBy(w.core, w'.core, Handler(cfg, e.kind)) && w'.core.now == w.core.now && w'.frames == w.frames
    ensures w'.core.nextToken
         == w.core.nextToken + if e.kind.Issue? && e.kind.index < |cfg.ops| then 1 else 0
  {
    w' := w;
    match e.kind
    case Deliver(from, to, msg) =>
      if to < |w.nodes| {
        var s;
        w', s := RunNodeIs(cfg, w, to, cfg.def.onMsg(to, w.core.now, from, msg, w.nodes[to]));
      }
    case Fire(node, timer, _) =>
      if node < |w.nodes| {
        var s;
        w', s := RunNodeIs(cfg, w, node, cfg.def.onTimer(node, w.core.now, timer, w.nodes[node]));
      }
    case Issue(process, index) =>
      if index < |cfg.ops| {
        w' := OpIs(cfg, w, process, index, e);
      }
    case Fault(action) =>
      if action.Restart? && action.node < |w.nodes| {
        var s;
        w', s := RunNodeIs(cfg, w, action.node, cfg.def.onStart(action.node, w.core.now, w.nodes[action.node]));
      }
  }

  // ----- The course of a run -----

  /** The events that reached the driver, in order. */
  function FiredOf(log: seq<LogEvent>): seq<Scheduled> {
    if log == [] then []
    else
      var last := log[|log| - 1];
      FiredOf(log[..|log| - 1]) + (if last.Taken? && last.fired then [last.taken] else [])
  }

  function OpCount(cfg: Config, fired: seq<Scheduled>): nat {
    if fired == [] then 0
    else
      var last := fired[|fired| - 1].kind;
      OpCount(cfg, fired[..|fired| - 1]) + (if last.Issue? && last.index < |cfg.ops| then 1 else 0)
  }

  lemma OpCountSnoc(cfg: Config, fired: seq<Scheduled>, e: Scheduled)
    ensures OpCount(cfg, fired + [e])
         == OpCount(cfg, fired) + (if e.kind.Issue? && e.kind.index < |cfg.ops| then 1 else 0)
  {
    assert (fired + [e])[..|fired|] == fired;
  }

  lemma FiredSnoc(log: seq<LogEvent>, note: LogEvent)
    ensures FiredOf(log + [note]) == FiredOf(log) + (if note.Taken? && note.fired then [note.taken] else [])
  {
    assert (log + [note])[..|log|] == log;
  }

  /** Everything that is put on the log besides taking events is the doing of the node that handles the last event
      before it. */
  ghost predicate Attributed(cfg: Config, log: seq<LogEvent>, i: nat)
    requires i < |log| && cfg.nodeCount > 0
  {
    var fired := FiredOf(log[..i]);
    !log[i].Taken? && fired != [] ==> IsBy(log[i], Handler(cfg, fired[|fired| - 1].kind))
  }

  ghost predicate AllAttributed(cfg: Config, log: seq<LogEvent>)
    requires cfg.nodeCount > 0
  {
    forall i: nat :: i < |log| ==> Attributed(cfg, log, i)
  }

  ghost predicate FrameFollows(cfg: Config, frames: seq<(nat, seq<NodeState>)>, fired: seq<Scheduled>, k: nat)
    requires k + 1 < |frames| && k < |fired|
  {
    && frames[k + 1].0 == fired[k].at
    && Handles(cfg, fired[k], OpCount(cfg, fired[..k]), frames[k].1, frames[k + 1].1)
  }

  /** The frames are the nodes after the start and after each event, at its time. */
  ghost predicate InCourse(cfg: Config, frames: seq<(nat, seq<NodeState>)>, fired: seq<Scheduled>) {
    && |frames| == |fired| + 1
    && forall k: nat :: k < |fired| ==> FrameFollows(cfg, frames, fired, k)
  }

  /** At first every node is what starting it from the default state came to. */
  ghost predicate AllStarted(cfg: Config, nodes: seq<NodeState>) {
    && |nodes| == cfg.nodeCount
    && forall n: nat :: n < |nodes| ==> CanEnd(cfg, cfg.def.onStart(n, 0, cfg.def.default), nodes[n])
  }

  ghost predicate OnCourse(cfg: Config, w: World) {
    && cfg.nodeCount == |w.nodes| > 0
    && InCourse(cfg, w.frames, FiredOf(w.core.log))
    && w.frames[0].0 == 0 && AllStarted(cfg, w.frames[0].1)
    && w.nodes == w.frames[|w.frames| - 1].1
    && w.core.nextToken == OpCount(cfg, FiredOf(w.core.log))
    && AllAttributed(cfg, w.core.log)
  }

  lemma AttributedNote(cfg: Config, log: seq<LogEvent>, note: LogEvent)
    requires cfg.nodeCount > 0 && AllAttributed(cfg, log)
    requires !note.Taken? && FiredOf(log) != [] ==>
               IsBy(note, Handler(cfg, FiredOf(log)[|FiredOf(log)| - 1].kind))
    ensures AllAttributed(cfg, log + [note])
  {
    var log' := log + [note];
    forall i: nat | i < |log'| ensures Attributed(cfg, log', i) {
      if i < |log| {
        assert Attributed(cfg, log, i);
        assert log'[..i] == log[..i];
      } else {
        assert log'[..i] == log;
      }
    }
  }

  /** What one node adds to the log changes nothing about the events, and is attributed to it. */
  lemma {:induction false} SegmentAttributed(cfg: Config, log: seq<LogEvent>, more: seq<LogEvent>, n: nat)
    requires cfg.nodeCount > 0 && AllAttributed(cfg, log) && FiredOf(log) != []
    requires n == Handler(cfg, FiredOf(log)[|FiredOf(log)| - 1].kind)
    requires forall i :: 0 <= i < |more| ==> IsBy(more[i], n)
    ensures AllAttributed(cfg, log + more) && FiredOf(log + more) == FiredOf(log)
    decreases |more|
  {
    if more == [] {
      assert log + more == log;
    } else {
      var last := |more| - 1;
      SegmentAttributed(cfg, log, more[..last], n);
      AttributedNote(cfg, log + more[..last], more[last]);
      FiredSnoc(log + more[..last], more[last]);
      assert log + more == (log + more[..last]) + [more[last]];
    }
  }

  lemma {:induction false} SegmentQuiet(log: seq<LogEvent>, more: seq<LogEvent>, n: nat)
    requires forall i :: 0 <= i < |more| ==> IsBy(more[i], n)
    ensures FiredOf(log + more) == FiredOf(log)
    decreases |more|
  {
    if more == [] {
      assert log + more == log;
    } else {
      var last := |more| - 1;
      SegmentQuiet(log, more[..last], n);
      FiredSnoc(log + more[..last], more[last]);
      assert log + more == (log + more[..last]) + [more[last]];
    }
  }

  // ----- Taking the next event -----

  lemma {:induction false} ClosingQuiet(c: Core, tokens: seq<nat>)
    ensures CloseAll(c, tokens).log == c.log && CloseAll(c, tokens).nextToken == c.nextToken
    ensures CloseAll(c, tokens).now == c.now
    decreases |tokens|
  {
    if tokens == [] {
    } else {
      ClosingQuiet(CloseOp(c, tokens[0], Info, Nil), tokens[1..]);
    }
  }

  /** What popping leaves on the log: the event popped, after some that were dropped. */
  lemma {:induction false} PopFires(cfg: Config, c: Core) returns (c': Core, popped: Option<EventKind>)
    requires cfg.nodeCount > 0 && AllAttributed(cfg, c.log)
    ensures (c', popped) == Pop(cfg, c)
    ensures c'.nextToken == c.nextToken && AllAttributed(cfg, c'.log)
    ensures match popped
            case None => FiredOf(c'.log) == FiredOf(c.log)
            case Some(kind) =>
              exists seqNo :: FiredOf(c'.log) == FiredOf(c.log) + [Scheduled(c'.now, seqNo, kind)]
    decreases |c.queue|
  {
    c', popped := Pop(cfg, c).0, Pop(cfg, c).1;
    if c.queue == [] {
    } else {
      var head, c1 := c.queue[MinIndex(c.queue)], TakeHead(cfg, c);
      TakeShape(cfg, c, head, c1);
      if head.at < cfg.horizon {
        var note := LogEvent.Taken(head, Fires(cfg, c, head.kind));
        FiredSnoc(c.log, note);
        AttributedNote(cfg, c.log, note);
        if Fires(cfg, c, head.kind) {
          ClosingQuiet(c1, Victims(c1, head.kind));
          assert head == Scheduled(c'.now, head.seqNo, head.kind);
        } else {
          c', popped := PopFires(cfg, c1);
        }
      }
    }
  }

  // ----- One iteration -----

  lemma {:induction false} PumpIs(w: World, upTo: nat) returns (w': World)
    ensures w' == Pump(w, upTo) && w'.nodes == w.nodes && w'.frames == w.frames
    ensures w'.core.log == w.core.log && w'.core.now == w.core.now && w'.core.nextToken == w.core.nextToken
  {
    w' := Pump(w, upTo);
    if upTo == 0 {
    } else {
      var w1 := PumpIs(w, upTo - 1);
      assert w' == PumpOne(w1, upTo - 1);
    }
  }

  lemma CourseGoesOn(cfg: Config, frames: seq<(nat, seq<NodeState>)>, fired: seq<Scheduled>, e: Scheduled,
      nodes': seq<NodeState>)
    requires InCourse(cfg, frames, fired)
    requires Handles(cfg, e, OpCount(cfg, fired), frames[|frames| - 1].1, nodes')
    ensures InCourse(cfg, frames + [(e.at, nodes')], fired + [e])
  {
    var frames', fired' := frames + [(e.at, nodes')], fired + [e];
    forall k: nat | k < |fired'| ensures FrameFollows(cfg, frames', fired', k) {
      if k < |fired| {
        assert FrameFollows(cfg, frames, fired, k);
        assert fired'[..k] == fired[..k];
      } else {
        assert fired'[..k] == fired;
      }
    }
  }

  /** Handling an event and what it leaves on the log. */
  lemma EventOnCourse(cfg: Config, w: World, c: Core, e: Scheduled) returns (w': World)
    requires OnCourse(cfg, w) && e.at == c.now && c.nextToken == w.core.nextToken
    requires FiredOf(c.log) == FiredOf(w.core.log) + [e] && AllAttributed(cfg, c.log)
    ensures w' == Dispatch(cfg, w.(core := c), e.kind)
    ensures OnCourse(cfg, w'.(frames := w.frames + [(e.at, w'.nodes)])) && w'.frames == w.frames
    ensures w'.core.now == e.at
  {
    w' := EventIs(cfg, w.(core := c), e);
    var fired := FiredOf(w.core.log);
    CourseGoesOn(cfg, w.frames, fired, e, w'.nodes);
    OpCountSnoc(cfg, fired, e);
    var more := w'.core.log[|c.log|..];
    assert w'.core.log == c.log + more;
    SegmentAttributed(cfg, c.log, more, Handler(cfg, e.kind));
  }

  lemma PumpedOnCourse(cfg: Config, w: World, w': World)
    requires OnCourse(cfg, w) && w'.nodes == w.nodes && w'.frames == w.frames
    requires w'.core.log == w.core.log && w'.core.nextToken == w.core.nextToken
    ensures OnCourse(cfg, w')
  {
  }

  lemma StepOnCourse(cfg: Config, w: World)
    requires OnCourse(cfg, w)
    ensures OnCourse(cfg, Step(cfg, w).0)
  {
    var c, popped := PopFires(cfg, w.core);
    match popped
    case None =>
    case Some(kind) =>
      var seqNo :| FiredOf(c.log) == FiredOf(w.core.log) + [Scheduled(c.now, seqNo, kind)];
      var e := Scheduled(c.now, seqNo, kind);
      var w1 := EventOnCourse(cfg, w, c, e);
      var w2 := PumpIs(w1, cfg.nodeCount);
      PumpedOnCourse(cfg, w1.(frames := w.frames + [(e.at, w1.nodes)]), Snapshot(w2));
  }

  // ----- Whole runs -----

  ghost predicate NothingTaken(log: seq<LogEvent>) {
    forall i :: 0 <= i < |log| ==> !log[i].Taken?
  }

  lemma {:induction false} NothingFired(log: seq<LogEvent>)
    requires NothingTaken(log)
    ensures FiredOf(log) == []
    decreases |log|
  {
    if log == [] {
    } else {
      NothingFired(log[..|log| - 1]);
    }
  }

  lemma NothingAttributed(cfg: Config, log: seq<LogEvent>)
    requires cfg.nodeCount > 0 && NothingTaken(log)
    ensures AllAttributed(cfg, log)
  {
    forall i: nat | i < |log| ensures Attributed(cfg, log, i) {
      NothingFired(log[..i]);
    }
  }

  /** Nodes below `upTo` have started, and the others are as they were. */
  ghost predicate StartedSo(cfg: Config, w: World, upTo: nat) {
    && |w.nodes| == cfg.nodeCount && upTo <= |w.nodes|
    && (forall n: nat :: n < upTo ==> CanEnd(cfg, cfg.def.onStart(n, 0, cfg.def.default), w.nodes[n]))
    && (forall n: nat :: upTo <= n < |w.nodes| ==> w.nodes[n] == cfg.def.default)
    && NothingTaken(w.core.log) && w.core.now == 0 && w.core.nextToken == 0 && w.frames == []
  }

  lemma OneStarts(cfg: Config, w: World, id: nat)
    requires id < cfg.nodeCount && StartedSo(cfg, w, id)
    ensures StartedSo(cfg, DispatchStart(cfg, w, id), id + 1)
  {
    var w', s := RunNodeIs(cfg, w, id, cfg.def.onStart(id, w.core.now, w.nodes[id]));
    assert w' == DispatchStart(cfg, w, id);
  }

  lemma {:induction false} AllStart(cfg: Config, w: World, upTo: nat)
    requires upTo <= cfg.nodeCount && StartedSo(cfg, w, 0)
    ensures StartedSo(cfg, StartAll(cfg, w, upTo), upTo)
  {
    if upTo == 0 {
    } else {
      AllStart(cfg, w, upTo - 1);
      OneStarts(cfg, StartAll(cfg, w, upTo - 1), upTo - 1);
    }
  }

  lemma StartOnCourse(cfg: Config, faults: seq<(nat, FaultAction)>)
    requires cfg.nodeCount > 0
    ensures OnCourse(cfg, Init(cfg, faults))
  {
    FaultsOnlyQueue(NewCore(), faults);
    var w := Boot(cfg, faults);
    AllStart(cfg, w, cfg.nodeCount);
    var w1 := StartAll(cfg, w, cfg.nodeCount);
    NothingFired(w1.core.log);
    NothingAttributed(cfg, w1.core.log);
    var w2 := PumpIs(Snapshot(w1), cfg.nodeCount);
    PumpedOnCourse(cfg, Snapshot(w1), w2);
  }

  /** In every run: the frames are the states after the start and after each event that reached the driver, each got
      from the one before by the callback the event is for; and what is on the log in between is that node's
      doing. */
  lemma {:induction false} NodesDoWhatTheySay(cfg: Config, faults: seq<(nat, FaultAction)>, n: nat)
    requires cfg.nodeCount > 0
    ensures OnCourse(cfg, Run(cfg, Init(cfg, faults), n).0)
  {
    if n == 0 {
      StartOnCourse(cfg, faults);
    } else {
      NodesDoWhatTheySay(cfg, faults, n - 1);
      StepOnCourse(cfg, Run(cfg, Init(cfg, faults), n - 1).0);
    }
  }
}
