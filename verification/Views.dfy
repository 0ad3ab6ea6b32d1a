/** Two scheduler states that differ only in bookkeeping nobody observes: sequence numbers, which
    op table an index points into, and client ops queued beyond the horizon. Every operation of
    the engine treats such states alike. */
module Views {
  import opened Ops
  import opened Engine
  import opened Runs

  /** What matters about a queued event. */
  datatype SeenKind =
    | Plain(kind: EventKind)
    | Op(process: nat, value: Value, target: nat)

  datatype Seen = Seen(at: nat, kind: SeenKind)

  /** A client op that can never be issued. */
  predicate Doomed(cfg: Config, e: Scheduled) {
    e.kind.Issue? && e.at >= cfg.horizon
  }

  function SeeKind(cfg: Config, kind: EventKind): SeenKind {
    if kind.Issue? && kind.index < |cfg.ops| && cfg.nodeCount > 0 then
      Op(kind.process, cfg.ops[kind.index].op, Target(cfg.ops[kind.index], kind.process, cfg.nodeCount))
    else Plain(kind)
  }

  function See(cfg: Config, e: Scheduled): Seen {
    Seen(e.at, SeeKind(cfg, e.kind))
  }

  /** The queue without sequence numbers and without doomed ops, in order. */
  function View(cfg: Config, q: seq<Scheduled>): seq<Seen> {
    if q == [] then []
    else View(cfg, q[..|q| - 1]) + (if Doomed(cfg, q[|q| - 1]) then [] else [See(cfg, q[|q| - 1])])
  }

  /** Everything but the queue and the log. */
  function Rest(c: Core): Core {
    c.(queue := [], seqNo := 0, log := [])
  }

  ghost predicate Alike(cfg: Config, a: Core, cfg': Config, b: Core) {
    && Ordered(a.queue) && (forall e :: e in a.queue ==> e.seqNo < a.seqNo)
    && Ordered(b.queue) && (forall e :: e in b.queue ==> e.seqNo < b.seqNo)
    && Rest(a) == Rest(b)
    && View(cfg, a.queue) == View(cfg', b.queue)
  }

  /** Two configurations of one run, up to the op table. */
  ghost predicate SameSetup(cfg: Config, cfg': Config) {
    cfg' == cfg.(ops := cfg'.ops)
  }

  lemma ViewSnoc(cfg: Config, q: seq<Scheduled>, e: Scheduled)
    ensures View(cfg, q + [e]) == View(cfg, q) + (if Doomed(cfg, e) then [] else [See(cfg, e)])
  {
    assert (q + [e])[..|q|] == q;
  }

  lemma {:induction false} ViewConcat(cfg: Config, p: seq<Scheduled>, q: seq<Scheduled>)
    ensures View(cfg, p + q) == View(cfg, p) + View(cfg, q)
    decreases |q|
  {
    if q == [] {
      assert p + q == p;
    } else {
      var last := |q| - 1;
      assert p + q == (p + q[..last]) + [q[last]];
      ViewConcat(cfg, p, q[..last]);
      ViewSnoc(cfg, p + q[..last], q[last]);
    }
  }

  lemma {:induction false} ViewMembers(cfg: Config, q: seq<Scheduled>)
    ensures forall s :: s in View(cfg, q) ==> exists e :: e in q && !Doomed(cfg, e) && s == See(cfg, e)
    ensures forall e :: e in q && !Doomed(cfg, e) ==> See(cfg, e) in View(cfg, q)
  {
    if q == [] {
    } else {
      var last := |q| - 1;
      ViewMembers(cfg, q[..last]);
      assert q == q[..last] + [q[last]];
    }
  }

  // ----- The head of a view -----

  /** Position of the first event with the least time. */
  ghost predicate IsHead(v: seq<Seen>, j: nat) {
    && j < |v|
    && (forall i :: 0 <= i < j ==> v[j].at < v[i].at)
    && (forall i :: j < i < |v| ==> v[j].at <= v[i].at)
  }

  lemma HeadUnique(v: seq<Seen>, i: nat, j: nat)
    requires IsHead(v, i) && IsHead(v, j)
    ensures i == j
  {
    var first, second := v[i].at, v[j].at;
  }

  lemma ViewLater(cfg: Config, q: seq<Scheduled>, bound: nat)
    requires forall e :: e in q ==> bound <= e.at
    ensures forall i :: 0 <= i < |View(cfg, q)| ==> bound <= View(cfg, q)[i].at
  {
    ViewMembers(cfg, q);
    forall i | 0 <= i < |View(cfg, q)| ensures bound <= View(cfg, q)[i].at {
      assert View(cfg, q)[i] in View(cfg, q);
    }
  }

  lemma HeadSplits(q: seq<Scheduled>)
    requires q != [] && Ordered(q)
    ensures forall e :: e in q[..MinIndex(q)] ==> q[MinIndex(q)].at + 1 <= e.at
    ensures forall e :: e in q[MinIndex(q) + 1..] ==> q[MinIndex(q)].at <= e.at
  {
    var m := MinIndex(q);
    forall e | e in q[..m] ensures q[m].at + 1 <= e.at {
      var k :| 0 <= k < m && q[k] == e;
    }
    forall e | e in q[m + 1..] ensures q[m].at <= e.at {
      var k :| 0 <= k < |q[m + 1..]| && q[m + 1..][k] == e;
      assert q[m + 1 + k] == e;
    }
  }

  lemma ViewSplit(cfg: Config, q: seq<Scheduled>, m: nat)
    requires m < |q| && !Doomed(cfg, q[m])
    ensures View(cfg, q) == View(cfg, q[..m]) + [See(cfg, q[m])] + View(cfg, q[m + 1..])
    ensures View(cfg, Without(q, m)) == View(cfg, q[..m]) + View(cfg, q[m + 1..])
  {
    var before, head, after := q[..m], q[m], q[m + 1..];
    assert q == before + [head] + after;
    ViewConcat(cfg, before + [head], after);
    ViewSnoc(cfg, before, head);
    ViewConcat(cfg, before, after);
  }

  lemma HeadOf(before: seq<Seen>, s: Seen, after: seq<Seen>, v: seq<Seen>)
    requires v == before + [s] + after
    requires forall i :: 0 <= i < |before| ==> s.at + 1 <= before[i].at
    requires forall i :: 0 <= i < |after| ==> s.at <= after[i].at
    ensures IsHead(v, |before|) && v[|before|] == s && Without(v, |before|) == before + after
  {
    assert v[..|before|] == before && v[|before| + 1..] == after;
    assert forall i :: |before| < i < |v| ==> v[i] == after[i - |before| - 1];
  }

  /** The head of a queue, when due before the horizon, is the head of its view, and taking one
      takes the other. */
  lemma HeadView(cfg: Config, q: seq<Scheduled>) returns (j: nat)
    requires q != [] && Ordered(q) && q[MinIndex(q)].at < cfg.horizon
    ensures IsHead(View(cfg, q), j)
    ensures View(cfg, q)[j] == See(cfg, q[MinIndex(q)])
    ensures View(cfg, Without(q, MinIndex(q))) == Without(View(cfg, q), j)
  {
    var m := MinIndex(q);
    var before, after := View(cfg, q[..m]), View(cfg, q[m + 1..]);
    HeadSplits(q);
    ViewLater(cfg, q[..m], q[m].at + 1);
    ViewLater(cfg, q[m + 1..], q[m].at);
    ViewSplit(cfg, q, m);
    j := |before|;
    HeadOf(before, See(cfg, q[m]), after, View(cfg, q));
  }

  /** No event is due before the horizon exactly when the view has none either. */
  lemma NothingDue(cfg: Config, q: seq<Scheduled>)
    ensures (q == [] || q[MinIndex(q)].at >= cfg.horizon) <==> forall s :: s in View(cfg, q) ==> s.at >= cfg.horizon
  {
    ViewMembers(cfg, q);
    if q == [] {
    } else {
      var head := q[MinIndex(q)];
      assert head in q;
      if head.at < cfg.horizon {
        assert See(cfg, head) in View(cfg, q);
      } else {
        forall s | s in View(cfg, q) ensures s.at >= cfg.horizon {
          var e :| e in q && !Doomed(cfg, e) && s == See(cfg, e);
          var k :| 0 <= k < |q| && q[k] == e;
        }
      }
    }
  }

  // ----- Operations on alike states -----

  lemma SnocOrdered(q: seq<Scheduled>, e: Scheduled)
    requires Ordered(q) && forall x :: x in q ==> x.seqNo < e.seqNo
    ensures Ordered(q + [e])
  {
    assert forall i :: 0 <= i < |q| ==> q[i] in q;
  }

  lemma EnqueueAlike(cfg: Config, a: Core, cfg': Config, b: Core, at: nat, kind: EventKind, kind': EventKind)
    requires SameSetup(cfg, cfg') && Alike(cfg, a, cfg', b)
    requires SeeKind(cfg, kind) == SeeKind(cfg', kind') && (kind.Issue? <==> kind'.Issue?)
    ensures Alike(cfg, Enqueue(a, at, kind), cfg', Enqueue(b, at, kind'))
  {
    var e, e' := Scheduled(at, a.seqNo, kind), Scheduled(at, b.seqNo, kind');
    ViewSnoc(cfg, a.queue, e);
    ViewSnoc(cfg', b.queue, e');
    SnocOrdered(a.queue, e);
    SnocOrdered(b.queue, e');
    assert Rest(Enqueue(a, at, kind)) == Rest(a);
    assert Rest(Enqueue(b, at, kind')) == Rest(b);
  }

  /** A change outside queue and sequence numbers that is the same on both sides. */
  lemma RestAlike(cfg: Config, a: Core, cfg': Config, b: Core, a': Core, b': Core)
    requires Alike(cfg, a, cfg', b)
    requires a'.queue == a.queue && a'.seqNo == a.seqNo && b'.queue == b.queue && b'.seqNo == b.seqNo
    requires Rest(a') == Rest(b')
    ensures Alike(cfg, a', cfg', b')
  {
  }

  /** The log makes no difference. */
  lemma LogAlike(cfg: Config, a: Core, cfg': Config, b: Core, la: seq<LogEvent>, lb: seq<LogEvent>)
    requires Alike(cfg, a, cfg', b)
    ensures Alike(cfg, a.(log := la), cfg', b.(log := lb))
  {
    assert Rest(a.(log := la)) == Rest(a) && Rest(b.(log := lb)) == Rest(b);
  }

  lemma SameRest(a: Core, b: Core)
    requires Rest(a) == Rest(b)
    ensures a.now == b.now && a.rng == b.rng && a.timerGen == b.timerGen && a.partitions == b.partitions
    ensures a.crashed == b.crashed && a.lastLink == b.lastLink && a.history == b.history && a.events == b.events
    ensures a.pending == b.pending && a.nextToken == b.nextToken && a.tokens == b.tokens
  {
  }

  /** One event, or two of a kind. */
  function Enqueued(c: Core, at: nat, kind: EventKind, twice: bool): Core {
    if twice then Enqueue(Enqueue(c, at, kind), at, kind) else Enqueue(c, at, kind)
  }

  lemma EnqueuedAlike(cfg: Config, a: Core, cfg': Config, b: Core, at: nat, kind: EventKind, twice: bool,
      a': Core, b': Core)
    requires SameSetup(cfg, cfg') && Alike(cfg, a, cfg', b) && !kind.Issue?
    requires a' == Enqueued(a, at, kind, twice) && b' == Enqueued(b, at, kind, twice)
    ensures Alike(cfg, a', cfg', b')
  {
    EnqueueAlike(cfg, a, cfg', b, at, kind, kind);
    if twice {
      EnqueueAlike(cfg, Enqueue(a, at, kind), cfg', Enqueue(b, at, kind), at, kind, kind);
    }
  }

  /** Putting a message on the wire, step by step: the link's floor, one event or two, and a note on the log. */
  lemma TransmitSteps(cfg: Config, c: Core, from: nat, to: nat, msg: Msg, delay: nat, dup: bool)
    returns (at: nat, lastLink: map<(nat, nat), nat>, c0: Core, c1: Core, log: seq<LogEvent>)
    ensures var floor := if (from, to) in c.lastLink then c.lastLink[(from, to)] else 0;
            && at == (if cfg.model.ordered && c.now + delay < floor then floor else c.now + delay)
            && lastLink == if cfg.model.ordered then c.lastLink[(from, to) := at] else c.lastLink
    ensures c0 == c.(lastLink := lastLink)
    ensures c1 == Enqueued(c0, at, Deliver(from, to, msg), dup)
    ensures Transmit(cfg, c, from, to, msg, delay, dup) == c1.(log := log)
  {
    var floor := if (from, to) in c.lastLink then c.lastLink[(from, to)] else 0;
    at := if cfg.model.ordered && c.now + delay < floor then floor else c.now + delay;
    lastLink := if cfg.model.ordered then c.lastLink[(from, to) := at] else c.lastLink;
    c0 := c.(lastLink := lastLink);
    c1 := Enqueued(c0, at, Deliver(from, to, msg), dup);
    log := Transmit(cfg, c, from, to, msg, delay, dup).log;
  }

  /** The same floor on both sides. */
  lemma FloorAlike(cfg: Config, a: Core, cfg': Config, b: Core, lastLink: map<(nat, nat), nat>, a0: Core, b0: Core)
    requires Alike(cfg, a, cfg', b) && a0 == a.(lastLink := lastLink) && b0 == b.(lastLink := lastLink)
    ensures Alike(cfg, a0, cfg', b0)
  {
    assert Rest(a0) == Rest(a).(lastLink := lastLink) && Rest(b0) == Rest(b).(lastLink := lastLink);
    RestAlike(cfg, a, cfg', b, a0, b0);
  }

  lemma TransmitAlike(cfg: Config, a: Core, cfg': Config, b: Core, from: nat, to: nat, msg: Msg, delay: nat, dup: bool)
    requires SameSetup(cfg, cfg') && Alike(cfg, a, cfg', b)
    ensures Alike(cfg, Transmit(cfg, a, from, to, msg, delay, dup), cfg', Transmit(cfg', b, from, to, msg, delay, dup))
  {
    SameRest(a, b);
    var kind := Deliver(from, to, msg);
    var at, lastLink, a0, a1, la := TransmitSteps(cfg, a, from, to, msg, delay, dup);
    var at', lastLink', b0, b1, lb := TransmitSteps(cfg', b, from, to, msg, delay, dup);
    FloorAlike(cfg, a, cfg', b, lastLink, a0, b0);
    EnqueuedAlike(cfg, a0, cfg', b0, at, kind, dup, a1, b1);
    LogAlike(cfg, a1, cfg', b1, la, lb);
  }

  lemma RollAlike(cfg: Config, a: Core, cfg': Config, b: Core, p: Prob)
    requires SameSetup(cfg, cfg') && Alike(cfg, a, cfg', b)
    ensures Roll(cfg, a, p).1 == Roll(cfg', b, p).1
    ensures Alike(cfg, Roll(cfg, a, p).0, cfg', Roll(cfg', b, p).0)
  {
    SameRest(a, b);
    RestAlike(cfg, a, cfg', b, Roll(cfg, a, p).0, Roll(cfg', b, p).0);
  }

  lemma RangeAlike(cfg: Config, a: Core, cfg': Config, b: Core, lo: u64, hi: u64)
    requires SameSetup(cfg, cfg') && Alike(cfg, a, cfg', b)
    ensures Range(cfg, a, lo, hi).1 == Range(cfg', b, lo, hi).1
    ensures Alike(cfg, Range(cfg, a, lo, hi).0, cfg', Range(cfg', b, lo, hi).0)
  {
    SameRest(a, b);
    RestAlike(cfg, a, cfg', b, Range(cfg, a, lo, hi).0, Range(cfg', b, lo, hi).0);
  }

  lemma DeliveryAlike(cfg: Config, a: Core, cfg': Config, b: Core, from: nat, to: nat, msg: Msg)
    requires SameSetup(cfg, cfg') && Alike(cfg, a, cfg', b)
    ensures Alike(cfg, ScheduleDelivery(cfg, a, from, to, msg), cfg', ScheduleDelivery(cfg', b, from, to, msg))
  {
    SameRest(a, b);
    assert Connected(a, from, to) == Connected(b, from, to);
    if Connected(a, from, to) {
      RollAlike(cfg, a, cfg', b, cfg.model.loss);
      var (a1, lost) := Roll(cfg, a, cfg.model.loss);
      var (b1, _) := Roll(cfg', b, cfg.model.loss);
      if !lost {
        RangeAlike(cfg, a1, cfg', b1, cfg.model.delayLo, cfg.model.delayHi);
        var (a2, delay) := Range(cfg, a1, cfg.model.delayLo, cfg.model.delayHi);
        var (b2, _) := Range(cfg', b1, cfg.model.delayLo, cfg.model.delayHi);
        RollAlike(cfg, a2, cfg', b2, cfg.model.duplicate);
        var (a3, dup) := Roll(cfg, a2, cfg.model.duplicate);
        var (b3, _) := Roll(cfg', b2, cfg.model.duplicate);
        TransmitAlike(cfg, a3, cfg', b3, from, to, msg, delay * MILLIS, dup);
      }
    }
  }

  lemma {:induction false} SendAllAlike(cfg: Config, a: Core, cfg': Config, b: Core, from: nat, to: seq<nat>, msg: Msg)
    requires SameSetup(cfg, cfg') && Alike(cfg, a, cfg', b)
    ensures Alike(cfg, SendAll(cfg, a, from, to, msg), cfg', SendAll(cfg', b, from, to, msg))
    decreases |to|
  {
    if to == [] {
    } else {
      DeliveryAlike(cfg, a, cfg', b, from, to[0], msg);
      SendAllAlike(cfg, ScheduleDelivery(cfg, a, from, to[0], msg), cfg',
                   ScheduleDelivery(cfg', b, from, to[0], msg), from, to[1..], msg);
    }
  }

  lemma GenerationsAlike(cfg: Config, a: Core, cfg': Config, b: Core, gens: map<(nat, string), nat>)
    requires Alike(cfg, a, cfg', b)
    ensures Alike(cfg, a.(timerGen := gens), cfg', b.(timerGen := gens))
  {
    assert Rest(a.(timerGen := gens)) == Rest(a).(timerGen := gens);
    assert Rest(b.(timerGen := gens)) == Rest(b).(timerGen := gens);
  }

  lemma ArmIs(cfg: Config, c: Core, node: nat, timer: Timer, after: nat) returns (log: seq<LogEvent>)
    ensures var key := TimerKey(cfg, node, timer);
            var gen := Generation(c, key) + 1;
            var c1 := Enqueue(c.(timerGen := c.timerGen[key := gen]), c.now + after, Fire(node, timer, gen));
            ArmTimer(cfg, c, node, timer, after) == c1.(log := log)
  {
    var gen := Generation(c, TimerKey(cfg, node, timer)) + 1;
    log := c.log + [Armed(Scheduled(c.now + after, c.seqNo, Fire(node, timer, gen)), c.now, after)];
  }

  /** Both sides arm the same generation at the same instant. */
  lemma ArmPlan(cfg: Config, a: Core, cfg': Config, b: Core, node: nat, timer: Timer, after: nat)
    returns (gens: map<(nat, string), nat>, at: nat, kind: EventKind, la: seq<LogEvent>, lb: seq<LogEvent>)
    requires SameSetup(cfg, cfg') && Rest(a) == Rest(b)
    ensures kind.Fire?
    ensures ArmTimer(cfg, a, node, timer, after) == Enqueue(a.(timerGen := gens), at, kind).(log := la)
    ensures ArmTimer(cfg', b, node, timer, after) == Enqueue(b.(timerGen := gens), at, kind).(log := lb)
  {
    SameRest(a, b);
    var key := TimerKey(cfg, node, timer);
    assert key == TimerKey(cfg', node, timer);
    gens, at, kind := a.timerGen[key := Generation(a, key) + 1], a.now + after,
        Fire(node, timer, Generation(a, key) + 1);
    la := ArmIs(cfg, a, node, timer, after);
    lb := ArmIs(cfg', b, node, timer, after);
  }

  lemma ArmAlike(cfg: Config, a: Core, cfg': Config, b: Core, node: nat, timer: Timer, after: nat)
    requires SameSetup(cfg, cfg') && Alike(cfg, a, cfg', b)
    ensures Alike(cfg, ArmTimer(cfg, a, node, timer, after), cfg', ArmTimer(cfg', b, node, timer, after))
  {
    var gens, at, kind, la, lb := ArmPlan(cfg, a, cfg', b, node, timer, after);
    GenerationsAlike(cfg, a, cfg', b, gens);
    EnqueueAlike(cfg, a.(timerGen := gens), cfg', b.(timerGen := gens), at, kind, kind);
    LogAlike(cfg, Enqueue(a.(timerGen := gens), at, kind), cfg', Enqueue(b.(timerGen := gens), at, kind), la, lb);
  }

  lemma DisarmAlike(cfg: Config, a: Core, cfg': Config, b: Core, node: nat, timer: Timer)
    requires SameSetup(cfg, cfg') && Alike(cfg, a, cfg', b)
    ensures Alike(cfg, DisarmTimer(cfg, a, node, timer), cfg', DisarmTimer(cfg', b, node, timer))
  {
    assert Rest(DisarmTimer(cfg, a, node, timer)) == Rest(DisarmTimer(cfg, Rest(a), node, timer));
    assert Rest(DisarmTimer(cfg', b, node, timer)) == Rest(DisarmTimer(cfg, Rest(b), node, timer));
    RestAlike(cfg, a, cfg', b, DisarmTimer(cfg, a, node, timer), DisarmTimer(cfg', b, node, timer));
  }

  lemma CloseRest(c: Core, token: nat, kind: OpKind, value: Value)
    ensures Rest(CloseOp(c, token, kind, value)) == CloseOp(Rest(c), token, kind, value)
    ensures CloseOp(c, token, kind, value).queue == c.queue && CloseOp(c, token, kind, value).seqNo == c.seqNo
  {
  }

  lemma CloseAlike(cfg: Config, a: Core, cfg': Config, b: Core, token: nat, kind: OpKind, value: Value)
    requires Alike(cfg, a, cfg', b)
    ensures Alike(cfg, CloseOp(a, token, kind, value), cfg', CloseOp(b, token, kind, value))
  {
    CloseRest(a, token, kind, value);
    CloseRest(b, token, kind, value);
    RestAlike(cfg, a, cfg', b, CloseOp(a, token, kind, value), CloseOp(b, token, kind, value));
  }

  lemma {:induction false} CloseAllAlike(cfg: Config, a: Core, cfg': Config, b: Core, tokens: seq<nat>)
    requires Alike(cfg, a, cfg', b)
    ensures Alike(cfg, CloseAll(a, tokens), cfg', CloseAll(b, tokens))
    decreases |tokens|
  {
    if tokens == [] {
    } else {
      CloseAlike(cfg, a, cfg', b, tokens[0], Info, Nil);
      CloseAllAlike(cfg, CloseOp(a, tokens[0], Info, Nil), cfg', CloseOp(b, tokens[0], Info, Nil), tokens[1..]);
    }
  }

  lemma CompleteAlike(cfg: Config, a: Core, cfg': Config, b: Core, token: nat, completion: Completion)
    requires SameSetup(cfg, cfg') && Alike(cfg, a, cfg', b)
    ensures Alike(cfg, Complete(cfg, a, token, completion), cfg', Complete(cfg', b, token, completion))
  {
    SameRest(a, b);
    match completion
    case Succeeded(response) =>
      var value := if cfg.codec.Some? && token in a.pending
                   then cfg.codec.value.encode(a.pending[token].f, response) else Nil;
      CloseAlike(cfg, a, cfg', b, token, Ok, value);
    case Failed => CloseAlike(cfg, a, cfg', b, token, Fail, Nil);
    case Indeterminate => CloseAlike(cfg, a, cfg', b, token, Info, Nil);
  }

  lemma PerformAlike(cfg: Config, a: Core, cfg': Config, b: Core, me: nat, effect: Effect)
    requires SameSetup(cfg, cfg') && Alike(cfg, a, cfg', b)
    ensures Alike(cfg, Perform(cfg, a, me, effect), cfg', Perform(cfg', b, me, effect))
  {
    SameRest(a, b);
    match effect
    case Send(to, msg) => DeliveryAlike(cfg, a, cfg', b, me, to, msg);
    case Broadcast(msg) => SendAllAlike(cfg, a, cfg', b, me, Peers(cfg.nodeCount, me), msg);
    case SetTimer(timer, after) => ArmAlike(cfg, a, cfg', b, me, timer, after);
    case CancelTimer(timer) => DisarmAlike(cfg, a, cfg', b, me, timer);
    case CompleteOp(token, completion) => CompleteAlike(cfg, a, cfg', b, token, completion);
  }

  /** A callback does the same on both sides, and returns the same. */
  lemma {:induction false} ExecAlike<A>(cfg: Config, a: Core, cfg': Config, b: Core, me: nat, cb: Callback<A>)
    requires SameSetup(cfg, cfg') && Alike(cfg, a, cfg', b)
    ensures Exec(cfg, a, me, cb).1 == Exec(cfg', b, me, cb).1
    ensures Alike(cfg, Exec(cfg, a, me, cb).0, cfg', Exec(cfg', b, me, cb).0)
    decreases cb
  {
    match cb
    case Return(_) =>
    case Do(effect, next) =>
      PerformAlike(cfg, a, cfg', b, me, effect);
      ExecAlike(cfg, Perform(cfg, a, me, effect), cfg', Perform(cfg', b, me, effect), me, next);
    case Draw(_, _) =>
      SameRest(a, b);
      RestAlike(cfg, a, cfg', b, Drawn(a), Drawn(b));
      ExecAlike(cfg, Drawn(a), cfg', Drawn(b), me, Chosen(cb, cfg.tape(a.rng)));
  }

  // ----- Taking events -----

  lemma SeenKinds(cfg: Config, cfg': Config, kind: EventKind, kind': EventKind)
    requires SeeKind(cfg, kind) == SeeKind(cfg', kind')
    ensures kind == kind' || (kind.Issue? && kind'.Issue?)
  {
  }

  /** What taking the head does besides the queue and the log. */
  lemma TakeRestIs(cfg: Config, c: Core, head: Scheduled, d: Core)
    requires c.queue != [] && head == c.queue[MinIndex(c.queue)] && head.at < cfg.horizon
    requires d == Rest(c).(now := head.at)
    ensures Rest(TakeHead(cfg, c)) == if head.kind.Fault? then Inject(d, head.kind.action) else d
  {
  }

  lemma TakeRestAlike(cfg: Config, a: Core, cfg': Config, b: Core, head: Scheduled, head': Scheduled)
    requires SameSetup(cfg, cfg') && Rest(a) == Rest(b)
    requires a.queue != [] && head == a.queue[MinIndex(a.queue)]
    requires b.queue != [] && head' == b.queue[MinIndex(b.queue)]
    requires See(cfg, head) == See(cfg', head') && head.at < cfg.horizon
    ensures Rest(TakeHead(cfg, a)) == Rest(TakeHead(cfg', b))
  {
    SeenKinds(cfg, cfg', head.kind, head'.kind);
    TakeRestIs(cfg, a, head, Rest(a).(now := head.at));
    TakeRestIs(cfg', b, head', Rest(b).(now := head'.at));
  }

  lemma HeadsAlike(cfg: Config, a: Core, cfg': Config, b: Core) returns (head: Scheduled, head': Scheduled)
    requires SameSetup(cfg, cfg') && Alike(cfg, a, cfg', b)
    requires a.queue != [] && a.queue[MinIndex(a.queue)].at < cfg.horizon
    ensures b.queue != [] && head == a.queue[MinIndex(a.queue)] && head' == b.queue[MinIndex(b.queue)]
    ensures head'.at < cfg.horizon && See(cfg, head) == See(cfg', head')
    ensures View(cfg, Without(a.queue, MinIndex(a.queue))) == View(cfg', Without(b.queue, MinIndex(b.queue)))
  {
    NothingDue(cfg, a.queue);
    NothingDue(cfg', b.queue);
    var i := HeadView(cfg, a.queue);
    var j := HeadView(cfg', b.queue);
    HeadUnique(View(cfg, a.queue), i, j);
    head, head' := a.queue[MinIndex(a.queue)], b.queue[MinIndex(b.queue)];
  }

  lemma TakeQueue(cfg: Config, c: Core) returns (c': Core)
    requires c.queue != [] && Ordered(c.queue) && forall e :: e in c.queue ==> e.seqNo < c.seqNo
    ensures c' == TakeHead(cfg, c) && c'.queue == Without(c.queue, MinIndex(c.queue))
    ensures Ordered(c'.queue) && forall e :: e in c'.queue ==> e.seqNo < c'.seqNo
  {
    var head;
    head, c' := TakeRest(cfg, c);
    TakeShape(cfg, c, head, c');
  }

  lemma TakeAlike(cfg: Config, a: Core, cfg': Config, b: Core)
    requires SameSetup(cfg, cfg') && Alike(cfg, a, cfg', b)
    requires a.queue != [] && a.queue[MinIndex(a.queue)].at < cfg.horizon
    ensures b.queue != [] && b.queue[MinIndex(b.queue)].at < cfg.horizon
    ensures See(cfg, a.queue[MinIndex(a.queue)]) == See(cfg', b.queue[MinIndex(b.queue)])
    ensures Alike(cfg, TakeHead(cfg, a), cfg', TakeHead(cfg', b))
  {
    var head, head' := HeadsAlike(cfg, a, cfg', b);
    var a' := TakeQueue(cfg, a);
    var b' := TakeQueue(cfg', b);
    TakeRestAlike(cfg, a, cfg', b, head, head');
  }

  lemma TakeShrinks(cfg: Config, c: Core)
    requires c.queue != []
    ensures |TakeHead(cfg, c).queue| == |c.queue| - 1
  {
  }

  lemma VictimsAlike(cfg: Config, a: Core, cfg': Config, b: Core, kind: EventKind, kind': EventKind)
    requires SameSetup(cfg, cfg') && Rest(a) == Rest(b) && SeeKind(cfg, kind) == SeeKind(cfg', kind')
    ensures Victims(a, kind) == Victims(b, kind')
  {
    SeenKinds(cfg, cfg', kind, kind');
    SameRest(a, b);
  }

  /** Both sides hand out the heads of their queues, and a crash closes the same ops. */
  lemma PopFires(cfg: Config, a: Core, cfg': Config, b: Core)
    requires SameSetup(cfg, cfg') && Alike(cfg, a, cfg', b)
    requires a.queue != [] && a.queue[MinIndex(a.queue)].at < cfg.horizon
    requires b.queue != [] && b.queue[MinIndex(b.queue)].at < cfg'.horizon
    requires See(cfg, a.queue[MinIndex(a.queue)]) == See(cfg', b.queue[MinIndex(b.queue)])
    requires Fires(cfg, a, a.queue[MinIndex(a.queue)].kind) && Fires(cfg', b, b.queue[MinIndex(b.queue)].kind)
    ensures var (a', popped), (b', popped') := Pop(cfg, a), Pop(cfg', b);
            && popped.Some? && popped'.Some? && SeeKind(cfg, popped.value) == SeeKind(cfg', popped'.value)
            && Alike(cfg, a', cfg', b')
  {
    var head, head' := a.queue[MinIndex(a.queue)], b.queue[MinIndex(b.queue)];
    TakeAlike(cfg, a, cfg', b);
    var a1, b1 := TakeHead(cfg, a), TakeHead(cfg', b);
    VictimsAlike(cfg, a1, cfg', b1, head.kind, head'.kind);
    CloseAllAlike(cfg, a1, cfg', b1, Victims(a1, head.kind));
  }

  lemma FiresAlike(cfg: Config, a: Core, cfg': Config, b: Core, kind: EventKind, kind': EventKind)
    requires SameSetup(cfg, cfg') && Rest(a) == Rest(b) && SeeKind(cfg, kind) == SeeKind(cfg', kind')
    ensures Fires(cfg, a, kind) == Fires(cfg', b, kind')
  {
    SeenKinds(cfg, cfg', kind, kind');
    SameRest(a, b);
  }

  lemma PopEnds(cfg: Config, c: Core)
    requires c.queue == [] || c.queue[MinIndex(c.queue)].at >= cfg.horizon
    ensures Pop(cfg, c).1.None?
    ensures Rest(Pop(cfg, c).0.(now := 0)) == Rest(c.(now := 0))
  {
  }

  /** `pop` hands both sides the same event, or tells both that the run is over; only then may the
      clocks differ. */
  lemma {:induction false} PopAlike(cfg: Config, a: Core, cfg': Config, b: Core)
    requires SameSetup(cfg, cfg') && Alike(cfg, a, cfg', b)
    ensures var (a', popped), (b', popped') := Pop(cfg, a), Pop(cfg', b);
            && (popped.Some? <==> popped'.Some?)
            && (popped.Some? ==> SeeKind(cfg, popped.value) == SeeKind(cfg', popped'.value) && Alike(cfg, a', cfg', b'))
            && (popped.None? ==> Rest(a'.(now := 0)) == Rest(b'.(now := 0)))
    decreases |a.queue|
  {
    NothingDue(cfg, a.queue);
    NothingDue(cfg', b.queue);
    if a.queue != [] && a.queue[MinIndex(a.queue)].at < cfg.horizon {
      var head, head' := a.queue[MinIndex(a.queue)], b.queue[MinIndex(b.queue)];
      assert b.queue != [] && head'.at < cfg.horizon && See(cfg, head) == See(cfg', head') by {
        TakeAlike(cfg, a, cfg', b);
      }
      FiresAlike(cfg, a, cfg', b, head.kind, head'.kind);
      if Fires(cfg, a, head.kind) {
        PopFires(cfg, a, cfg', b);
      } else {
        TakeAlike(cfg, a, cfg', b);
        TakeShrinks(cfg, a);
        PopAlike(cfg, TakeHead(cfg, a), cfg', TakeHead(cfg', b));
      }
    } else {
      PopEnds(cfg, a);
      PopEnds(cfg', b);
      assert Rest(a.(now := 0)) == Rest(a).(now := 0) && Rest(b.(now := 0)) == Rest(b).(now := 0);
    }
  }
}
