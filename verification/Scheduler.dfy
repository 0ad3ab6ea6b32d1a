/** The scheduler as it is written: an object whose methods update its fields in place
    (crates/propsim-sim/src/scheduler.rs and ctx.rs). Each method turns the abstract state `View()`
    into what the function of the same name in `Engine` makes of it. */
module Scheduler {
  import opened Ops
  import opened Engine

  lemma {:induction false} CloseAllSnoc(c: Core, tokens: seq<nat>, t: nat)
    ensures CloseAll(c, tokens + [t]) == CloseOp(CloseAll(c, tokens), t, Info, Nil)
    decreases |tokens|
  {
    if tokens == [] {
      assert ([] + [t])[1..] == [];
    } else {
      assert (tokens + [t])[1..] == tokens[1..] + [t];
      CloseAllSnoc(CloseOp(c, tokens[0], Info, Nil), tokens[1..], t);
    }
  }

  lemma {:induction false} SendAllSnoc(cfg: Config, c: Core, from: nat, to: seq<nat>, last: nat, msg: Msg)
    ensures SendAll(cfg, c, from, to + [last], msg) ==
            ScheduleDelivery(cfg, SendAll(cfg, c, from, to, msg), from, last, msg)
    decreases |to|
  {
    if to == [] {
      assert ([] + [last])[1..] == [];
    } else {
      assert (to + [last])[1..] == to[1..] + [last];
      SendAllSnoc(cfg, ScheduleDelivery(cfg, c, from, to[0], msg), from, to[1..], last, msg);
    }
  }

  /** The one or two events of a message on the wire. */
  function Copies(at: nat, seqNo: nat, kind: EventKind, dup: bool): seq<Scheduled> {
    [Scheduled(at, seqNo, kind)] + (if dup then [Scheduled(at, seqNo + 1, kind)] else [])
  }

  /** Recognising a transmission by what it changes. */
  lemma IsTransmit(cfg: Config, c: Core, from: nat, to: nat, msg: Msg, delay: nat, dup: bool, at: nat, t: Core)
    requires var floor := if (from, to) in c.lastLink then c.lastLink[(from, to)] else 0;
             at == if cfg.model.ordered && c.now + delay < floor then floor else c.now + delay
    requires t == c.(queue := t.queue, seqNo := t.seqNo, lastLink := t.lastLink, log := t.log)
    requires t.queue == c.queue + Copies(at, c.seqNo, Deliver(from, to, msg), dup)
    requires t.seqNo == c.seqNo + (if dup then 2 else 1)
    requires t.lastLink == if cfg.model.ordered then c.lastLink[(from, to) := at] else c.lastLink
    requires t.log == c.log + [Sent(Scheduled(at, c.seqNo, Deliver(from, to, msg)), if dup then 2 else 1)]
    ensures t == Transmit(cfg, c, from, to, msg, delay, dup)
  {
  }

  /** A roll neither reads nor changes the links. */
  lemma RollAside(cfg: Config, c: Core, lastLink: map<(nat, nat), nat>, p: Prob)
    ensures Roll(cfg, c.(lastLink := lastLink), p) == (Roll(cfg, c, p).0.(lastLink := lastLink), Roll(cfg, c, p).1)
  {
  }

  class SchedCore {
    const cfg: Config
    var now: nat
    var rng: nat
    var queue: seq<Scheduled>
    var seqNo: nat
    var timerGen: map<(nat, string), nat>
    var partitions: seq<seq<nat>>
    var crashed: seq<nat>
    var lastLink: map<(nat, nat), nat>
    var history: seq<OpEntry>
    var events: seq<RunEvent>
    var pending: map<nat, PendingOp>
    var nextToken: nat
    ghost var tokens: seq<nat>
    ghost var log: seq<LogEvent>

    ghost function View(): Core
      reads this
    {
      Core(now, rng, queue, seqNo, timerGen, partitions, crashed, lastLink, history, events, pending, nextToken,
           tokens, log)
    }

    constructor (cfg: Config)
      ensures this.cfg == cfg && View() == NewCore()
    {
      this.cfg := cfg;
      now, rng, queue, seqNo := 0, 0, [], 0;
      timerGen, partitions, crashed, lastLink := map[], [], [], map[];
      history, events, pending, nextToken := [], [], map[], 0;
      tokens, log := [], [];
    }

    // ----- Randomness -----

    method Next() returns (z: u64)
      modifies this`rng
      ensures View() == Drawn(old(View())) && z == cfg.tape(old(rng))
    {
      z := cfg.tape(rng);
      rng := rng + 1;
    }

    method Chance(p: Prob) returns (hit: bool)
      modifies this`rng
      ensures (View(), hit) == Roll(cfg, old(View()), p)
    {
      match p {
        case Never => hit := false;
        case Always => hit := true;
        case Coin(under) =>
          var z := Next();
          hit := under(z);
      }
    }

    method RangeU64(lo: u64, hi: u64) returns (v: nat)
      modifies this`rng
      ensures (View(), v) == Range(cfg, old(View()), lo, hi)
    {
      if hi <= lo {
        return lo;
      }
      var z := Next();
      v := lo + z % (hi - lo);
    }

    // ----- Client operations -----

    method Push(token: nat, kind: OpKind, process: nat, f: string, value: Value)
      modifies this`history, this`tokens
      ensures View() == Record(old(View()), token, kind, process, f, value)
    {
      history := history + [OpEntry(|history|, Time(NowNanos(now), Virtual), kind, process, f, value)];
      tokens := tokens + [token];
    }

    method OpenOp(process: nat, f: string, value: Value) returns (token: nat)
      modifies this
      ensures token == old(nextToken) && View() == Engine.OpenOp(old(View()), process, f, value)
    {
      token := nextToken;
      Push(token, Invoke, process, f, value);
      nextToken := nextToken + 1;
      pending := pending[token := PendingOp(process, f)];
    }

    method CloseOp(token: nat, kind: OpKind, value: Value)
      modifies this
      ensures View() == Engine.CloseOp(old(View()), token, kind, value)
    {
      if token in pending {
        var op := pending[token];
        pending := pending - {token};
        Push(token, kind, op.process, op.f, value);
      }
    }

    method CloseEach(closing: seq<nat>)
      modifies this
      ensures View() == CloseAll(old(View()), closing)
    {
      for i := 0 to |closing|
        invariant View() == CloseAll(old(View()), closing[..i])
      {
        CloseAllSnoc(old(View()), closing[..i], closing[i]);
        assert closing[..i + 1] == closing[..i] + [closing[i]];
        CloseOp(closing[i], Info, Nil);
      }
      assert closing[..|closing|] == closing;
    }

    method ForceClosePending()
      modifies this
      ensures View() == Engine.ForceClosePending(old(View()))
    {
      CloseEach(PendingTokens(pending, nextToken, None));
    }

    // ----- Messages -----

    method Enqueue(at: nat, kind: EventKind)
      modifies this`queue, this`seqNo
      ensures View() == Engine.Enqueue(old(View()), at, kind)
    {
      queue := queue + [Scheduled(at, seqNo, kind)];
      seqNo := seqNo + 1;
    }

    predicate Connected(a: nat, b: nat)
      reads this
      ensures Connected(a, b) == Engine.Connected(View(), a, b)
    {
      if a in crashed || b in crashed then false
      else if partitions == [] then true
      else exists g :: g in partitions && a in g && b in g
    }

    /** An ordered link delivers no message before an earlier one. */
    method OnLink(from: nat, to: nat, sample: nat) returns (at: nat)
      modifies this`lastLink
      ensures var floor := if (from, to) in old(lastLink) then old(lastLink)[(from, to)] else 0;
              && at == (if cfg.model.ordered && sample < floor then floor else sample)
              && lastLink == if cfg.model.ordered then old(lastLink)[(from, to) := at] else old(lastLink)
    {
      at := sample;
      if cfg.model.ordered {
        var floor := if (from, to) in lastLink then lastLink[(from, to)] else 0;
        if at < floor {
          at := floor;
        }
        lastLink := lastLink[(from, to) := at];
      }
    }

    method EnqueueCopies(from: nat, to: nat, msg: Msg, at: nat, dup: bool)
      modifies this`queue, this`seqNo, this`log
      ensures queue == old(queue) + Copies(at, old(seqNo), Deliver(from, to, msg), dup)
      ensures seqNo == old(seqNo) + (if dup then 2 else 1)
      ensures log == old(log) + [Sent(Scheduled(at, old(seqNo), Deliver(from, to, msg)), if dup then 2 else 1)]
    {
      log := log + [Sent(Scheduled(at, seqNo, Deliver(from, to, msg)), if dup then 2 else 1)];
      Enqueue(at, Deliver(from, to, msg));
      if dup {
        Enqueue(at, Deliver(from, to, msg));
      }
    }

    /** What happens to a message that is not dropped. */
    method Carry(from: nat, to: nat, msg: Msg)
      modifies this
      ensures var (c1, delay) := Range(cfg, old(View()), cfg.model.delayLo, cfg.model.delayHi);
              var (c2, dup) := Roll(cfg, c1, cfg.model.duplicate);
              View() == Transmit(cfg, c2, from, to, msg, delay * MILLIS, dup)
    {
      var base := RangeU64(cfg.model.delayLo, cfg.model.delayHi);
      ghost var sampled := View();
      var at := OnLink(from, to, now + base * MILLIS);
      var dup := Chance(cfg.model.duplicate);
      ghost var drawn := Roll(cfg, sampled, cfg.model.duplicate).0;
      RollAside(cfg, sampled, lastLink, cfg.model.duplicate);
      EnqueueCopies(from, to, msg, at, dup);
      IsTransmit(cfg, drawn, from, to, msg, base * MILLIS, dup, at, View());
    }

    method ScheduleDelivery(from: nat, to: nat, msg: Msg)
      modifies this
      ensures View() == Engine.ScheduleDelivery(cfg, old(View()), from, to, msg)
    {
      if !Connected(from, to) {
        return;
      }
      var lost := Chance(cfg.model.loss);
      if lost {
        return;
      }
      Carry(from, to, msg);
    }

    // ----- Timers -----

    method ArmTimer(node: nat, timer: Timer, after: nat)
      modifies this
      ensures View() == Engine.ArmTimer(cfg, old(View()), node, timer, after)
    {
      var key := TimerKey(cfg, node, timer);
      var gen := if key in timerGen then timerGen[key] else 0;
      gen := gen + 1;
      timerGen := timerGen[key := gen];
      log := log + [Armed(Scheduled(now + after, seqNo, Fire(node, timer, gen)), now, after)];
      Enqueue(now + after, Fire(node, timer, gen));
    }

    method CancelTimer(node: nat, timer: Timer)
      modifies this
      ensures View() == DisarmTimer(cfg, old(View()), node, timer)
    {
      var key := TimerKey(cfg, node, timer);
      timerGen := timerGen[key := (if key in timerGen then timerGen[key] else 0) + 1];
      log := log + [Cancelled(key.0, key.1)];
    }

    // ----- Faults and the event loop -----

    method ApplyFault(action: FaultAction)
      modifies this
      ensures View() == CloseAll(Inject(old(View()), action), Victims(Inject(old(View()), action), Fault(action)))
    {
      match action {
        case Partition(a, b) =>
          partitions := [a, b];
        case HealAll =>
          partitions := [];
          events := events + [NetworkHealed(now)];
        case Crash(n) =>
          if n !in crashed {
            crashed := crashed + [n];
          }
          CloseEach(PendingTokens(pending, nextToken, Some(n)));
        case Restart(n) =>
          crashed := RemoveAll(crashed, n);
          events := events + [NodeRejoined(now, n)];
      }
    }

    /** The heap's least event. */
    method PopLeast() returns (e: Scheduled)
      requires queue != []
      modifies this`queue
      ensures e == old(queue)[MinIndex(old(queue))]
      ensures View() == old(View()).(queue := Without(old(queue), MinIndex(old(queue))))
    {
      var m := MinIndex(queue);
      e := queue[m];
      queue := queue[..m] + queue[m + 1..];
    }

    /** `pop`: stale timers and events for crashed nodes are taken and dropped. */
    method Pop() returns (next: Option<EventKind>)
      modifies this
      ensures (View(), next) == Engine.Pop(cfg, old(View()))
    {
      while queue != []
        invariant Engine.Pop(cfg, View()) == Engine.Pop(cfg, old(View()))
        decreases |queue|
      {
        ghost var before := View();
        var e := PopLeast();
        if e.at >= cfg.horizon {
          now := cfg.horizon;
          return None;
        }
        now := e.at;
        log := log + [Taken(e, Fires(cfg, before, e.kind))];
        match e.kind {
          case Fire(node, timer, gen) =>
            var key := TimerKey(cfg, node, timer);
            if (if key in timerGen then timerGen[key] else 0) == gen && node !in crashed {
              return Some(e.kind);
            }
          case Deliver(from, to, msg) =>
            if to !in crashed {
              return Some(e.kind);
            }
          case Issue(_, _) =>
            return Some(e.kind);
          case Fault(action) =>
            ApplyFault(action);
            return Some(e.kind);
        }
      }
      next := None;
    }

    // ----- What a callback may do -----

    method SendAll(from: nat, msg: Msg)
      modifies this
      ensures View() == Engine.SendAll(cfg, old(View()), from, Peers(cfg.nodeCount, from), msg)
    {
      var peers := Peers(cfg.nodeCount, from);
      for i := 0 to |peers|
        invariant View() == Engine.SendAll(cfg, old(View()), from, peers[..i], msg)
      {
        SendAllSnoc(cfg, old(View()), from, peers[..i], peers[i], msg);
        assert peers[..i + 1] == peers[..i] + [peers[i]];
        ScheduleDelivery(from, peers[i], msg);
      }
      assert peers[..|peers|] == peers;
    }

    method CompleteOp(token: nat, completion: Completion)
      modifies this
      ensures View() == Complete(cfg, old(View()), token, completion)
    {
      match completion {
        case Succeeded(response) =>
          var value := if cfg.codec.Some? && token in pending
                       then cfg.codec.value.encode(pending[token].f, response) else Nil;
          CloseOp(token, Ok, value);
        case Failed => CloseOp(token, Fail, Nil);
        case Indeterminate => CloseOp(token, Info, Nil);
      }
    }

    method Perform(me: nat, effect: Effect)
      modifies this
      ensures View() == Engine.Perform(cfg, old(View()), me, effect)
    {
      match effect {
        case Send(to, msg) => ScheduleDelivery(me, to, msg);
        case Broadcast(msg) => SendAll(me, msg);
        case SetTimer(timer, after) => ArmTimer(me, timer, after);
        case CancelTimer(timer) => CancelTimer(me, timer);
        case CompleteOp(token, completion) => CompleteOp(token, completion);
      }
    }

    /** Run a callback of node `me` to its end. */
    method RunCallback<A>(me: nat, callback: Callback<A>) returns (result: A)
      modifies this
      ensures (View(), result) == Exec(cfg, old(View()), me, callback)
    {
      var cb := callback;
      while !cb.Return?
        invariant Exec(cfg, View(), me, cb) == Exec(cfg, old(View()), me, callback)
        decreases cb
      {
        if cb.Do? {
          Perform(me, cb.effect);
          cb := cb.next;
        } else {
          var z := Next();
          cb := Chosen(cb, z);
        }
      }
      result := cb.result;
    }
  }
}
