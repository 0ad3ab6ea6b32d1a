/** The virtual clock: events fire in strictly increasing `(at, seqNo)` order, time never runs
    backwards and never passes the horizon, and history and frame times follow it. */
module Clock {
  import opened Ops
  import opened Engine
  import opened Runs

  /** The queue holds distinct events in the order they were enqueued, none in the past. */
  ghost predicate QueueOk(cfg: Config, c: Core) {
    && c.now <= cfg.horizon
    && (forall i :: 0 <= i < |c.queue| ==> c.now <= c.queue[i].at && c.queue[i].seqNo < c.seqNo)
    && Ordered(c.queue)
  }

  /** Events were taken in strictly increasing order, all of them before anything still queued. */
  ghost predicate TakenInOrder(cfg: Config, c: Core) {
    && (forall i :: 0 <= i < |c.log| && c.log[i].Taken? ==>
          && c.log[i].taken.at <= c.now
          && c.log[i].taken.at < cfg.horizon
          && c.log[i].taken.seqNo < c.seqNo)
    && (forall i, k :: 0 <= i < |c.log| && c.log[i].Taken? && 0 <= k < |c.queue| ==> Before(c.log[i].taken, c.queue[k]))
    && (forall i, j :: 0 <= i < j < |c.log| && c.log[i].Taken? && c.log[j].Taken? ==>
          Before(c.log[i].taken, c.log[j].taken))
  }

  /** History entries are numbered consecutively and their times do not decrease. */
  ghost predicate HistoryInOrder(c: Core) {
    && (forall i :: 0 <= i < |c.history| ==> c.history[i].index == i && c.history[i].time.nanos <= NowNanos(c.now))
    && (forall i, j :: 0 <= i < j < |c.history| ==> c.history[i].time.nanos <= c.history[j].time.nanos)
  }

  ghost predicate ClockOk(cfg: Config, c: Core) {
    QueueOk(cfg, c) && TakenInOrder(cfg, c) && HistoryInOrder(c)
  }

  lemma EnqueueOk(cfg: Config, c: Core, at: nat, kind: EventKind)
    requires ClockOk(cfg, c) && at >= c.now
    ensures ClockOk(cfg, Enqueue(c, at, kind))
  {
  }

  lemma TakenQueue(cfg: Config, c: Core, c': Core, head: Scheduled)
    requires QueueOk(cfg, c) && head in c.queue
    requires forall e :: e in c'.queue ==> e in c.queue && Before(head, e)
    requires Ordered(c'.queue) && c'.seqNo == c.seqNo
    requires c'.now == if head.at < cfg.horizon then head.at else cfg.horizon
    ensures QueueOk(cfg, c')
    ensures NowNanos(c.now) <= NowNanos(c'.now)
  {
    var h :| 0 <= h < |c.queue| && c.queue[h] == head;
    forall i | 0 <= i < |c'.queue| ensures c'.now <= c'.queue[i].at && c'.queue[i].seqNo < c'.seqNo {
      assert c'.queue[i] in c'.queue;
      var j :| 0 <= j < |c.queue| && c.queue[j] == c'.queue[i];
    }
  }

  lemma TakenSnoc(cfg: Config, c: Core, c': Core, head: Scheduled)
    requires QueueOk(cfg, c) && TakenInOrder(cfg, c) && head in c.queue
    requires forall e :: e in c'.queue ==> e in c.queue && Before(head, e)
    requires c'.seqNo == c.seqNo
    requires c'.now == if head.at < cfg.horizon then head.at else cfg.horizon
    requires c'.log == c.log ||
            (head.at < cfg.horizon && exists fired :: c'.log == c.log + [LogEvent.Taken(head, fired)])
    ensures TakenInOrder(cfg, c')
  {
    var h :| 0 <= h < |c.queue| && c.queue[h] == head;
    forall i, k | 0 <= i < |c'.log| && c'.log[i].Taken? && 0 <= k < |c'.queue|
      ensures Before(c'.log[i].taken, c'.queue[k])
    {
      assert c'.queue[k] in c'.queue;
      var j :| 0 <= j < |c.queue| && c.queue[j] == c'.queue[k];
    }
  }

  lemma TakeOk(cfg: Config, c: Core)
    requires ClockOk(cfg, c) && c.queue != []
    ensures ClockOk(cfg, TakeHead(cfg, c))
  {
    var head, c' := TakeRest(cfg, c);
    TakeShape(cfg, c, head, c');
    TakenSnoc(cfg, c, c', head);
    TakenQueue(cfg, c, c', head);
  }

  lemma RecordOk(cfg: Config, c: Core, token: nat, kind: OpKind, process: nat, f: string, value: Value)
    requires ClockOk(cfg, c)
    ensures ClockOk(cfg, Record(c, token, kind, process, f, value))
  {
  }

  lemma NoteOk(cfg: Config, c: Core, note: LogEvent)
    requires ClockOk(cfg, c) && !note.Taken?
    ensures ClockOk(cfg, c.(log := c.log + [note]))
  {
  }

  lemma ArmOk(cfg: Config, c: Core, node: nat, timer: Timer, after: nat) returns (c': Core)
    requires ClockOk(cfg, c)
    ensures c' == ArmTimer(cfg, c, node, timer, after) && ClockOk(cfg, c')
  {
    var key := TimerKey(cfg, node, timer);
    var gen := Generation(c, key) + 1;
    var event := Scheduled(c.now + after, c.seqNo, Fire(node, timer, gen));
    var c1 := c.(timerGen := c.timerGen[key := gen]);
    assert ClockOk(cfg, c1);
    EnqueueOk(cfg, c1, event.at, event.kind);
    var c2 := Enqueue(c1, event.at, event.kind);
    NoteOk(cfg, c2, Armed(event, c.now, after));
    c' := c2.(log := c2.log + [Armed(event, c.now, after)]);
  }

  lemma TransmitOk(cfg: Config, c: Core, from: nat, to: nat, msg: Msg, delay: nat, dup: bool) returns (c': Core)
    requires ClockOk(cfg, c)
    ensures c' == Transmit(cfg, c, from, to, msg, delay, dup) && ClockOk(cfg, c')
  {
    var floor := if (from, to) in c.lastLink then c.lastLink[(from, to)] else 0;
    var at := if cfg.model.ordered && c.now + delay < floor then floor else c.now + delay;
    var c1 := if cfg.model.ordered then c.(lastLink := c.lastLink[(from, to) := at]) else c;
    assert ClockOk(cfg, c1);
    EnqueueOk(cfg, c1, at, Deliver(from, to, msg));
    var c2 := Enqueue(c1, at, Deliver(from, to, msg));
    EnqueueOk(cfg, c2, at, Deliver(from, to, msg));
    var c3 := if dup then Enqueue(c2, at, Deliver(from, to, msg)) else c2;
    var sent := Sent(Scheduled(at, c.seqNo, Deliver(from, to, msg)), if dup then 2 else 1);
    NoteOk(cfg, c3, sent);
    c' := c3.(log := c3.log + [sent]);
  }

  lemma DisarmOk(cfg: Config, c: Core, node: nat, timer: Timer)
    requires ClockOk(cfg, c)
    ensures ClockOk(cfg, DisarmTimer(cfg, c, node, timer))
  {
  }

  lemma MoveOk(cfg: Config, c: Core, m: Move)
    requires ClockOk(cfg, c) && Enabled(cfg, c, m)
    ensures ClockOk(cfg, Apply(cfg, c, m))
  {
    match m
    case Drawing =>
    case Transmitting(from, to, msg, delay, dup) =>
      var c' := TransmitOk(cfg, c, from, to, msg, delay, dup);
      assert Apply(cfg, c, m) == c';
    case Arming(node, timer, after) =>
      var c' := ArmOk(cfg, c, node, timer, after);
      assert Apply(cfg, c, m) == c';
    case Disarming(node, timer) => DisarmOk(cfg, c, node, timer);
    case Opening(process, f, value) => RecordOk(cfg, c, c.nextToken, Invoke, process, f, value);
    case Closing(token, kind, value) =>
      if token in c.pending {
        RecordOk(cfg, c, token, kind, c.pending[token].process, c.pending[token].f, value);
      }
    case Issuing(process, index) => EnqueueOk(cfg, c, c.now + MILLIS, Issue(process, index));
    case Taking => TakeOk(cfg, c);
  }

  lemma {:induction false} ScheduledFaultsOk(cfg: Config, c: Core, faults: seq<(nat, FaultAction)>)
    requires ClockOk(cfg, c) && c.now == 0
    ensures ClockOk(cfg, ScheduleFaults(c, faults))
    decreases |faults|
  {
    if faults == [] {
    } else {
      EnqueueOk(cfg, c, faults[0].0, Fault(faults[0].1));
      ScheduledFaultsOk(cfg, Enqueue(c, faults[0].0, Fault(faults[0].1)), faults[1..]);
    }
  }

  lemma KeepsClock(cfg: Config)
    ensures KeptByMoves(cfg, c => ClockOk(cfg, c))
  {
    forall c, m {:trigger Apply(cfg, c, m)} | ClockOk(cfg, c) && Enabled(cfg, c, m)
      ensures ClockOk(cfg, Apply(cfg, c, m))
    {
      MoveOk(cfg, c, m);
    }
  }

  /** After any number of iterations, for any node behaviour, draws and faults. */
  lemma ClockHolds(cfg: Config, faults: seq<(nat, FaultAction)>, n: nat)
    requires cfg.nodeCount > 0
    ensures ClockOk(cfg, Run(cfg, Init(cfg, faults), n).0.core)
  {
    ScheduledFaultsOk(cfg, NewCore(), faults);
    KeepsClock(cfg);
    RunKeeps(cfg, faults, n, c => ClockOk(cfg, c));
  }
}
