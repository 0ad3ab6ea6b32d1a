/** Timers. The scheduler never removes a queued firing: it bumps a generation and skips stale
    events when they surface. This is shown equivalent to an eager table that maps each timer to
    the one firing that is armed. */
module Timers {
  import opened Ops
  import opened Engine
  import opened Runs
  import opened Clock
  import opened Links

  /** A timer, as the scheduler identifies it: its node and the text of its tag. */
  type Key = (nat, string)

  function KeyOf(cfg: Config, e: Scheduled): Key
    requires e.kind.Fire?
  {
    (e.kind.node, cfg.def.timerKey(e.kind.timer))
  }

  /** The eager table after a log: arming overwrites, cancelling removes, and the armed firing
      removes itself when it is taken. No generations are involved. */
  function Table(cfg: Config, log: seq<LogEvent>): map<Key, Scheduled> {
    if log == [] then map[]
    else
      var table := Table(cfg, log[..|log| - 1]);
      match log[|log| - 1]
      case Armed(e, _, _) => if e.kind.Fire? then table[KeyOf(cfg, e) := e] else table
      case Cancelled(node, key) => table - {(node, key)}
      case Taken(e, _) =>
        if e.kind.Fire? && KeyOf(cfg, e) in table && table[KeyOf(cfg, e)] == e then table - {KeyOf(cfg, e)} else table
      case Sent(_, _) => table
  }

  /** The firing `e` is the one its timer is armed with. */
  predicate ArmedWith(cfg: Config, table: map<Key, Scheduled>, e: Scheduled)
    requires e.kind.Fire?
  {
    KeyOf(cfg, e) in table && table[KeyOf(cfg, e)] == e
  }

  /** The queue and the generations represent the table: a queued firing is current exactly when
      its timer is armed with it, and whatever is armed before the horizon is queued. */
  ghost predicate Represents(cfg: Config, c: Core, table: map<Key, Scheduled>) {
    && (forall e :: e in c.queue && e.kind.Fire? ==>
          && e.kind.gen <= Generation(c, KeyOf(cfg, e))
          && (e.kind.gen == Generation(c, KeyOf(cfg, e)) <==> ArmedWith(cfg, table, e)))
    && (forall k :: k in table ==>
          && table[k].kind.Fire?
          && KeyOf(cfg, table[k]) == k
          && (table[k] in c.queue || table[k].at >= cfg.horizon))
  }

  /** Every firing that surfaced was armed earlier, surfaces exactly when it was due, and reaches
      its node exactly when its timer is still armed with it and the node is up. */
  ghost predicate TimerEvents(cfg: Config, log: seq<LogEvent>) {
    && (forall i :: 0 <= i < |log| && log[i].Armed? ==>
          log[i].armed.kind.Fire? && log[i].armed.at == log[i].when + log[i].after)
    && (forall j :: 0 <= j < |log| && log[j].Taken? && log[j].taken.kind.Fire? ==>
          && (exists i :: 0 <= i < j && log[i].Armed? && log[i].armed == log[j].taken)
          && (log[j].fired <==>
                ArmedWith(cfg, Table(cfg, log[..j]), log[j].taken) && !CrashedBy(log[..j], log[j].taken.kind.node)))
  }

  ghost predicate QueuedWereArmed(c: Core) {
    forall e :: e in c.queue && e.kind.Fire? ==> exists i :: 0 <= i < |c.log| && c.log[i].Armed? && c.log[i].armed == e
  }

  ghost predicate TimersOk(cfg: Config, c: Core) {
    && Ordered(c.queue)
    && (forall e :: e in c.queue ==> e.seqNo < c.seqNo)
    && NetworkOk(c)
    && Represents(cfg, c, Table(cfg, c.log))
    && QueuedWereArmed(c)
    && TimerEvents(cfg, c.log)
  }

  // ----- The table follows every operation -----

  lemma ArmTable(cfg: Config, c: Core, node: nat, timer: Timer, after: nat)
    requires Represents(cfg, c, Table(cfg, c.log)) && forall e :: e in c.queue ==> e.seqNo < c.seqNo
    ensures var c' := ArmTimer(cfg, c, node, timer, after);
            var key := TimerKey(cfg, node, timer);
            && Represents(cfg, c', Table(cfg, c'.log))
            && Table(cfg, c'.log) == Table(cfg, c.log)[key := c'.log[|c.log|].armed]
            && Table(cfg, c'.log)[key].at == c.now + after
  {
    var c' := ArmTimer(cfg, c, node, timer, after);
    assert c'.log[..|c'.log| - 1] == c.log;
  }

  lemma DisarmTable(cfg: Config, c: Core, node: nat, timer: Timer)
    requires Represents(cfg, c, Table(cfg, c.log))
    ensures var c' := DisarmTimer(cfg, c, node, timer);
            && Represents(cfg, c', Table(cfg, c'.log))
            && Table(cfg, c'.log) == Table(cfg, c.log) - {TimerKey(cfg, node, timer)}
  {
    var c' := DisarmTimer(cfg, c, node, timer);
    assert c'.log[..|c'.log| - 1] == c.log;
  }

  /** A node sets and cancels its own timers, each told from the others by the text of its tag. Setting one arms it
      with a firing due that much later, and does nothing to the others. */
  lemma SettingArms(cfg: Config, c: Core, me: nat, timer: Timer, after: nat) returns (c': Core, firing: Scheduled)
    requires Represents(cfg, c, Table(cfg, c.log)) && forall e :: e in c.queue ==> e.seqNo < c.seqNo
    ensures c' == Perform(cfg, c, me, SetTimer(timer, after)) && Represents(cfg, c', Table(cfg, c'.log))
    ensures Table(cfg, c'.log) == Table(cfg, c.log)[(me, cfg.def.timerKey(timer)) := firing]
    ensures firing.at == c.now + after && firing.kind.Fire? && firing.kind.node == me && firing.kind.timer == timer
    ensures firing in c'.queue
  {
    c' := ArmTimer(cfg, c, me, timer, after);
    firing := c'.log[|c.log|].armed;
    ArmTable(cfg, c, me, timer, after);
  }

  /** Cancelling one leaves nothing armed for it, and does nothing to the others. */
  lemma CancellingDisarms(cfg: Config, c: Core, me: nat, timer: Timer) returns (c': Core)
    requires Represents(cfg, c, Table(cfg, c.log))
    ensures c' == Perform(cfg, c, me, CancelTimer(timer)) && Represents(cfg, c', Table(cfg, c'.log))
    ensures Table(cfg, c'.log) == Table(cfg, c.log) - {(me, cfg.def.timerKey(timer))}
  {
    c' := DisarmTimer(cfg, c, me, timer);
    DisarmTable(cfg, c, me, timer);
  }

  lemma TakeTable(cfg: Config, c: Core, c': Core, head: Scheduled, fired: bool)
    requires Represents(cfg, c, Table(cfg, c.log)) && head in c.queue && head.at < cfg.horizon
    requires forall e :: e in c'.queue <==> e in c.queue && e != head
    requires c'.timerGen == c.timerGen && c'.log == c.log + [Taken(head, fired)]
    ensures Represents(cfg, c', Table(cfg, c'.log))
  {
    assert c'.log[..|c'.log| - 1] == c.log;
    assert forall k :: Generation(c', k) == Generation(c, k);
  }

  lemma NoteEvents(cfg: Config, log: seq<LogEvent>, note: LogEvent)
    requires TimerEvents(cfg, log)
    requires note.Armed? ==> note.armed.kind.Fire? && note.armed.at == note.when + note.after
    requires note.Taken? && note.taken.kind.Fire? ==>
               && (exists i :: 0 <= i < |log| && log[i].Armed? && log[i].armed == note.taken)
               && (note.fired <==>
                     ArmedWith(cfg, Table(cfg, log), note.taken) && !CrashedBy(log, note.taken.kind.node))
    ensures TimerEvents(cfg, log + [note])
  {
    var log' := log + [note];
    forall j | 0 <= j < |log'| && log'[j].Taken? && log'[j].taken.kind.Fire?
      ensures exists i :: 0 <= i < j && log'[i].Armed? && log'[i].armed == log'[j].taken
      ensures log'[j].fired <==>
                ArmedWith(cfg, Table(cfg, log'[..j]), log'[j].taken) && !CrashedBy(log'[..j], log'[j].taken.kind.node)
    {
      assert log'[..j] == log[..j];
      assert log[..|log|] == log;
      if j < |log| {
        var i :| 0 <= i < j && log[i].Armed? && log[i].armed == log[j].taken;
        assert log'[i] == log[i];
      } else {
        var i :| 0 <= i < |log| && log[i].Armed? && log[i].armed == note.taken;
        assert log'[i] == log[i];
      }
    }
  }

  lemma StillArmed(c: Core, c': Core, note: LogEvent)
    requires QueuedWereArmed(c) && c'.log == c.log + [note]
    requires forall e :: e in c'.queue && e.kind.Fire? && e !in c.queue ==> note.Armed? && note.armed == e
    ensures QueuedWereArmed(c')
  {
    forall e | e in c'.queue && e.kind.Fire?
      ensures exists i :: 0 <= i < |c'.log| && c'.log[i].Armed? && c'.log[i].armed == e
    {
      if e in c.queue {
        var i :| 0 <= i < |c.log| && c.log[i].Armed? && c.log[i].armed == e;
        assert c'.log[i] == c.log[i];
      } else {
        assert c'.log[|c.log|] == note;
      }
    }
  }

  lemma AppendOrdered(q: seq<Scheduled>, e: Scheduled)
    requires Ordered(q) && forall x :: x in q ==> x.seqNo < e.seqNo
    ensures Ordered(q + [e])
  {
    assert forall i :: 0 <= i < |q| ==> q[i] in q;
  }

  lemma ArmKeeps(cfg: Config, c: Core, node: nat, timer: Timer, after: nat) returns (c': Core)
    requires TimersOk(cfg, c)
    ensures c' == ArmTimer(cfg, c, node, timer, after)
    ensures TimersOk(cfg, c')
  {
    c' := ArmTimer(cfg, c, node, timer, after);
    var note := c'.log[|c.log|];
    ArmTable(cfg, c, node, timer, after);
    QuietNote(c, c', note);
    NoteEvents(cfg, c.log, note);
    StillArmed(c, c', note);
    AppendOrdered(c.queue, note.armed);
  }

  lemma DisarmKeeps(cfg: Config, c: Core, node: nat, timer: Timer) returns (c': Core)
    requires TimersOk(cfg, c)
    ensures c' == DisarmTimer(cfg, c, node, timer)
    ensures TimersOk(cfg, c')
  {
    c' := DisarmTimer(cfg, c, node, timer);
    var note := c'.log[|c.log|];
    DisarmTable(cfg, c, node, timer);
    QuietNote(c, c', note);
    NoteEvents(cfg, c.log, note);
    StillArmed(c, c', note);
  }

  /** A queued firing reaches its node if and only if its timer is still armed with it and the node is up. */
  lemma FiringDecided(cfg: Config, c: Core, head: Scheduled)
    requires head in c.queue && head.kind.Fire?
    requires NetworkOk(c) && Represents(cfg, c, Table(cfg, c.log)) && QueuedWereArmed(c)
    ensures Fires(cfg, c, head.kind) <==>
            ArmedWith(cfg, Table(cfg, c.log), head) && !CrashedBy(c.log, head.kind.node)
    ensures exists i :: 0 <= i < |c.log| && c.log[i].Armed? && c.log[i].armed == head
  {
    assert TimerKey(cfg, head.kind.node, head.kind.timer) == KeyOf(cfg, head);
  }

  lemma TakeKeeps(cfg: Config, c: Core)
    requires TimersOk(cfg, c) && c.queue != []
    ensures TimersOk(cfg, TakeHead(cfg, c))
  {
    var head, c' := TakeRest(cfg, c);
    TakeShape(cfg, c, head, c');
    if head.at < cfg.horizon {
      var note := LogEvent.Taken(head, Fires(cfg, c, head.kind));
      TakeNetwork(cfg, c);
      if head.kind.Fire? {
        FiringDecided(cfg, c, head);
      }
      TakeTable(cfg, c, c', head, note.fired);
      NoteEvents(cfg, c.log, note);
      StillArmed(c, c', note);
    } else {
      TakeNetwork(cfg, c);
      assert forall k :: Generation(c', k) == Generation(c, k);
    }
  }

  lemma IssueKeeps(cfg: Config, c: Core, process: nat, index: nat) returns (c': Core)
    requires TimersOk(cfg, c)
    ensures c' == Enqueue(c, c.now + MILLIS, Issue(process, index))
    ensures TimersOk(cfg, c')
  {
    c' := Enqueue(c, c.now + MILLIS, Issue(process, index));
    AppendOrdered(c.queue, c'.queue[|c.queue|]);
    assert forall k :: Generation(c', k) == Generation(c, k);
  }

  lemma SameTimers(cfg: Config, c: Core, c': Core)
    requires TimersOk(cfg, c)
    requires c'.queue == c.queue && c'.seqNo == c.seqNo && c'.timerGen == c.timerGen && c'.log == c.log
    requires c'.crashed == c.crashed && c'.partitions == c.partitions
    ensures TimersOk(cfg, c')
  {
    assert forall k :: Generation(c', k) == Generation(c, k);
  }

  /** Messages make no difference to the timers. */
  lemma MoreMessages(cfg: Config, c: Core, c': Core, table: map<Key, Scheduled>)
    requires Represents(cfg, c, table) && c'.timerGen == c.timerGen
    requires forall e :: e in c.queue ==> e in c'.queue
    requires forall e :: e in c'.queue && e.kind.Fire? ==> e in c.queue
    ensures Represents(cfg, c', table)
  {
    assert forall k :: Generation(c', k) == Generation(c, k);
  }

  lemma TransmitKeeps(cfg: Config, c: Core, from: nat, to: nat, msg: Msg, delay: nat, dup: bool) returns (c': Core)
    requires TimersOk(cfg, c)
    ensures c' == Transmit(cfg, c, from, to, msg, delay, dup)
    ensures TimersOk(cfg, c')
  {
    c' := Transmit(cfg, c, from, to, msg, delay, dup);
    var note := c'.log[|c.log|];
    var e := note.sent;
    assert c'.log[..|c'.log| - 1] == c.log;
    assert c'.queue == c.queue + if dup then [e, e.(seqNo := c.seqNo + 1)] else [e];
    assert Ordered(c'.queue) && forall e :: e in c'.queue ==> e.seqNo < c'.seqNo by {
      AppendOrdered(c.queue, e);
      if dup {
        AppendOrdered(c.queue + [e], e.(seqNo := c.seqNo + 1));
        assert c'.queue == (c.queue + [e]) + [e.(seqNo := c.seqNo + 1)];
      }
    }
    QuietNote(c, c', note);
    NoteEvents(cfg, c.log, note);
    assert QueuedWereArmed(c') by {
      StillArmed(c, c', note);
    }
    MoreMessages(cfg, c, c', Table(cfg, c.log));
  }

  lemma MoveKeeps(cfg: Config, c: Core, m: Move)
    requires TimersOk(cfg, c) && Enabled(cfg, c, m)
    ensures TimersOk(cfg, Apply(cfg, c, m))
  {
    match m {
      case Transmitting(from, to, msg, delay, dup) =>
        var c' := TransmitKeeps(cfg, c, from, to, msg, delay, dup);
        assert Apply(cfg, c, m) == c';
      case Arming(node, timer, after) =>
        var c' := ArmKeeps(cfg, c, node, timer, after);
        assert Apply(cfg, c, m) == c';
      case Disarming(node, timer) =>
        var c' := DisarmKeeps(cfg, c, node, timer);
        assert Apply(cfg, c, m) == c';
      case Issuing(process, index) =>
        var c' := IssueKeeps(cfg, c, process, index);
        assert Apply(cfg, c, m) == c';
      case Taking => TakeKeeps(cfg, c);
      case _ => SameTimers(cfg, c, Apply(cfg, c, m));
    }
  }

  lemma KeepsTimers(cfg: Config)
    ensures KeptByMoves(cfg, c => TimersOk(cfg, c))
  {
    forall c, m {:trigger Apply(cfg, c, m)} | TimersOk(cfg, c) && Enabled(cfg, c, m)
      ensures TimersOk(cfg, Apply(cfg, c, m))
    {
      MoveKeeps(cfg, c, m);
    }
  }

  lemma BootTimers(cfg: Config, faults: seq<(nat, FaultAction)>) returns (c: Core)
    ensures c == ScheduleFaults(NewCore(), faults)
    ensures TimersOk(cfg, c)
  {
    c := ScheduleFaults(NewCore(), faults);
    ScheduledFaultsOk(cfg, NewCore(), faults);
    FaultsOnlyQueue(NewCore(), faults);
    FaultsAreNoMessages(NewCore(), faults);
  }

  /** In every run the queue and the generations represent the eager table, and every firing is
      decided by it. */
  lemma TimersHold(cfg: Config, faults: seq<(nat, FaultAction)>, n: nat)
    requires cfg.nodeCount > 0
    ensures TimersOk(cfg, Run(cfg, Init(cfg, faults), n).0.core)
  {
    var c := BootTimers(cfg, faults);
    KeepsTimers(cfg);
    RunKeeps(cfg, faults, n, c => TimersOk(cfg, c));
  }

  /** A firing surfaces at most once. */
  lemma FiresOnce(cfg: Config, faults: seq<(nat, FaultAction)>, n: nat, j1: nat, j2: nat)
    requires cfg.nodeCount > 0
    requires var log := Run(cfg, Init(cfg, faults), n).0.core.log;
             j1 < j2 < |log| && log[j1].Taken? && log[j2].Taken?
    ensures var log := Run(cfg, Init(cfg, faults), n).0.core.log;
            log[j1].taken != log[j2].taken
  {
    ClockHolds(cfg, faults, n);
    var c := Run(cfg, Init(cfg, faults), n).0.core;
    assert Before(c.log[j1].taken, c.log[j2].taken);
  }

  lemma {:induction false} PopNone(cfg: Config, c: Core)
    requires Pop(cfg, c).1.None? && Ordered(c.queue)
    ensures forall e :: e in Pop(cfg, c).0.queue ==> e.at >= cfg.horizon
    decreases |c.queue|
  {
    if c.queue == [] {
    } else {
      var head, c' := TakeRest(cfg, c);
      if head.at < cfg.horizon {
        PopNone(cfg, c');
      }
    }
  }

  /** When the main loop is over, everything still queued lies at or beyond the horizon. */
  lemma {:induction false} EndedQueue(cfg: Config, faults: seq<(nat, FaultAction)>, n: nat)
    requires cfg.nodeCount > 0 && !Run(cfg, Init(cfg, faults), n).1
    ensures forall e :: e in Run(cfg, Init(cfg, faults), n).0.core.queue ==> e.at >= cfg.horizon
  {
    var (w, more) := Run(cfg, Init(cfg, faults), n - 1);
    if more {
      ClockHolds(cfg, faults, n - 1);
      PopNone(cfg, w.core);
    } else {
      EndedQueue(cfg, faults, n - 1);
    }
  }

  /** Once the main loop is over, no timer due before the horizon is still armed: each one fired,
      was superseded, was cancelled, or came due while its node was down. */
  lemma NothingLeftArmed(cfg: Config, faults: seq<(nat, FaultAction)>, n: nat, k: Key)
    requires cfg.nodeCount > 0
    requires var (w, more) := Run(cfg, Init(cfg, faults), n);
             !more && k in Table(cfg, w.core.log)
    ensures Table(cfg, Run(cfg, Init(cfg, faults), n).0.core.log)[k].at >= cfg.horizon
  {
    TimersHold(cfg, faults, n);
    EndedQueue(cfg, faults, n);
  }
}
