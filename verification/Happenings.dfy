/** What is scheduled happens, once and at its time, unless the run ends first: every fault of the timeline, and
    every copy of a message put on the wire; and no other faults do
    (`schedule_fault`, `schedule_delivery` and `pop`, crates/propsim-sim/src/scheduler.rs). */
module Happenings {
  import opened Ops
  import opened Engine
  import opened Runs
  import opened Clock
  import opened Links
  import opened Timers
  import opened Sending

  type Timeline = seq<(nat, FaultAction)>

  /** The `k`-th fault of the timeline, as an event. */
  function Injection(faults: Timeline, k: nat): Scheduled
    requires k < |faults|
  {
    Scheduled(faults[k].0, k, Fault(faults[k].1))
  }

  ghost predicate IsInjection(faults: Timeline, e: Scheduled) {
    e.seqNo < |faults| && e == Injection(faults, e.seqNo)
  }

  ghost predicate Happened(log: seq<LogEvent>, e: Scheduled) {
    exists i :: 0 <= i < |log| && log[i].Taken? && log[i].taken == e
  }

  ghost predicate Injected(cfg: Config, faults: Timeline, c: Core) {
    && (forall k: nat :: k < |faults| ==>
          || Injection(faults, k) in c.queue || Happened(c.log, Injection(faults, k)) || faults[k].0 >= cfg.horizon)
    && (forall e :: e in c.queue && e.kind.Fault? ==> IsInjection(faults, e))
    && (forall i :: 0 <= i < |c.log| && c.log[i].Taken? && c.log[i].taken.kind.Fault? ==>
          IsInjection(faults, c.log[i].taken))
  }

  lemma HappenedStill(log: seq<LogEvent>, note: LogEvent, e: Scheduled)
    requires Happened(log, e) || (note.Taken? && note.taken == e)
    ensures Happened(log + [note], e)
  {
    var log' := log + [note];
    if i :| 0 <= i < |log| && log[i].Taken? && log[i].taken == e {
      assert log'[i] == log[i];
    } else {
      assert log'[|log|] == note;
    }
  }

  /** Nothing new is injected, and only what the log now says happened is gone. */
  lemma NoteInjected(cfg: Config, faults: Timeline, c: Core, c': Core, note: LogEvent)
    requires Injected(cfg, faults, c) && c'.log == c.log + [note]
    requires forall e :: e in c'.queue && e.kind.Fault? ==> e in c.queue
    requires forall e :: e in c.queue ==> e in c'.queue || (note.Taken? && note.taken == e)
    requires note.Taken? ==> note.taken in c.queue
    ensures Injected(cfg, faults, c')
  {
    forall k: nat | k < |faults|
      ensures || Injection(faults, k) in c'.queue || Happened(c'.log, Injection(faults, k))
              || faults[k].0 >= cfg.horizon
    {
      var e := Injection(faults, k);
      if e !in c'.queue && faults[k].0 < cfg.horizon {
        HappenedStill(c.log, note, e);
      }
    }
  }

  lemma QueueInjected(cfg: Config, faults: Timeline, c: Core, c': Core)
    requires Injected(cfg, faults, c) && c'.log == c.log
    requires forall e :: e in c'.queue && e.kind.Fault? ==> e in c.queue
    requires forall e :: e in c.queue && e.at < cfg.horizon ==> e in c'.queue
    ensures Injected(cfg, faults, c')
  {
  }

  lemma TakeInjected(cfg: Config, faults: Timeline, c: Core)
    requires Injected(cfg, faults, c) && c.queue != [] && Ordered(c.queue)
    ensures Injected(cfg, faults, TakeHead(cfg, c))
  {
    var head, c' := TakeRest(cfg, c);
    TakeShape(cfg, c, head, c');
    if head.at < cfg.horizon {
      NoteInjected(cfg, faults, c, c', LogEvent.Taken(head, Fires(cfg, c, head.kind)));
    } else {
      QueueInjected(cfg, faults, c, c');
    }
  }

  lemma MoveInjected(cfg: Config, faults: Timeline, c: Core, m: Move)
    requires Injected(cfg, faults, c) && Ordered(c.queue) && Enabled(cfg, c, m)
    ensures Injected(cfg, faults, Apply(cfg, c, m))
  {
    var c' := Apply(cfg, c, m);
    match m
    case Transmitting(_, _, _, _, _) => NoteInjected(cfg, faults, c, c', c'.log[|c.log|]);
    case Arming(_, _, _) => NoteInjected(cfg, faults, c, c', c'.log[|c.log|]);
    case Disarming(_, _) => NoteInjected(cfg, faults, c, c', c'.log[|c.log|]);
    case Taking => TakeInjected(cfg, faults, c);
    case _ => QueueInjected(cfg, faults, c, c');
  }

  lemma KeepsInjected(cfg: Config, faults: Timeline)
    ensures KeptByMoves(cfg, c => Injected(cfg, faults, c) && ClockOk(cfg, c))
  {
    forall c, m {:trigger Apply(cfg, c, m)} | Injected(cfg, faults, c) && ClockOk(cfg, c) && Enabled(cfg, c, m)
      ensures Injected(cfg, faults, Apply(cfg, c, m)) && ClockOk(cfg, Apply(cfg, c, m))
    {
      MoveInjected(cfg, faults, c, m);
      MoveOk(cfg, c, m);
    }
  }

  // ----- At first -----

  lemma {:induction false} ScheduledIs(c: Core, faults: Timeline)
    ensures ScheduleFaults(c, faults).queue
         == c.queue
            + seq(|faults|, k requires 0 <= k < |faults| => Scheduled(faults[k].0, c.seqNo + k, Fault(faults[k].1)))
    decreases |faults|
  {
    if faults == [] {
    } else {
      ScheduledIs(Enqueue(c, faults[0].0, Fault(faults[0].1)), faults[1..]);
    }
  }

  lemma BootInjected(cfg: Config, faults: Timeline) returns (c: Core)
    ensures c == ScheduleFaults(NewCore(), faults) && Injected(cfg, faults, c) && ClockOk(cfg, c)
  {
    c := ScheduleFaults(NewCore(), faults);
    FaultsOnlyQueue(NewCore(), faults);
    ScheduledFaultsOk(cfg, NewCore(), faults);
    ScheduledIs(NewCore(), faults);
    forall k: nat | k < |faults| ensures Injection(faults, k) in c.queue {
      assert c.queue[k] == Injection(faults, k);
    }
    assert forall k :: 0 <= k < |c.queue| ==> c.queue[k] == Injection(faults, k);
  }

  // ----- Whole runs -----

  lemma TakenOnce(cfg: Config, c: Core)
    requires ClockOk(cfg, c)
    ensures forall i, j :: 0 <= i < j < |c.log| && c.log[i].Taken? && c.log[j].Taken? ==>
              c.log[i].taken != c.log[j].taken
  {
    forall i, j | 0 <= i < j < |c.log| && c.log[i].Taken? && c.log[j].Taken?
      ensures c.log[i].taken != c.log[j].taken
    {
      assert Before(c.log[i].taken, c.log[j].taken);
    }
  }

  /** In every run, what happens besides messages, timers and ops are faults of the timeline, each at its time and at
      most once; and when the run is over, every fault due before its horizon has happened. */
  lemma FaultsHappen(cfg: Config, faults: Timeline, n: nat)
    requires cfg.nodeCount > 0
    ensures var log := Run(cfg, Init(cfg, faults), n).0.core.log;
            && (forall i :: 0 <= i < |log| && log[i].Taken? && log[i].taken.kind.Fault? ==>
                  IsInjection(faults, log[i].taken))
            && (forall i, j :: 0 <= i < j < |log| && log[i].Taken? && log[j].Taken? ==> log[i].taken != log[j].taken)
    ensures !Run(cfg, Init(cfg, faults), n).1 ==>
              forall k: nat :: k < |faults| && faults[k].0 < cfg.horizon ==>
                Happened(Run(cfg, Init(cfg, faults), n).0.core.log, Injection(faults, k))
  {
    var c := BootInjected(cfg, faults);
    KeepsInjected(cfg, faults);
    RunKeeps(cfg, faults, n, c => Injected(cfg, faults, c) && ClockOk(cfg, c));
    var d := Run(cfg, Init(cfg, faults), n).0.core;
    TakenOnce(cfg, d);
    if !Run(cfg, Init(cfg, faults), n).1 {
      EndedQueue(cfg, faults, n);
    }
  }

  // ----- Messages -----

  /** The `d`-th copy of a message. */
  function CopyOf(e: Scheduled, d: nat): Scheduled {
    e.(seqNo := e.seqNo + d)
  }

  /** A copy is still to come, or came, or is not due before the run ends. */
  ghost predicate Accounted(cfg: Config, c: Core, e: Scheduled) {
    e in c.queue || Happened(c.log, e) || e.at >= cfg.horizon
  }

  ghost predicate OnTheirWay(cfg: Config, c: Core) {
    forall i: nat, d: nat {:trigger CopyOf(c.log[i].sent, d)} ::
      i < |c.log| && c.log[i].Sent? && d < c.log[i].copies ==> Accounted(cfg, c, CopyOf(c.log[i].sent, d))
  }

  lemma AccountedStill(cfg: Config, c: Core, c': Core, e: Scheduled)
    requires Accounted(cfg, c, e)
    requires forall x :: x in c.queue && x.at < cfg.horizon ==> x in c'.queue || Happened(c'.log, x)
    requires c.log <= c'.log
    ensures Accounted(cfg, c', e)
  {
    if i :| 0 <= i < |c.log| && c.log[i].Taken? && c.log[i].taken == e {
      assert c'.log[i] == c.log[i];
    }
  }

  lemma StillOnTheirWay(cfg: Config, c: Core, c': Core)
    requires OnTheirWay(cfg, c) && c.log <= c'.log && |c'.log| <= |c.log| + 1
    requires forall x :: x in c.queue && x.at < cfg.horizon ==> x in c'.queue || Happened(c'.log, x)
    requires |c'.log| > |c.log| && c'.log[|c.log|].Sent? ==>
               forall d: nat :: d < c'.log[|c.log|].copies ==> CopyOf(c'.log[|c.log|].sent, d) in c'.queue
    ensures OnTheirWay(cfg, c')
  {
    forall i: nat, d: nat {:trigger CopyOf(c'.log[i].sent, d)}
      | i < |c'.log| && c'.log[i].Sent? && d < c'.log[i].copies
      ensures Accounted(cfg, c', CopyOf(c'.log[i].sent, d))
    {
      if i < |c.log| {
        assert c'.log[i] == c.log[i];
        AccountedStill(cfg, c, c', CopyOf(c.log[i].sent, d));
      }
    }
  }

  lemma TransmitOnItsWay(cfg: Config, c: Core, from: nat, to: nat, msg: Msg, delay: nat, dup: bool)
    requires OnTheirWay(cfg, c)
    ensures OnTheirWay(cfg, Transmit(cfg, c, from, to, msg, delay, dup))
  {
    var c', at, copies := TransmitShape(cfg, c, from, to, msg, delay, dup);
    var more := Copies(at, c.seqNo, Deliver(from, to, msg), copies);
    forall d: nat | d < copies ensures CopyOf(c'.log[|c.log|].sent, d) in c'.queue {
      assert c'.queue[|c.queue| + d] == more[d];
    }
    StillOnTheirWay(cfg, c, c');
  }

  lemma TakeOnTheirWay(cfg: Config, c: Core)
    requires OnTheirWay(cfg, c) && c.queue != [] && Ordered(c.queue)
    ensures OnTheirWay(cfg, TakeHead(cfg, c))
  {
    var head, c' := TakeRest(cfg, c);
    TakeShape(cfg, c, head, c');
    if head.at < cfg.horizon {
      HappenedStill(c.log, LogEvent.Taken(head, Fires(cfg, c, head.kind)), head);
    }
    StillOnTheirWay(cfg, c, c');
  }

  lemma MoveOnTheirWay(cfg: Config, c: Core, m: Move)
    requires OnTheirWay(cfg, c) && Ordered(c.queue) && Enabled(cfg, c, m)
    ensures OnTheirWay(cfg, Apply(cfg, c, m))
  {
    match m
    case Transmitting(from, to, msg, delay, dup) => TransmitOnItsWay(cfg, c, from, to, msg, delay, dup);
    case Taking => TakeOnTheirWay(cfg, c);
    case _ => StillOnTheirWay(cfg, c, Apply(cfg, c, m));
  }

  lemma KeepsWays(cfg: Config)
    ensures KeptByMoves(cfg, c => OnTheirWay(cfg, c) && ClockOk(cfg, c))
  {
    forall c, m {:trigger Apply(cfg, c, m)} | OnTheirWay(cfg, c) && ClockOk(cfg, c) && Enabled(cfg, c, m)
      ensures OnTheirWay(cfg, Apply(cfg, c, m)) && ClockOk(cfg, Apply(cfg, c, m))
    {
      MoveOnTheirWay(cfg, c, m);
      MoveOk(cfg, c, m);
    }
  }

  lemma CopyArrives(cfg: Config, c: Core, i: nat, d: nat)
    requires OnTheirWay(cfg, c) && (forall e :: e in c.queue ==> e.at >= cfg.horizon)
    requires i < |c.log| && c.log[i].Sent? && c.log[i].sent.at < cfg.horizon && d < c.log[i].copies
    ensures Happened(c.log, CopyOf(c.log[i].sent, d))
  {
    assert Accounted(cfg, c, CopyOf(c.log[i].sent, d));
  }

  /** Once a run is over, every copy of every message put on the wire that was due before the horizon has come out at
      the other end (where it reached the receiver if that was up: `LogIsSound`). */
  lemma MessagesArrive(cfg: Config, faults: Timeline, n: nat, i: nat, d: nat)
    requires cfg.nodeCount > 0 && !Run(cfg, Init(cfg, faults), n).1
    requires var log := Run(cfg, Init(cfg, faults), n).0.core.log;
             i < |log| && log[i].Sent? && log[i].sent.at < cfg.horizon && d < log[i].copies
    ensures var log := Run(cfg, Init(cfg, faults), n).0.core.log;
            Happened(log, CopyOf(log[i].sent, d))
  {
    var c := BootInjected(cfg, faults);
    FaultsOnlyQueue(NewCore(), faults);
    KeepsWays(cfg);
    RunKeeps(cfg, faults, n, c => OnTheirWay(cfg, c) && ClockOk(cfg, c));
    EndedQueue(cfg, faults, n);
    CopyArrives(cfg, Run(cfg, Init(cfg, faults), n).0.core, i, d);
  }
}
