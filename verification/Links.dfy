/** The network: where every delivered message came from, per-link order, and what crashes and
    partitions cut off. All statements are about the log of a whole run. */
module Links {
  import opened Ops
  import opened Engine
  import opened Runs
  import opened Clock

  // ----- Network state, read off the log -----

  /** Whether the last crash or restart of `n` in the log was a crash. */
  predicate CrashedBy(log: seq<LogEvent>, n: nat) {
    if log == [] then false
    else
      var last, rest := log[|log| - 1], log[..|log| - 1];
      if last.Taken? && last.taken.kind == Fault(Crash(n)) then true
      else if last.Taken? && last.taken.kind == Fault(Restart(n)) then false
      else CrashedBy(rest, n)
  }

  /** The partition groups in force. */
  function GroupsBy(log: seq<LogEvent>): seq<seq<nat>> {
    if log == [] then []
    else
      var last, rest := log[|log| - 1], log[..|log| - 1];
      if last.Taken? && last.taken.kind.Fault? && last.taken.kind.action.Partition?
      then [last.taken.kind.action.left, last.taken.kind.action.right]
      else if last.Taken? && last.taken.kind == Fault(HealAll) then []
      else GroupsBy(rest)
  }

  /** Two nodes can talk: both up, and no partition in force or both on one side of it. */
  ghost predicate ConnectedBy(log: seq<LogEvent>, a: nat, b: nat) {
    && !CrashedBy(log, a)
    && !CrashedBy(log, b)
    && (GroupsBy(log) == [] || exists g :: g in GroupsBy(log) && a in g && b in g)
  }

  /** The scheduler's own record of crashes and partitions agrees with the log. */
  ghost predicate NetworkOk(c: Core) {
    && (forall n :: n in c.crashed <==> CrashedBy(c.log, n))
    && c.partitions == GroupsBy(c.log)
  }

  /** Which entries of the log are possible at all: a message goes on the wire only between
      connected nodes, and a node that is down is called neither for a message nor for a timer. */
  ghost predicate Admissible(log: seq<LogEvent>, i: nat)
    requires i < |log|
  {
    match log[i]
    case Sent(s, _) => s.kind.Deliver? && ConnectedBy(log[..i], s.kind.from, s.kind.to)
    case Taken(e, fired) =>
      && (e.kind.Deliver? ==> (fired <==> !CrashedBy(log[..i], e.kind.to)))
      && (e.kind.Fire? && fired ==> !CrashedBy(log[..i], e.kind.node))
      && (e.kind.Issue? || e.kind.Fault? ==> fired)
    case _ => true
  }

  ghost predicate SoundLog(c: Core) {
    NetworkOk(c) && forall i :: 0 <= i < |c.log| ==> Admissible(c.log, i)
  }

  lemma NoteSound(c: Core, c': Core, note: LogEvent)
    requires SoundLog(c) && c'.log == c.log + [note]
    requires NetworkOk(c') && Admissible(c'.log, |c.log|)
    ensures SoundLog(c')
  {
    forall i | 0 <= i < |c'.log| ensures Admissible(c'.log, i) {
      if i < |c.log| {
        assert Admissible(c.log, i);
        assert c'.log[..i] == c.log[..i];
      }
    }
  }

  lemma QuietNote(c: Core, c': Core, note: LogEvent)
    requires NetworkOk(c) && c'.log == c.log + [note]
    requires note.Taken? ==> !note.taken.kind.Fault?
    requires c'.crashed == c.crashed && c'.partitions == c.partitions
    ensures NetworkOk(c')
  {
    assert c'.log[..|c'.log| - 1] == c.log;
  }

  lemma FaultNote(c: Core, d: Core, c': Core, note: LogEvent)
    requires NetworkOk(c) && c'.log == c.log + [note] && note.Taken? && note.taken.kind.Fault?
    requires d.crashed == c.crashed && d.partitions == c.partitions && c' == Inject(d, note.taken.kind.action)
    ensures NetworkOk(c')
  {
    assert c'.log[..|c'.log| - 1] == c.log;
  }

  lemma TakeNetwork(cfg: Config, c: Core)
    requires NetworkOk(c) && c.queue != []
    ensures NetworkOk(TakeHead(cfg, c))
  {
    var head, c' := c.queue[MinIndex(c.queue)], TakeHead(cfg, c);
    TakeShape(cfg, c, head, c');
    if head.at < cfg.horizon {
      var note := LogEvent.Taken(head, Fires(cfg, c, head.kind));
      if head.kind.Fault? {
        var d := c.(queue := Without(c.queue, MinIndex(c.queue)), now := head.at, log := c.log + [note]);
        assert c' == Inject(d, head.kind.action);
        FaultNote(c, d, c', note);
      } else {
        QuietNote(c, c', note);
      }
    }
  }

  lemma TakeSound(cfg: Config, c: Core)
    requires SoundLog(c) && c.queue != []
    ensures SoundLog(TakeHead(cfg, c))
  {
    var head, c' := c.queue[MinIndex(c.queue)], TakeHead(cfg, c);
    TakeShape(cfg, c, head, c');
    TakeNetwork(cfg, c);
    if head.at < cfg.horizon {
      assert c'.log[..|c.log|] == c.log;
      NoteSound(c, c', LogEvent.Taken(head, Fires(cfg, c, head.kind)));
    }
  }

  lemma MoveSound(cfg: Config, c: Core, m: Move)
    requires SoundLog(c) && Enabled(cfg, c, m)
    ensures SoundLog(Apply(cfg, c, m))
  {
    var c' := Apply(cfg, c, m);
    match m
    case Transmitting(from, to, msg, _, _) =>
      var note := c'.log[|c.log|];
      QuietNote(c, c', note);
      assert c'.log[..|c.log|] == c.log;
      NoteSound(c, c', note);
    case Arming(_, _, _) =>
      QuietNote(c, c', c'.log[|c.log|]);
      NoteSound(c, c', c'.log[|c.log|]);
    case Disarming(_, _) =>
      QuietNote(c, c', c'.log[|c.log|]);
      NoteSound(c, c', c'.log[|c.log|]);
    case Taking => TakeSound(cfg, c);
    case _ => assert c'.log == c.log && c'.crashed == c.crashed && c'.partitions == c.partitions;
  }

  lemma KeepsLog(cfg: Config)
    ensures KeptByMoves(cfg, c => SoundLog(c))
  {
    forall c, m {:trigger Apply(cfg, c, m)} | SoundLog(c) && Enabled(cfg, c, m) ensures SoundLog(Apply(cfg, c, m)) {
      MoveSound(cfg, c, m);
    }
  }

  /** In every run the log is sound. */
  lemma LogIsSound(cfg: Config, faults: seq<(nat, FaultAction)>, n: nat)
    requires cfg.nodeCount > 0
    ensures SoundLog(Run(cfg, Init(cfg, faults), n).0.core)
  {
    FaultsOnlyQueue(NewCore(), faults);
    KeepsLog(cfg);
    RunKeeps(cfg, faults, n, c => SoundLog(c));
  }

  // ----- Crash silence -----

  lemma {:induction false} DownUntilRestart(log: seq<LogEvent>, a: nat, n: nat)
    requires a < |log| && log[a].Taken? && log[a].taken.kind == Fault(Crash(n))
    requires forall i :: a < i < |log| && log[i].Taken? ==> log[i].taken.kind != Fault(Restart(n))
    ensures CrashedBy(log, n)
    decreases |log|
  {
    if a == |log| - 1 {
    } else {
      DownUntilRestart(log[..|log| - 1], a, n);
    }
  }

  /** From a crash of `n` until its restart, `n` gets no message and no timer callback, and nothing
      goes on the wire from it or to it. */
  lemma CrashSilences(cfg: Config, faults: seq<(nat, FaultAction)>, steps: nat, a: nat, b: nat, n: nat)
    requires cfg.nodeCount > 0
    requires var log := Run(cfg, Init(cfg, faults), steps).0.core.log;
             && a < b < |log|
             && log[a].Taken? && log[a].taken.kind == Fault(Crash(n))
             && forall i :: a < i < b && log[i].Taken? ==> log[i].taken.kind != Fault(Restart(n))
    ensures var x := Run(cfg, Init(cfg, faults), steps).0.core.log[b];
            && !(x.Taken? && x.fired && x.taken.kind.Deliver? && x.taken.kind.to == n)
            && !(x.Taken? && x.fired && x.taken.kind.Fire? && x.taken.kind.node == n)
            && !(x.Sent? && x.sent.kind.Deliver? && (x.sent.kind.from == n || x.sent.kind.to == n))
  {
    LogIsSound(cfg, faults, steps);
    var log := Run(cfg, Init(cfg, faults), steps).0.core.log;
    assert Admissible(log, b);
    DownUntilRestart(log[..b], a, n);
  }

  // ----- Provenance and per-link order -----

  /** Event `e` is a copy of the message put on the wire at log position `i`. */
  predicate CarriedBy(log: seq<LogEvent>, i: nat, e: Scheduled) {
    && i < |log| && log[i].Sent?
    && e.kind == log[i].sent.kind
    && e.at == log[i].sent.at
    && log[i].sent.seqNo <= e.seqNo < log[i].sent.seqNo + log[i].copies
  }

  ghost predicate SendsApart(c: Core) {
    && (forall i :: 0 <= i < |c.log| && c.log[i].Sent? ==>
          && 1 <= c.log[i].copies <= 2
          && c.log[i].sent.kind.Deliver?
          && c.log[i].sent.seqNo + c.log[i].copies <= c.seqNo)
    && (forall i, j :: 0 <= i < j < |c.log| && c.log[i].Sent? && c.log[j].Sent? ==>
          c.log[i].sent.seqNo + c.log[i].copies <= c.log[j].sent.seqNo)
  }

  /** Everything in flight and everything taken was sent before, and distinct sends use distinct
      sequence numbers. */
  ghost predicate WireOk(c: Core) {
    && (forall e :: e in c.queue && e.kind.Deliver? ==> exists i: nat :: CarriedBy(c.log, i, e))
    && (forall j :: 0 <= j < |c.log| && c.log[j].Taken? && c.log[j].taken.kind.Deliver? ==>
          exists i: nat :: i < j && CarriedBy(c.log, i, c.log[j].taken))
    && SendsApart(c)
  }

  predicate SameLink(log: seq<LogEvent>, i: nat, j: nat)
    requires i < |log| && j < |log|
  {
    && log[i].Sent? && log[i].sent.kind.Deliver?
    && log[j].Sent? && log[j].sent.kind.Deliver?
    && log[i].sent.kind.from == log[j].sent.kind.from
    && log[i].sent.kind.to == log[j].sent.kind.to
  }

  /** On an ordered network a later send on a link is never scheduled before an earlier one. */
  ghost predicate FloorsOk(cfg: Config, c: Core) {
    cfg.model.ordered ==>
      && (forall i :: 0 <= i < |c.log| && c.log[i].Sent? && c.log[i].sent.kind.Deliver? ==>
            var link := (c.log[i].sent.kind.from, c.log[i].sent.kind.to);
            link in c.lastLink && c.log[i].sent.at <= c.lastLink[link])
      && (forall i, j :: 0 <= i < j < |c.log| && SameLink(c.log, i, j) ==> c.log[i].sent.at <= c.log[j].sent.at)
  }

  lemma CarriedStill(log: seq<LogEvent>, note: LogEvent, i: nat, e: Scheduled)
    requires CarriedBy(log, i, e)
    ensures CarriedBy(log + [note], i, e)
  {
  }

  /** A log entry that is not a send changes nothing about the wire, as long as it only takes what
      was queued. */
  lemma WireNote(c: Core, c': Core, note: LogEvent)
    requires WireOk(c) && c.seqNo <= c'.seqNo
    requires c'.log == c.log + [note] && !note.Sent?
    requires note.Taken? ==> note.taken in c.queue
    requires forall e :: e in c'.queue && e.kind.Deliver? ==> e in c.queue
    ensures WireOk(c')
  {
    forall e | e in c'.queue && e.kind.Deliver? ensures exists i: nat :: CarriedBy(c'.log, i, e) {
      var i: nat :| CarriedBy(c.log, i, e);
      CarriedStill(c.log, note, i, e);
    }
    forall j | 0 <= j < |c'.log| && c'.log[j].Taken? && c'.log[j].taken.kind.Deliver?
      ensures exists i: nat :: i < j && CarriedBy(c'.log, i, c'.log[j].taken)
    {
      var e := c'.log[j].taken;
      if j < |c.log| {
        var i: nat :| i < j && CarriedBy(c.log, i, e);
        CarriedStill(c.log, note, i, e);
      } else {
        var i: nat :| CarriedBy(c.log, i, e);
        CarriedStill(c.log, note, i, e);
      }
    }
  }

  lemma WireSent(c: Core, c': Core, note: LogEvent)
    requires WireOk(c)
    requires note.Sent? && note.sent.kind.Deliver? && note.sent.seqNo == c.seqNo
    requires 1 <= note.copies <= 2 && c'.seqNo == c.seqNo + note.copies
    requires c'.log == c.log + [note]
    requires forall e :: e in c'.queue && e !in c.queue ==>
               e.kind == note.sent.kind && e.at == note.sent.at && c.seqNo <= e.seqNo < c'.seqNo
    ensures WireOk(c')
  {
    forall e | e in c'.queue && e.kind.Deliver? ensures exists i: nat :: CarriedBy(c'.log, i, e) {
      if e in c.queue {
        var i: nat :| CarriedBy(c.log, i, e);
        CarriedStill(c.log, note, i, e);
      } else {
        assert CarriedBy(c'.log, |c.log|, e);
      }
    }
    forall j | 0 <= j < |c'.log| && c'.log[j].Taken? && c'.log[j].taken.kind.Deliver?
      ensures exists i: nat :: i < j && CarriedBy(c'.log, i, c'.log[j].taken)
    {
      var i: nat :| i < j && CarriedBy(c.log, i, c.log[j].taken);
      CarriedStill(c.log, note, i, c.log[j].taken);
    }
  }

  lemma FloorSent(cfg: Config, c: Core, c': Core, note: LogEvent)
    requires FloorsOk(cfg, c) && cfg.model.ordered
    requires note.Sent? && note.sent.kind.Deliver? && c'.log == c.log + [note]
    requires var link := (note.sent.kind.from, note.sent.kind.to);
             && c'.lastLink == c.lastLink[link := note.sent.at]
             && (link in c.lastLink ==> c.lastLink[link] <= note.sent.at)
    ensures FloorsOk(cfg, c')
  {
    forall i, j | 0 <= i < j < |c'.log| && SameLink(c'.log, i, j) ensures c'.log[i].sent.at <= c'.log[j].sent.at {
      if j < |c.log| {
        assert SameLink(c.log, i, j);
      }
    }
  }

  lemma FloorNote(cfg: Config, c: Core, c': Core, note: LogEvent)
    requires FloorsOk(cfg, c) && !note.Sent? && c'.log == c.log + [note] && c'.lastLink == c.lastLink
    ensures FloorsOk(cfg, c')
  {
    if cfg.model.ordered {
      forall i, j | 0 <= i < j < |c'.log| && SameLink(c'.log, i, j) ensures c'.log[i].sent.at <= c'.log[j].sent.at {
        assert SameLink(c.log, i, j);
      }
    }
  }

  ghost predicate LinksOk(cfg: Config, c: Core) {
    WireOk(c) && FloorsOk(cfg, c)
  }

  lemma TransmitLinks(cfg: Config, c: Core, from: nat, to: nat, msg: Msg, delay: nat, dup: bool)
    requires LinksOk(cfg, c)
    ensures LinksOk(cfg, Transmit(cfg, c, from, to, msg, delay, dup))
  {
    var c' := Transmit(cfg, c, from, to, msg, delay, dup);
    var note := c'.log[|c.log|];
    assert c'.log == c.log + [note];
    WireSent(c, c', note);
    if cfg.model.ordered {
      FloorSent(cfg, c, c', note);
    }
  }

  lemma TakeLinks(cfg: Config, c: Core)
    requires LinksOk(cfg, c) && c.queue != [] && Ordered(c.queue)
    ensures LinksOk(cfg, TakeHead(cfg, c))
  {
    var head, c' := TakeRest(cfg, c);
    TakeShape(cfg, c, head, c');
    if head.at < cfg.horizon {
      var note := LogEvent.Taken(head, Fires(cfg, c, head.kind));
      WireNote(c, c', note);
      FloorNote(cfg, c, c', note);
    }
  }

  lemma MoveLinks(cfg: Config, c: Core, m: Move)
    requires LinksOk(cfg, c) && Ordered(c.queue) && Enabled(cfg, c, m)
    ensures LinksOk(cfg, Apply(cfg, c, m))
  {
    var c' := Apply(cfg, c, m);
    match m
    case Transmitting(from, to, msg, delay, dup) => TransmitLinks(cfg, c, from, to, msg, delay, dup);
    case Arming(_, _, _) =>
      WireNote(c, c', c'.log[|c.log|]);
      FloorNote(cfg, c, c', c'.log[|c.log|]);
    case Disarming(_, _) =>
      WireNote(c, c', c'.log[|c.log|]);
      FloorNote(cfg, c, c', c'.log[|c.log|]);
    case Taking => TakeLinks(cfg, c);
    case Issuing(process, index) =>
      assert forall e :: e in c'.queue && e.kind.Deliver? ==> e in c.queue;
    case _ => assert c'.log == c.log && c'.queue == c.queue && c'.lastLink == c.lastLink && c'.seqNo == c.seqNo;
  }

  lemma {:induction false} FaultsAreNoMessages(c: Core, faults: seq<(nat, FaultAction)>)
    requires forall e :: e in c.queue ==> e.kind.Fault?
    ensures forall e :: e in ScheduleFaults(c, faults).queue ==> e.kind.Fault?
    decreases |faults|
  {
    if faults == [] {
    } else {
      FaultsAreNoMessages(Enqueue(c, faults[0].0, Fault(faults[0].1)), faults[1..]);
    }
  }

  ghost predicate ClockAndLinks(cfg: Config, c: Core) {
    ClockOk(cfg, c) && LinksOk(cfg, c)
  }

  lemma NoLinksYet(cfg: Config, faults: seq<(nat, FaultAction)>)
    ensures ClockAndLinks(cfg, ScheduleFaults(NewCore(), faults))
  {
    ScheduledFaultsOk(cfg, NewCore(), faults);
    FaultsOnlyQueue(NewCore(), faults);
    FaultsAreNoMessages(NewCore(), faults);
  }

  lemma KeepsLinks(cfg: Config)
    ensures KeptByMoves(cfg, c => ClockAndLinks(cfg, c))
  {
    forall c, m {:trigger Apply(cfg, c, m)} | ClockAndLinks(cfg, c) && Enabled(cfg, c, m)
      ensures ClockAndLinks(cfg, Apply(cfg, c, m))
    {
      MoveOk(cfg, c, m);
      MoveLinks(cfg, c, m);
    }
  }

  lemma LinksHold(cfg: Config, faults: seq<(nat, FaultAction)>, n: nat)
    requires cfg.nodeCount > 0
    ensures ClockOk(cfg, Run(cfg, Init(cfg, faults), n).0.core)
    ensures LinksOk(cfg, Run(cfg, Init(cfg, faults), n).0.core)
  {
    NoLinksYet(cfg, faults);
    KeepsLinks(cfg);
    RunKeeps(cfg, faults, n, c => ClockAndLinks(cfg, c));
  }

  /** Every message taken off the queue was put on the wire exactly once, earlier, between nodes
      that were connected at that moment, and arrives with that payload at the instant then fixed. */
  lemma DeliveryProvenance(cfg: Config, faults: seq<(nat, FaultAction)>, n: nat, j: nat) returns (i: nat)
    requires cfg.nodeCount > 0
    requires var log := Run(cfg, Init(cfg, faults), n).0.core.log;
             j < |log| && log[j].Taken? && log[j].taken.kind.Deliver?
    ensures var log := Run(cfg, Init(cfg, faults), n).0.core.log;
            var e := log[j].taken;
            && i < j
            && CarriedBy(log, i, e)
            && ConnectedBy(log[..i], e.kind.from, e.kind.to)
            && forall k: nat :: CarriedBy(log, k, e) ==> k == i
  {
    LinksHold(cfg, faults, n);
    LogIsSound(cfg, faults, n);
    var c := Run(cfg, Init(cfg, faults), n).0.core;
    i :| i < j && CarriedBy(c.log, i, c.log[j].taken);
    assert Admissible(c.log, i);
    forall k: nat | CarriedBy(c.log, k, c.log[j].taken) ensures k == i {
      assert k < i || k == i || i < k;
    }
  }

  /** Per-link FIFO: on an ordered network, two messages taken one after the other on a link were
      sent in that order (they may be copies of one send). */
  lemma FifoPerLink(cfg: Config, faults: seq<(nat, FaultAction)>, n: nat, j1: nat, j2: nat, i1: nat, i2: nat)
    requires cfg.nodeCount > 0 && cfg.model.ordered
    requires var log := Run(cfg, Init(cfg, faults), n).0.core.log;
             && j1 < j2 < |log|
             && log[j1].Taken? && CarriedBy(log, i1, log[j1].taken)
             && log[j2].Taken? && CarriedBy(log, i2, log[j2].taken)
             && log[j1].taken.kind.Deliver? && log[j2].taken.kind.Deliver?
             && log[j1].taken.kind.from == log[j2].taken.kind.from
             && log[j1].taken.kind.to == log[j2].taken.kind.to
    ensures i1 <= i2
  {
    LinksHold(cfg, faults, n);
    var c := Run(cfg, Init(cfg, faults), n).0.core;
    assert Before(c.log[j1].taken, c.log[j2].taken);
    assert i2 < i1 ==> SameLink(c.log, i2, i1);
  }

  /** No send is taken off the queue more than twice, whatever the network model. */
  lemma AtMostTwice(cfg: Config, faults: seq<(nat, FaultAction)>, n: nat, i: nat, j1: nat, j2: nat, j3: nat)
    requires cfg.nodeCount > 0
    requires var log := Run(cfg, Init(cfg, faults), n).0.core.log;
             && j1 < j2 < j3 < |log|
             && log[j1].Taken? && CarriedBy(log, i, log[j1].taken)
             && log[j2].Taken? && CarriedBy(log, i, log[j2].taken)
             && log[j3].Taken?
    ensures !CarriedBy(Run(cfg, Init(cfg, faults), n).0.core.log, i,
            Run(cfg, Init(cfg, faults), n).0.core.log[j3].taken)
  {
    LinksHold(cfg, faults, n);
    var c := Run(cfg, Init(cfg, faults), n).0.core;
    assert Before(c.log[j1].taken, c.log[j2].taken) && Before(c.log[j2].taken, c.log[j3].taken);
    assert 1 <= c.log[i].copies <= 2;
  }
}
