/** What a send comes to, read off the log: who hears whom, what is lost, when it arrives and how many copies
    there are (`connected` and `schedule_delivery`, crates/propsim-sim/src/scheduler.rs, and the effects of a
    callback, ctx.rs). */
module Sending {
  import opened Ops
  import opened Engine
  import opened Runs
  import opened Links

  // ----- The floor of an ordered link -----

  /** The arrival of the last message put on the link, or zero. */
  function LastArrival(log: seq<LogEvent>, from: nat, to: nat): nat {
    if log == [] then 0
    else
      var last := log[|log| - 1];
      if last.Sent? && last.sent.kind.Deliver? && last.sent.kind.from == from && last.sent.kind.to == to
      then last.sent.at
      else LastArrival(log[..|log| - 1], from, to)
  }

  function Floor(c: Core, from: nat, to: nat): nat {
    if (from, to) in c.lastLink then c.lastLink[(from, to)] else 0
  }

  /** The scheduler's record of the network is what the log says. */
  ghost predicate LogKnows(cfg: Config, c: Core) {
    && NetworkOk(c)
    && (cfg.model.ordered ==> forall from, to :: Floor(c, from, to) == LastArrival(c.log, from, to))
  }

  lemma ArrivalNote(cfg: Config, c: Core, c': Core, note: LogEvent)
    requires LogKnows(cfg, c) && c'.log == c.log + [note] && NetworkOk(c')
    requires if note.Sent? && cfg.model.ordered
             then note.sent.kind.Deliver?
                  && c'.lastLink == c.lastLink[(note.sent.kind.from, note.sent.kind.to) := note.sent.at]
             else c'.lastLink == c.lastLink
    ensures LogKnows(cfg, c')
  {
    assert c'.log[..|c'.log| - 1] == c.log;
  }

  lemma TakeKnows(cfg: Config, c: Core)
    requires LogKnows(cfg, c) && c.queue != []
    ensures LogKnows(cfg, TakeHead(cfg, c))
  {
    var head, c' := c.queue[MinIndex(c.queue)], TakeHead(cfg, c);
    TakeShape(cfg, c, head, c');
    TakeNetwork(cfg, c);
    if head.at < cfg.horizon {
      ArrivalNote(cfg, c, c', LogEvent.Taken(head, Fires(cfg, c, head.kind)));
    }
  }

  lemma MoveKnows(cfg: Config, c: Core, m: Move)
    requires LogKnows(cfg, c) && Enabled(cfg, c, m)
    ensures LogKnows(cfg, Apply(cfg, c, m))
  {
    var c' := Apply(cfg, c, m);
    match m
    case Transmitting(_, _, _, _, _) =>
      QuietNote(c, c', c'.log[|c.log|]);
      ArrivalNote(cfg, c, c', c'.log[|c.log|]);
    case Arming(_, _, _) =>
      QuietNote(c, c', c'.log[|c.log|]);
      ArrivalNote(cfg, c, c', c'.log[|c.log|]);
    case Disarming(_, _) =>
      QuietNote(c, c', c'.log[|c.log|]);
      ArrivalNote(cfg, c, c', c'.log[|c.log|]);
    case Taking => TakeKnows(cfg, c);
    case _ =>
      assert c'.log == c.log && c'.crashed == c.crashed && c'.partitions == c.partitions && c'.lastLink == c.lastLink;
  }

  lemma KeepsKnowing(cfg: Config)
    ensures KeptByMoves(cfg, c => LogKnows(cfg, c))
  {
    forall c, m {:trigger Apply(cfg, c, m)} | LogKnows(cfg, c) && Enabled(cfg, c, m)
      ensures LogKnows(cfg, Apply(cfg, c, m))
    {
      MoveKnows(cfg, c, m);
    }
  }

  /** In every run, two nodes can exchange messages if and only if the log says so: neither is down, and no
      partition is in force or some side of it holds both. */
  lemma WhoHearsWhom(cfg: Config, faults: seq<(nat, FaultAction)>, n: nat, a: nat, b: nat)
    requires cfg.nodeCount > 0
    ensures var c := Run(cfg, Init(cfg, faults), n).0.core;
            LogKnows(cfg, c) && (Connected(c, a, b) <==> ConnectedBy(c.log, a, b))
  {
    KeepsKnowing(cfg);
    FaultsOnlyQueue(NewCore(), faults);
    RunKeeps(cfg, faults, n, c => LogKnows(cfg, c));
  }

  // ----- One send -----

  /** How a roll at position `r` of the tape comes out, and how many outputs it uses. */
  predicate Hits(cfg: Config, p: Prob, r: nat) {
    p.Always? || (p.Coin? && p.hit(cfg.tape(r)))
  }

  function Cost(p: Prob): nat {
    if p.Coin? then 1 else 0
  }

  /** What becomes of a message that `from` sends to `to` in state `c`, given the log and the tape: nothing at
      all, or its arrival and the number of copies. */
  datatype Fate = Unsent(draws: nat) | OnTheWire(draws: nat, at: nat, copies: nat)

  ghost predicate Befalls(cfg: Config, c: Core, from: nat, to: nat, fate: Fate) {
    var lossDraws := Cost(cfg.model.loss);
    var spread := cfg.model.delayHi - cfg.model.delayLo;
    if !ConnectedBy(c.log, from, to) then fate == Unsent(0)
    else if Hits(cfg, cfg.model.loss, c.rng) then fate == Unsent(lossDraws)
    else
      var wait := cfg.model.delayLo + (if spread > 0 then cfg.tape(c.rng + lossDraws) % spread else 0);
      var roll := c.rng + lossDraws + (if spread > 0 then 1 else 0);
      var due := c.now + wait * 1_000_000;
      var floor := if cfg.model.ordered then LastArrival(c.log, from, to) else 0;
      && fate.OnTheWire?
      && fate.at == (if due < floor then floor else due)
      && fate.copies == (if Hits(cfg, cfg.model.duplicate, roll) then 2 else 1)
      && c.rng + fate.draws == roll + Cost(cfg.model.duplicate)
  }

  /** The copies of one message, as queued. */
  function Copies(at: nat, seqNo: nat, kind: EventKind, copies: nat): seq<Scheduled> {
    seq(copies, i requires 0 <= i => Scheduled(at, seqNo + i, kind))
  }

  /** What a send leaves alone whatever becomes of it. */
  ghost predicate Elsewhere(c: Core, c': Core) {
    && c'.now == c.now && c'.timerGen == c.timerGen && c'.partitions == c.partitions && c'.crashed == c.crashed
    && c'.history == c.history && c'.events == c.events && c'.pending == c.pending
    && c'.nextToken == c.nextToken && c'.tokens == c.tokens
  }

  lemma RollHits(cfg: Config, c: Core, r: nat, p: Prob)
    ensures Roll(cfg, c.(rng := r), p) == (c.(rng := r + Cost(p)), Hits(cfg, p, r))
  {
  }

  /** The draws of a send that is not lost. */
  lemma DrawnFor(cfg: Config, c: Core, from: nat, to: nat, msg: Msg) returns (c3: Core, wait: nat, dup: bool)
    requires Connected(c, from, to) && !Hits(cfg, cfg.model.loss, c.rng)
    ensures ScheduleDelivery(cfg, c, from, to, msg) == Transmit(cfg, c3, from, to, msg, wait * 1_000_000, dup)
    ensures c3 == c.(rng := c3.rng)
    ensures var spread := cfg.model.delayHi - cfg.model.delayLo;
            var r := c.rng + Cost(cfg.model.loss);
            var r' := if spread > 0 then r + 1 else r;
            && wait == cfg.model.delayLo + (if spread > 0 then cfg.tape(r) % spread else 0)
            && (dup <==> Hits(cfg, cfg.model.duplicate, r'))
            && c3.rng == r' + Cost(cfg.model.duplicate)
  {
    RollHits(cfg, c, c.rng, cfg.model.loss);
    var c1 := c.(rng := c.rng + Cost(cfg.model.loss));
    var (c2, delay) := Range(cfg, c1, cfg.model.delayLo, cfg.model.delayHi);
    RollHits(cfg, c, c2.rng, cfg.model.duplicate);
    c3, wait, dup := c.(rng := c2.rng + Cost(cfg.model.duplicate)), delay, Hits(cfg, cfg.model.duplicate, c2.rng);
  }

  lemma TransmitShape(cfg: Config, c: Core, from: nat, to: nat, msg: Msg, delay: nat, dup: bool)
    returns (c': Core, at: nat, copies: nat)
    ensures c' == Transmit(cfg, c, from, to, msg, delay, dup)
    ensures at == if cfg.model.ordered && c.now + delay < Floor(c, from, to) then Floor(c, from, to) else c.now + delay
    ensures copies == if dup then 2 else 1
    ensures c'.log == c.log + [Sent(Scheduled(at, c.seqNo, Deliver(from, to, msg)), copies)]
    ensures c'.queue == c.queue + Copies(at, c.seqNo, Deliver(from, to, msg), copies)
    ensures c'.rng == c.rng && Elsewhere(c, c')
  {
    c' := Transmit(cfg, c, from, to, msg, delay, dup);
    at := if cfg.model.ordered && c.now + delay < Floor(c, from, to) then Floor(c, from, to) else c.now + delay;
    copies := if dup then 2 else 1;
    var event := Scheduled(at, c.seqNo, Deliver(from, to, msg));
    if dup {
      assert Copies(at, c.seqNo, Deliver(from, to, msg), 2) == [event] + [event.(seqNo := c.seqNo + 1)];
      assert c'.queue == c.queue + [event] + [event.(seqNo := c.seqNo + 1)];
    } else {
      assert Copies(at, c.seqNo, Deliver(from, to, msg), 1) == [event];
    }
  }

  /** Performing a send is the fate of its message: one log entry and its copies in the queue exactly if it goes
      on the wire, and nothing but the draws otherwise. */
  lemma SendIsFate(cfg: Config, c: Core, from: nat, to: nat, msg: Msg) returns (c': Core, fate: Fate)
    requires LogKnows(cfg, c)
    ensures c' == Perform(cfg, c, from, Send(to, msg)) && Befalls(cfg, c, from, to, fate)
    ensures c'.rng == c.rng + fate.draws && Elsewhere(c, c')
    ensures fate.OnTheWire? ==>
              && c'.log == c.log + [Sent(Scheduled(fate.at, c.seqNo, Deliver(from, to, msg)), fate.copies)]
              && c'.queue == c.queue + Copies(fate.at, c.seqNo, Deliver(from, to, msg), fate.copies)
    ensures fate.Unsent? ==> c'.log == c.log && c'.queue == c.queue
  {
    RollHits(cfg, c, c.rng, cfg.model.loss);
    if !ConnectedBy(c.log, from, to) {
      c', fate := c, Unsent(0);
    } else if Hits(cfg, cfg.model.loss, c.rng) {
      c', fate := c.(rng := c.rng + Cost(cfg.model.loss)), Unsent(Cost(cfg.model.loss));
    } else {
      var c3, wait, dup := DrawnFor(cfg, c, from, to, msg);
      var at, copies;
      c', at, copies := TransmitShape(cfg, c3, from, to, msg, wait * 1_000_000, dup);
      fate := OnTheWire(c'.rng - c.rng, at, copies);
      assert Floor(c3, from, to) == Floor(c, from, to);
    }
  }

  /** And every send of a run, whenever it is performed, starts from such a state: the start of a callback is
      one, and so is whatever follows from one by performing effects and draws. */
  lemma {:induction false} KnownThroughout<A>(cfg: Config, c: Core, me: nat, cb: Callback<A>)
    requires LogKnows(cfg, c)
    ensures LogKnows(cfg, Exec(cfg, c, me, cb).0)
  {
    KeepsKnowing(cfg);
    MovesIncludeEffects(cfg, d => LogKnows(cfg, d));
    ExecKeeps(cfg, c, me, cb, d => LogKnows(cfg, d));
  }

  // ----- Broadcasts -----

  /** The other nodes, in ascending order. */
  ghost predicate AllOthers(to: seq<nat>, nodeCount: nat, me: nat) {
    && (forall i, j :: 0 <= i < j < |to| ==> to[i] < to[j])
    && forall n: nat :: n in to <==> n < nodeCount && n != me
  }

  lemma {:induction false} PeersAreAllOthers(nodeCount: nat, me: nat)
    ensures AllOthers(Peers(nodeCount, me), nodeCount, me)
  {
    if nodeCount == 0 {
    } else {
      PeersAreAllOthers(nodeCount - 1, me);
      var before := Peers(nodeCount - 1, me);
      assert forall i :: 0 <= i < |before| ==> before[i] in before;
    }
  }

  /** `steps` are the states one goes through by sending `msg` to each of `to` in turn. */
  ghost predicate SentInTurn(cfg: Config, from: nat, to: seq<nat>, msg: Msg, steps: seq<Core>) {
    && |steps| == |to| + 1
    && forall i :: 0 <= i < |to| ==> steps[i + 1] == Perform(cfg, steps[i], from, Send(to[i], msg))
  }

  lemma {:induction false} SendAllInTurn(cfg: Config, c: Core, from: nat, to: seq<nat>, msg: Msg)
    returns (steps: seq<Core>)
    ensures SentInTurn(cfg, from, to, msg, steps)
    ensures steps[0] == c && steps[|to|] == SendAll(cfg, c, from, to, msg)
    decreases |to|
  {
    if to == [] {
      steps := [c];
    } else {
      var c1 := ScheduleDelivery(cfg, c, from, to[0], msg);
      var rest := SendAllInTurn(cfg, c1, from, to[1..], msg);
      steps := [c] + rest;
      forall i | 0 <= i < |to| ensures steps[i + 1] == Perform(cfg, steps[i], from, Send(to[i], msg)) {
        if i > 0 {
          assert rest[i] == Perform(cfg, rest[i - 1], from, Send(to[1..][i - 1], msg));
        }
      }
    }
  }

  /** A broadcast is a send to every other node, in ascending order. */
  lemma BroadcastIsSends(cfg: Config, c: Core, me: nat, msg: Msg) returns (to: seq<nat>, steps: seq<Core>)
    ensures AllOthers(to, cfg.nodeCount, me) && SentInTurn(cfg, me, to, msg, steps)
    ensures steps[0] == c && steps[|to|] == Perform(cfg, c, me, Broadcast(msg))
  {
    PeersAreAllOthers(cfg.nodeCount, me);
    to := Peers(cfg.nodeCount, me);
    steps := SendAllInTurn(cfg, c, me, to, msg);
  }
}
