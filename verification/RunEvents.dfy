/** Deadlines without the evaluator's own bookkeeping: what a run records as events is what its log says
    happened, so the verdict on a property is a statement about the log and the frames
    (crates/propsim-sim/src/properties.rs). */
module RunEvents {
  import opened Ops
  import opened Engine
  import opened Runs
  import opened Properties

  /** The heals and restarts of a log, in order, each at its own time. */
  function HealsAndRestarts(log: seq<LogEvent>): seq<RunEvent> {
    if log == [] then []
    else
      var last, before := log[|log| - 1], HealsAndRestarts(log[..|log| - 1]);
      if last.Taken? && last.taken.kind == Fault(HealAll) then before + [NetworkHealed(last.taken.at)]
      else if last.Taken? && last.taken.kind.Fault? && last.taken.kind.action.Restart?
      then before + [NodeRejoined(last.taken.at, last.taken.kind.action.node)]
      else before
  }

  ghost predicate EventsLogged(c: Core) {
    c.events == HealsAndRestarts(c.log)
  }

  lemma NoteLogged(c: Core, c': Core, note: LogEvent)
    requires EventsLogged(c) && c'.log == c.log + [note] && c'.events == c.events
    requires note.Taken? && note.taken.kind.Fault? ==>
               !note.taken.kind.action.HealAll? && !note.taken.kind.action.Restart?
    ensures EventsLogged(c')
  {
    assert c'.log[..|c'.log| - 1] == c.log;
  }

  lemma FaultLogged(c: Core, d: Core, c': Core, note: LogEvent)
    requires EventsLogged(c) && c'.log == c.log + [note] && note.Taken? && note.taken.kind.Fault?
    requires d.events == c.events && d.now == note.taken.at && c' == Inject(d, note.taken.kind.action)
    ensures EventsLogged(c')
  {
    assert c'.log[..|c'.log| - 1] == c.log;
  }

  lemma TakeLogged(cfg: Config, c: Core)
    requires EventsLogged(c) && c.queue != []
    ensures EventsLogged(TakeHead(cfg, c))
  {
    var head, c' := c.queue[MinIndex(c.queue)], TakeHead(cfg, c);
    TakeShape(cfg, c, head, c');
    if head.at < cfg.horizon {
      var note := LogEvent.Taken(head, Fires(cfg, c, head.kind));
      if head.kind.Fault? {
        var d := c.(queue := Without(c.queue, MinIndex(c.queue)), now := head.at, log := c.log + [note]);
        FaultLogged(c, d, c', note);
      } else {
        NoteLogged(c, c', note);
      }
    }
  }

  lemma MoveLogged(cfg: Config, c: Core, m: Move)
    requires EventsLogged(c) && Enabled(cfg, c, m)
    ensures EventsLogged(Apply(cfg, c, m))
  {
    var c' := Apply(cfg, c, m);
    match m
    case Transmitting(_, _, _, _, _) => NoteLogged(c, c', c'.log[|c.log|]);
    case Arming(_, _, _) => NoteLogged(c, c', c'.log[|c.log|]);
    case Disarming(_, _) => NoteLogged(c, c', c'.log[|c.log|]);
    case Taking => TakeLogged(cfg, c);
    case _ => assert c'.log == c.log && c'.events == c.events;
  }

  /** In every run, the recorded events are the heals and restarts of the log. */
  lemma EventsAreLogged(cfg: Config, faults: seq<(nat, FaultAction)>, n: nat)
    requires cfg.nodeCount > 0
    ensures var c := Run(cfg, Init(cfg, faults), n).0.core;
            c.events == HealsAndRestarts(c.log)
  {
    FaultsOnlyQueue(NewCore(), faults);
    var inv := (c: Core) => EventsLogged(c);
    forall c, m {:trigger Apply(cfg, c, m)} | inv(c) && Enabled(cfg, c, m) ensures inv(Apply(cfg, c, m)) {
      MoveLogged(cfg, c, m);
    }
    RunKeeps(cfg, faults, n, inv);
  }

  // ----- Anchors -----

  /** What a property may count its deadline from. */
  predicate Names(event: Event, kind: EventKind) {
    match event
    case OnNetworkHealed => kind == Fault(HealAll)
    case OnNodeRejoined => kind.Fault? && kind.action.Restart?
    case Custom(_) => false
  }

  predicate NamedAt(log: seq<LogEvent>, event: Event, i: nat) {
    i < |log| && log[i].Taken? && Names(event, log[i].taken.kind)
  }

  ghost predicate SomeNamed(log: seq<LogEvent>, event: Event) {
    exists i: nat :: NamedAt(log, event, i)
  }

  ghost predicate FirstNamedAt(log: seq<LogEvent>, event: Event, i: nat) {
    NamedAt(log, event, i) && forall j: nat :: j < i ==> !NamedAt(log, event, j)
  }

  /** The instant a deadline counts from: that of the first event of the name, or zero if there is no name or
      no such event. */
  ghost predicate CountsFrom(log: seq<LogEvent>, after: Option<Event>, t: nat) {
    if after.Some? && SomeNamed(log, after.value)
    then exists i: nat :: FirstNamedAt(log, after.value, i) && t == log[i].taken.at
    else t == 0
  }

  lemma {:induction false} AnchorSnoc(event: Event, events: seq<RunEvent>, e: RunEvent)
    ensures AnchorTime(Some(event), events + [e])
         == if exists f :: f in events && Matches(event, f) then AnchorTime(Some(event), events)
            else if Matches(event, e) then e.at else 0
    decreases |events|
  {
    if events == [] {
      assert (events + [e])[1..] == [];
    } else {
      assert (events + [e])[1..] == events[1..] + [e];
      AnchorSnoc(event, events[1..], e);
    }
  }

  lemma {:induction false} NoAnchor(event: Event, events: seq<RunEvent>)
    requires forall f :: f in events ==> !Matches(event, f)
    ensures AnchorTime(Some(event), events) == 0
    decreases |events|
  {
    if events == [] {
    } else {
      assert events[0] in events;
      NoAnchor(event, events[1..]);
    }
  }

  /** Recording one more event, or not. */
  lemma NextAnchor(log: seq<LogEvent>, event: Event, events: seq<RunEvent>)
    requires log != [] && events == HealsAndRestarts(log[..|log| - 1])
    requires (exists f :: f in events && Matches(event, f)) <==> SomeNamed(log[..|log| - 1], event)
    ensures AnchorTime(Some(event), HealsAndRestarts(log))
         == if exists f :: f in events && Matches(event, f) then AnchorTime(Some(event), events)
            else if NamedAt(log, event, |log| - 1) then log[|log| - 1].taken.at else AnchorTime(Some(event), events)
  {
    var after := HealsAndRestarts(log);
    if after != events {
      AnchorSnoc(event, events, after[|events|]);
      assert after == events + [after[|events|]];
      if !(exists f :: f in events && Matches(event, f)) {
        NoAnchor(event, events);
      }
    }
  }

  lemma NamedLonger(log: seq<LogEvent>, event: Event)
    requires log != []
    ensures SomeNamed(log, event)
       <==> SomeNamed(log[..|log| - 1], event) || NamedAt(log, event, |log| - 1)
  {
    var init := log[..|log| - 1];
    assert forall i: nat :: i < |init| ==> (NamedAt(init, event, i) <==> NamedAt(log, event, i));
    if i: nat :| NamedAt(init, event, i) {
      assert NamedAt(log, event, i);
    }
    if i: nat :| NamedAt(log, event, i) {
      assert i == |log| - 1 || NamedAt(init, event, i);
    }
  }

  lemma MatchedLonger(log: seq<LogEvent>, event: Event)
    requires log != []
    ensures (exists f :: f in HealsAndRestarts(log) && Matches(event, f))
       <==> (exists f :: f in HealsAndRestarts(log[..|log| - 1]) && Matches(event, f)) || NamedAt(log, event, |log| - 1)
  {
    var before, after := HealsAndRestarts(log[..|log| - 1]), HealsAndRestarts(log);
    if after != before {
      assert after == before + [after[|before|]];
      assert after[|before|] in after;
    }
  }

  lemma {:induction false} AnchorIsFirst(log: seq<LogEvent>, event: Event)
    ensures CountsFrom(log, Some(event), AnchorTime(Some(event), HealsAndRestarts(log)))
    ensures (exists f :: f in HealsAndRestarts(log) && Matches(event, f)) <==> SomeNamed(log, event)
    decreases |log|
  {
    if log == [] {
    } else {
      var init := log[..|log| - 1];
      AnchorIsFirst(init, event);
      NextAnchor(log, event, HealsAndRestarts(init));
      NamedLonger(log, event);
      MatchedLonger(log, event);
      if SomeNamed(init, event) {
        var t := AnchorTime(Some(event), HealsAndRestarts(init));
        var i: nat :| FirstNamedAt(init, event, i) && t == init[i].taken.at;
        assert FirstNamedAt(log, event, i) by {
          assert forall j: nat :: j <= i ==> (NamedAt(init, event, j) <==> NamedAt(log, event, j));
        }
      } else if NamedAt(log, event, |log| - 1) {
        assert forall j: nat :: j < |init| ==> (NamedAt(init, event, j) <==> NamedAt(log, event, j));
        assert FirstNamedAt(log, event, |log| - 1);
      }
    }
  }

  lemma RunAnchor(cfg: Config, faults: seq<(nat, FaultAction)>, n: nat, after: Option<Event>) returns (t0: nat)
    requires cfg.nodeCount > 0
    ensures t0 == AnchorTime(after, Run(cfg, Init(cfg, faults), n).0.core.events)
    ensures CountsFrom(Run(cfg, Init(cfg, faults), n).0.core.log, after, t0)
  {
    var c := Run(cfg, Init(cfg, faults), n).0.core;
    t0 := AnchorTime(after, c.events);
    EventsAreLogged(cfg, faults, n);
    if after.Some? {
      AnchorIsFirst(c.log, after.value);
    }
  }

  // ----- Verdicts -----

  lemma {:induction false} AllFramesHold(prop: Property, history: seq<OpEntry>, frames: seq<Frame>)
    ensures AllFrames(prop, history, frames)
       <==> forall f :: f in frames ==> prop.claim(f.1, history, f.0)
    decreases |frames|
  {
    if frames == [] {
    } else {
      AllFramesHold(prop, history, frames[1..]);
    }
  }

  lemma FramesDecide(prop: Property, history: seq<OpEntry>, frames: seq<Frame>, events: seq<RunEvent>, t0: nat)
    requires t0 == AnchorTime(prop.after, events)
    ensures EvaluateOne(prop, history, frames, events) <==>
            match prop.kind
            case Always => forall f :: f in frames ==> prop.claim(f.1, history, f.0)
            case Sometimes => exists f :: f in frames && prop.claim(f.1, history, f.0)
            case EventuallyWithin(deadline) =>
              exists f :: f in frames && t0 <= f.0 <= t0 + deadline && prop.claim(f.1, history, f.0)
  {
    match prop.kind
    case Always => AllFramesHold(prop, history, frames);
    case Sometimes => AnyFrameExists(prop, history, frames, 0, None);
    case EventuallyWithin(deadline) => AnyFrameExists(prop, history, frames, t0, Some(t0 + deadline));
  }

  /** What the verdict on a property says about the frames of a run and its log: that the claim, put to a
      frame's states, the whole history and the frame's time, held in every frame, in some frame, or in some
      frame from the first event named to the deadline, both included. */
  lemma VerdictMeans(
    cfg: Config, faults: seq<(nat, FaultAction)>, n: nat, prop: Property, history: seq<OpEntry>)
    returns (w: World, t0: nat)
    requires cfg.nodeCount > 0
    ensures w == Run(cfg, Init(cfg, faults), n).0
    ensures CountsFrom(w.core.log, prop.after, t0)
    ensures EvaluateOne(prop, history, w.frames, w.core.events) <==>
            match prop.kind
            case Always => forall f :: f in w.frames ==> prop.claim(f.1, history, f.0)
            case Sometimes => exists f :: f in w.frames && prop.claim(f.1, history, f.0)
            case EventuallyWithin(deadline) =>
              exists f :: f in w.frames && t0 <= f.0 <= t0 + deadline && prop.claim(f.1, history, f.0)
  {
    w := Run(cfg, Init(cfg, faults), n).0;
    t0 := RunAnchor(cfg, faults, n, prop.after);
    FramesDecide(prop, history, w.frames, w.core.events, t0);
  }

  lemma DenseAlways(prop: Property, holds: seq<NodeState> -> bool, history: seq<OpEntry>, frames: seq<Frame>)
    requires forall nodes, h, t :: prop.claim(nodes, h, t) == holds(nodes)
    ensures AllFrames(prop, history, frames) <==>
            forall i: nat, t: nat {:trigger InForce(frames, i, t)} ::
              i < |frames| && InForce(frames, i, t) ==> holds(frames[i].1)
  {
    AllFramesHold(prop, history, frames);
    forall f | f in frames ensures exists i: nat :: i < |frames| && frames[i] == f && InForce(frames, i, f.0) {
      var i :| 0 <= i < |frames| && frames[i] == f;
    }
  }

  lemma DenseSometimes(prop: Property, holds: seq<NodeState> -> bool, history: seq<OpEntry>, frames: seq<Frame>)
    requires forall nodes, h, t :: prop.claim(nodes, h, t) == holds(nodes)
    ensures AnyFrame(prop, history, frames, 0, None) <==>
            exists i: nat, t: nat {:trigger InForce(frames, i, t)} ::
              i < |frames| && InForce(frames, i, t) && holds(frames[i].1)
  {
    AnyFrameExists(prop, history, frames, 0, None);
    if i :| 0 <= i < |frames| && Holds(prop, history, frames[i]) {
      assert InForce(frames, i, frames[i].0);
    }
  }

  lemma DenseVerdict(w: World, prop: Property, holds: seq<NodeState> -> bool, history: seq<OpEntry>, t0: nat)
    requires FramesOk(w) && t0 == AnchorTime(prop.after, w.core.events)
    requires forall nodes, h, t :: prop.claim(nodes, h, t) == holds(nodes)
    ensures EvaluateOne(prop, history, w.frames, w.core.events) <==>
            match prop.kind
            case Always =>
              forall i: nat, t: nat {:trigger InForce(w.frames, i, t)} ::
                i < |w.frames| && InForce(w.frames, i, t) ==> holds(w.frames[i].1)
            case Sometimes =>
              exists i: nat, t: nat {:trigger InForce(w.frames, i, t)} ::
                i < |w.frames| && InForce(w.frames, i, t) && holds(w.frames[i].1)
            case EventuallyWithin(deadline) => HeldWithin(w.frames, holds, t0, t0 + deadline)
  {
    match prop.kind
    case Always => DenseAlways(prop, holds, history, w.frames);
    case Sometimes => DenseSometimes(prop, holds, history, w.frames);
    case EventuallyWithin(_) => WindowIsDense(w, prop, holds, history);
  }

  /** For a claim about node states: the verdict is whether the state satisfied it at every instant, at some
      instant, or at some instant from the first event named to the deadline. */
  lemma VerdictIsDense(
    cfg: Config, faults: seq<(nat, FaultAction)>, n: nat, prop: Property, holds: seq<NodeState> -> bool,
      history: seq<OpEntry>)
    returns (w: World, t0: nat)
    requires cfg.nodeCount > 0
    requires forall nodes, h, t :: prop.claim(nodes, h, t) == holds(nodes)
    ensures w == Run(cfg, Init(cfg, faults), n).0
    ensures CountsFrom(w.core.log, prop.after, t0)
    ensures EvaluateOne(prop, history, w.frames, w.core.events) <==>
            match prop.kind
            case Always =>
              forall i: nat, t: nat {:trigger InForce(w.frames, i, t)} ::
                i < |w.frames| && InForce(w.frames, i, t) ==> holds(w.frames[i].1)
            case Sometimes =>
              exists i: nat, t: nat {:trigger InForce(w.frames, i, t)} ::
                i < |w.frames| && InForce(w.frames, i, t) && holds(w.frames[i].1)
            case EventuallyWithin(deadline) => HeldWithin(w.frames, holds, t0, t0 + deadline)
  {
    w := Run(cfg, Init(cfg, faults), n).0;
    t0 := RunAnchor(cfg, faults, n, prop.after);
    RunFrames(cfg, faults, n);
    DenseVerdict(w, prop, holds, history, t0);
  }
}
