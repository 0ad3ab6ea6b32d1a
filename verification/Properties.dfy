/** White-box properties over the recorded frames (crates/propsim-sim/src/properties.rs), and what
    the scan over frames means for the state as a function of continuous virtual time. */
module Properties {
  import opened Ops
  import opened Engine
  import opened Runs
  import opened Clock

  datatype Event = OnNetworkHealed | OnNodeRejoined | Custom(name: string)

  datatype PropertyKind = Always | Sometimes | EventuallyWithin(deadline: nat)

  type Frame = (nat, seq<NodeState>)

  /** A predicate sees the node states, the whole recorded history and the frame's time. */
  datatype Property = Property(
    kind: PropertyKind,
    claim: (seq<NodeState>, seq<OpEntry>, nat) -> bool,
    after: Option<Event>)

  predicate Matches(event: Event, e: RunEvent) {
    (event.OnNetworkHealed? && e.NetworkHealed?) || (event.OnNodeRejoined? && e.NodeRejoined?)
  }

  /** The time of the first matching run event, or zero. */
  function AnchorTime(after: Option<Event>, events: seq<RunEvent>): nat
    decreases |events|
  {
    if after.None? || events == [] then 0
    else if Matches(after.value, events[0]) then events[0].at
    else AnchorTime(after, events[1..])
  }

  function Holds(prop: Property, history: seq<OpEntry>, f: Frame): bool {
    prop.claim(f.1, history, f.0)
  }

  function AllFrames(prop: Property, history: seq<OpEntry>, frames: seq<Frame>): bool
    decreases |frames|
  {
    frames == [] || (Holds(prop, history, frames[0]) && AllFrames(prop, history, frames[1..]))
  }

  function AnyFrame(prop: Property, history: seq<OpEntry>, frames: seq<Frame>, lo: nat, hi: Option<nat>): bool
    decreases |frames|
  {
    frames != [] &&
    ((lo <= frames[0].0 && (hi.Some? ==> frames[0].0 <= hi.value) && Holds(prop, history, frames[0]))
     || AnyFrame(prop, history, frames[1..], lo, hi))
  }

  /** `evaluate_one`: whether the verdict is valid. */
  function EvaluateOne(prop: Property, history: seq<OpEntry>, frames: seq<Frame>, events: seq<RunEvent>): bool {
    match prop.kind
    case Always => AllFrames(prop, history, frames)
    case Sometimes => AnyFrame(prop, history, frames, 0, None)
    case EventuallyWithin(deadline) =>
      var t0 := AnchorTime(prop.after, events);
      AnyFrame(prop, history, frames, t0, Some(t0 + deadline))
  }

  // ----- The state over continuous time -----

  /** The state of frame `i` is the system's state at instant `t`: from the frame's own time until
      the next frame. Several frames of one instant are all passed through at that instant. */
  predicate InForce(frames: seq<Frame>, i: nat, t: nat)
    requires i < |frames|
  {
    frames[i].0 <= t && (t == frames[i].0 || i + 1 == |frames| || t < frames[i + 1].0)
  }

  /** At some instant of `[lo, hi]` the system is in a state that satisfies `holds`. */
  ghost predicate HeldWithin(frames: seq<Frame>, holds: seq<NodeState> -> bool, lo: nat, hi: nat) {
    exists i: nat, t: nat {:trigger InForce(frames, i, t)} ::
      i < |frames| && lo <= t <= hi && InForce(frames, i, t) && holds(frames[i].1)
  }

  ghost predicate FramesInOrder(frames: seq<Frame>) {
    forall i, j :: 0 <= i < j < |frames| ==> frames[i].0 <= frames[j].0
  }

  lemma {:induction false} AnyFrameExists(prop: Property, history: seq<OpEntry>, frames: seq<Frame>, lo: nat,
      hi: Option<nat>)
    ensures AnyFrame(prop, history, frames, lo, hi) <==>
            exists i :: 0 <= i < |frames| && lo <= frames[i].0 && (hi.Some? ==> frames[i].0 <= hi.value)
                        && Holds(prop, history, frames[i])
    decreases |frames|
  {
    if frames == [] {
    } else {
      AnyFrameExists(prop, history, frames[1..], lo, hi);
      assert forall i :: 0 < i < |frames| ==> frames[i] == frames[1..][i - 1];
      assert forall i :: 0 <= i < |frames[1..]| ==> frames[1..][i] == frames[i + 1];
    }
  }

  /** For predicates over node state only, scanning the frames of a window is the same as asking for
      an instant of the window at which the predicate holds, provided some frame was taken exactly
      at the window's start. */
  lemma ScanIsDense(
    prop: Property, holds: seq<NodeState> -> bool, history: seq<OpEntry>, frames: seq<Frame>, lo: nat, hi: nat,
        anchor: nat)
    requires forall nodes, h, t :: prop.claim(nodes, h, t) == holds(nodes)
    requires FramesInOrder(frames) && anchor < |frames| && frames[anchor].0 == lo && lo <= hi
    ensures AnyFrame(prop, history, frames, lo, Some(hi)) <==> HeldWithin(frames, holds, lo, hi)
  {
    AnyFrameExists(prop, history, frames, lo, Some(hi));
    if AnyFrame(prop, history, frames, lo, Some(hi)) {
      var i :| 0 <= i < |frames| && lo <= frames[i].0 <= hi && Holds(prop, history, frames[i]);
      assert InForce(frames, i, frames[i].0);
    }
    if HeldWithin(frames, holds, lo, hi) {
      var i: nat, t: nat :| i < |frames| && lo <= t <= hi && InForce(frames, i, t) && holds(frames[i].1);
      assert Holds(prop, history, frames[i]);
    }
  }

  // ----- The frames of a run -----

  ghost predicate FrameAt(frames: seq<Frame>, t: nat) {
    exists i :: 0 <= i < |frames| && frames[i].0 == t
  }

  /** Frames start at time zero, follow the clock, and there is one at every run event. */
  ghost predicate FramesOk(w: World) {
    && w.frames != [] && w.frames[0].0 == 0
    && FramesInOrder(w.frames)
    && (forall i :: 0 <= i < |w.frames| ==> w.frames[i].0 <= w.core.now)
    && (forall e :: e in w.core.events ==> FrameAt(w.frames, e.at))
  }

  lemma FrameStill(frames: seq<Frame>, f: Frame, t: nat)
    requires FrameAt(frames, t)
    ensures FrameAt(frames + [f], t)
  {
    var i :| 0 <= i < |frames| && frames[i].0 == t;
    assert (frames + [f])[i].0 == t;
  }

  lemma TakeEvents(cfg: Config, c: Core, head: Scheduled, c': Core)
    requires ClockOk(cfg, c) && c.queue != [] && head == c.queue[MinIndex(c.queue)] && c' == TakeHead(cfg, c)
    ensures c.now <= c'.now
    ensures forall e :: e in c'.events ==> e in c.events || e.at == c'.now
    ensures head.at >= cfg.horizon || !head.kind.Fault? ==> c'.events == c.events
  {
    TakeShape(cfg, c, head, c');
  }

  lemma {:induction false} CloseAllStill(c: Core, tokens: seq<nat>)
    ensures CloseAll(c, tokens).now == c.now && CloseAll(c, tokens).events == c.events
    decreases |tokens|
  {
    if tokens == [] {
    } else {
      CloseAllStill(CloseOp(c, tokens[0], Info, Nil), tokens[1..]);
    }
  }

  /** What popping does to the clock and the run events. */
  lemma {:induction false} PopEvents(cfg: Config, c: Core)
    requires ClockOk(cfg, c)
    ensures c.now <= Pop(cfg, c).0.now
    ensures forall e :: e in Pop(cfg, c).0.events ==> e in c.events || e.at == Pop(cfg, c).0.now
    ensures Pop(cfg, c).1.None? ==> Pop(cfg, c).0.events == c.events
    decreases |c.queue|
  {
    if c.queue == [] {
    } else {
      var head, c1 := TakeRest(cfg, c);
      TakeEvents(cfg, c, head, c1);
      if head.at < cfg.horizon {
        if Fires(cfg, c, head.kind) {
          CloseAllStill(c1, Victims(c1, head.kind));
        } else {
          TakeOk(cfg, c);
          PopEvents(cfg, c1);
        }
      }
    }
  }

  ghost predicate SameInstant(c: Core, c': Core) {
    c'.now == c.now && c'.events == c.events
  }

  lemma DispatchStill(cfg: Config, w: World, kind: EventKind)
    ensures SameInstant(w.core, Dispatch(cfg, w, kind).core) && Dispatch(cfg, w, kind).frames == w.frames
  {
    var c0 := w.core;
    assert KeptByDispatch(cfg, c => SameInstant(c0, c));
    DispatchKeeps(cfg, w, kind, c => SameInstant(c0, c));
  }

  lemma {:induction false} PumpStill(w: World, upTo: nat)
    ensures SameInstant(w.core, Pump(w, upTo).core) && Pump(w, upTo).frames == w.frames
  {
    if upTo == 0 {
    } else {
      PumpStill(w, upTo - 1);
    }
  }

  lemma SnapshotOk(w: World, w2: World)
    requires FramesOk(w) && w2.frames == w.frames && w.core.now <= w2.core.now
    requires forall e :: e in w2.core.events ==> e in w.core.events || e.at == w2.core.now
    ensures FramesOk(Snapshot(w2))
  {
    var f := (w2.core.now, w2.nodes);
    forall e | e in w2.core.events ensures FrameAt(w.frames + [f], e.at) {
      if e in w.core.events {
        FrameStill(w.frames, f, e.at);
      } else {
        assert (w.frames + [f])[|w.frames|].0 == e.at;
      }
    }
  }

  lemma StepFrames(cfg: Config, w: World)
    requires ClockOk(cfg, w.core) && FramesOk(w)
    ensures FramesOk(Step(cfg, w).0)
  {
    PopEvents(cfg, w.core);
    var (c, popped) := Pop(cfg, w.core);
    if popped.Some? {
      var w1 := w.(core := c);
      DispatchStill(cfg, w1, popped.value);
      PumpStill(Dispatch(cfg, w1, popped.value), cfg.nodeCount);
      var w2 := Pump(Dispatch(cfg, w1, popped.value), cfg.nodeCount);
      SnapshotOk(w, w2);
    }
  }

  lemma {:induction false} StartAllStill(cfg: Config, w: World, upTo: nat)
    ensures SameInstant(w.core, StartAll(cfg, w, upTo).core) && StartAll(cfg, w, upTo).frames == w.frames
  {
    if upTo == 0 {
    } else {
      StartAllStill(cfg, w, upTo - 1);
      var w1 := StartAll(cfg, w, upTo - 1);
      assert DispatchStart(cfg, w1, upTo - 1) == Dispatch(cfg, w1, Fault(Restart(upTo - 1)));
      DispatchStill(cfg, w1, Fault(Restart(upTo - 1)));
    }
  }

  lemma {:induction false} RunFrames(cfg: Config, faults: seq<(nat, FaultAction)>, n: nat)
    requires cfg.nodeCount > 0
    ensures FramesOk(Run(cfg, Init(cfg, faults), n).0)
  {
    if n == 0 {
      FaultsOnlyQueue(NewCore(), faults);
      StartAllStill(cfg, Boot(cfg, faults), cfg.nodeCount);
      var w := Snapshot(StartAll(cfg, Boot(cfg, faults), cfg.nodeCount));
      PumpStill(w, cfg.nodeCount);
    } else {
      RunFrames(cfg, faults, n - 1);
      if Run(cfg, Init(cfg, faults), n - 1).1 {
        ClockHolds(cfg, faults, n - 1);
        StepFrames(cfg, Run(cfg, Init(cfg, faults), n - 1).0);
      }
    }
  }

  lemma {:induction false} AnchorHasFrame(after: Option<Event>, events: seq<RunEvent>, frames: seq<Frame>)
    requires FrameAt(frames, 0) && forall e :: e in events ==> FrameAt(frames, e.at)
    ensures FrameAt(frames, AnchorTime(after, events))
    decreases |events|
  {
    if after.None? || events == [] || Matches(after.value, events[0]) {
    } else {
      AnchorHasFrame(after, events[1..], frames);
    }
  }

  lemma WindowIsDense(w: World, prop: Property, holds: seq<NodeState> -> bool, history: seq<OpEntry>)
    requires FramesOk(w) && prop.kind.EventuallyWithin?
    requires forall nodes, h, t :: prop.claim(nodes, h, t) == holds(nodes)
    ensures var t0 := AnchorTime(prop.after, w.core.events);
            EvaluateOne(prop, history, w.frames, w.core.events) <==>
            HeldWithin(w.frames, holds, t0, t0 + prop.kind.deadline)
  {
    assert w.frames[0].0 == 0;
    AnchorHasFrame(prop.after, w.core.events, w.frames);
    var t0 := AnchorTime(prop.after, w.core.events);
    var anchor :| 0 <= anchor < |w.frames| && w.frames[anchor].0 == t0;
    ScanIsDense(prop, holds, history, w.frames, t0, t0 + prop.kind.deadline, anchor);
  }
}
