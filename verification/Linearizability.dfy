/** What it means for a set of operation spans to be linearizable, stated without
    reference to any search, and the correctness of the memoised search of
    crates/propsim-oracle/src/linearizability.rs against it. */
module Linearizability {
  import opened Ops
  import opened Spans

  // ----- The declarative notion -----

  ghost function OpenIndices(done: seq<bool>): set<nat> {
    set i: nat | i < |done| && !done[i]
  }

  /** `order` lists every index that `done` leaves open, once each. */
  ghost predicate Lists(done: seq<bool>, order: seq<nat>) {
    multiset(order) == multiset(OpenIndices(done))
  }

  lemma ListedAreOpen(done: seq<bool>, order: seq<nat>)
    requires Lists(done, order)
    ensures forall a :: 0 <= a < |order| ==> order[a] < |done| && !done[order[a]]
    ensures forall i :: 0 <= i < |done| && !done[i] ==> i in order
  {
    forall a | 0 <= a < |order| ensures order[a] < |done| && !done[order[a]] {
      assert order[a] in multiset(order);
    }
    forall i | 0 <= i < |done| && !done[i] ensures i in order {
      assert i in multiset(OpenIndices(done));
    }
  }

  /** No span is put before (or is itself) one that finished before it started. */
  ghost predicate RespectsRealTime<Op>(spans: seq<Span<Op>>, order: seq<nat>)
    requires forall a :: 0 <= a < |order| ==> order[a] < |spans|
  {
    forall a, b :: 0 <= a <= b < |order| ==> !(spans[order[b]].finish < spans[order[a]].start)
  }

  /** Running the operations in this order from `state` yields every recorded response. */
  ghost predicate Replays<State(!new), Op(!new)>(
    model: SequentialModel<State, Op>, spans: seq<Span<Op>>, state: State, order: seq<nat>)
    requires forall a :: 0 <= a < |order| ==> order[a] < |spans|
    decreases |order|
  {
    order == [] ||
    var (next, response) := model.step(state, spans[order[0]].op);
    response == spans[order[0]].response && Replays(model, spans, next, order[1..])
  }

  function NoneDone(n: nat): (done: seq<bool>)
    ensures |done| == n && forall i :: 0 <= i < n ==> !done[i]
  {
    seq(n, _ => false)
  }

  ghost predicate IsLinearization<State(!new), Op(!new)>(
    model: SequentialModel<State, Op>, realTime: bool, spans: seq<Span<Op>>, order: seq<nat>)
  {
    && Lists(NoneDone(|spans|), order)
    && (forall a :: 0 <= a < |order| ==> order[a] < |spans|)
    && (realTime ==> RespectsRealTime(spans, order))
    && Replays(model, spans, model.init, order)
  }

  /** The verdict the checker is meant to give. */
  ghost predicate Linearizable<State(!new), Op(!new)>(
    model: SequentialModel<State, Op>, realTime: bool, spans: seq<Span<Op>>)
  {
    exists order :: IsLinearization(model, realTime, spans, order)
  }

  /** The same for a recorded history. */
  ghost predicate HistoryLinearizable<State(!new), Op(!new)>(
    model: SequentialModel<State, Op>, realTime: bool, h: seq<OpEntry>)
  {
    Linearizable(model, realTime, Pair(model, h).spans)
  }

  // ----- The search tree -----

  /** Span `i` may be linearized next: nothing still open finished before it started. */
  ghost predicate Callable<Op>(realTime: bool, spans: seq<Span<Op>>, done: seq<bool>, i: nat)
    requires |done| == |spans| && i < |spans|
  {
    realTime ==> forall j :: 0 <= j < |spans| && !done[j] ==> spans[i].start <= spans[j].finish
  }

  /** `order` is a path of the search tree from node `(done, state)` to a leaf with everything done. */
  ghost predicate Completes<State(!new), Op(!new)>(
    model: SequentialModel<State, Op>, realTime: bool, spans: seq<Span<Op>>,
    state: State, done: seq<bool>, order: seq<nat>)
    requires |done| == |spans|
    decreases |order|
  {
    if order == [] then
      forall i :: 0 <= i < |done| ==> done[i]
    else
      && order[0] < |spans|
      && !done[order[0]]
      && Callable(realTime, spans, done, order[0])
      && var (next, response) := model.step(state, spans[order[0]].op);
         response == spans[order[0]].response
         && Completes(model, realTime, spans, next, done[order[0] := true], order[1..])
  }

  ghost predicate CanComplete<State(!new), Op(!new)>(
    model: SequentialModel<State, Op>, realTime: bool, spans: seq<Span<Op>>, state: State, done: seq<bool>)
    requires |done| == |spans|
  {
    exists order :: Completes(model, realTime, spans, state, done, order)
  }

  lemma ListsNothing(done: seq<bool>)
    ensures Lists(done, []) <==> forall i :: 0 <= i < |done| ==> done[i]
  {
    if Lists(done, []) {
      ListedAreOpen(done, []);
    }
    assert (forall i :: 0 <= i < |done| ==> done[i]) ==> OpenIndices(done) == {};
  }

  lemma ListsHead(done: seq<bool>, order: seq<nat>)
    requires order != [] && order[0] < |done| && !done[order[0]]
    ensures Lists(done, order) <==> Lists(done[order[0] := true], order[1..])
  {
    var i := order[0];
    assert order == [i] + order[1..];
    assert multiset(order) == multiset{i} + multiset(order[1..]);
    assert OpenIndices(done) == OpenIndices(done[i := true]) + {i};
    assert multiset(OpenIndices(done)) == multiset(OpenIndices(done[i := true])) + multiset{i};
    if Lists(done, order) {
      assert multiset(order[1..]) == multiset(order) - multiset{i};
      assert multiset(OpenIndices(done[i := true])) == multiset(OpenIndices(done)) - multiset{i};
    }
  }

  /** For an order that lists what is open, its head is callable exactly when real time lets the
      head go first. */
  lemma ListedCallable<Op>(realTime: bool, spans: seq<Span<Op>>, done: seq<bool>, order: seq<nat>)
    requires |done| == |spans| && order != [] && Lists(done, order) && realTime
    requires forall a :: 0 <= a < |order| ==> order[a] < |spans|
    ensures RespectsRealTime(spans, order) <==>
            Callable(realTime, spans, done, order[0]) && RespectsRealTime(spans, order[1..])
  {
    var rest := order[1..];
    ListedAreOpen(done, order);
    assert forall a :: 0 <= a < |rest| ==> rest[a] == order[a + 1];
    if RespectsRealTime(spans, order) {
      forall j | 0 <= j < |spans| && !done[j] ensures spans[order[0]].start <= spans[j].finish {
        var b :| 0 <= b < |order| && order[b] == j;
      }
    }
    if Callable(realTime, spans, done, order[0]) && RespectsRealTime(spans, rest) {
      forall a, b | 0 <= a <= b < |order|
        ensures !(spans[order[b]].finish < spans[order[a]].start)
      {
        if a > 0 {
          assert order[a] == rest[a - 1] && order[b] == rest[b - 1];
        }
      }
    }
  }

  /** A path of the tree is the same thing as an order that lists what is left, respects
      real time and replays: the filter on the minimal open finish loses no order and lets
      no wrong one through. */
  lemma {:induction false} PathIsOrder<State(!new), Op(!new)>(
    model: SequentialModel<State, Op>, realTime: bool, spans: seq<Span<Op>>,
    state: State, done: seq<bool>, order: seq<nat>)
    requires |done| == |spans|
    ensures Completes(model, realTime, spans, state, done, order) <==>
            && Lists(done, order)
            && (forall a :: 0 <= a < |order| ==> order[a] < |spans|)
            && (realTime ==> RespectsRealTime(spans, order))
            && Replays(model, spans, state, order)
    decreases |order|
  {
    if order == [] {
      ListsNothing(done);
      return;
    }
    if Lists(done, order) {
      ListedAreOpen(done, order);
    }
    if order[0] < |spans| && !done[order[0]] {
      var next := model.step(state, spans[order[0]].op).0;
      PathIsOrder(model, realTime, spans, next, done[order[0] := true], order[1..]);
      ListsHead(done, order);
      if Lists(done, order) && realTime {
        ListedCallable(realTime, spans, done, order);
      }
    }
  }

  // ----- The search itself -----

  const USIZE_MAX: nat := TWO_64 - 1

  function Undone(done: seq<bool>): (n: nat)
    ensures n == 0 <==> forall i :: 0 <= i < |done| ==> done[i]
    ensures n <= |done|
  {
    if done == [] then 0 else (if done[0] then 0 else 1) + Undone(done[1..])
  }

  lemma {:induction false} UndoneAfter(done: seq<bool>, i: nat)
    requires i < |done| && !done[i]
    ensures Undone(done[i := true]) == Undone(done) - 1
  {
    if i == 0 {
      assert done[i := true][1..] == done[1..];
    } else {
      assert done[i := true][1..] == done[1..][i - 1 := true];
      UndoneAfter(done[1..], i - 1);
    }
  }

  lemma {:induction false} UndoneNone(n: nat)
    ensures Undone(NoneDone(n)) == n
  {
    if n == 0 {
    } else {
      assert NoneDone(n)[1..] == NoneDone(n - 1);
      UndoneNone(n - 1);
    }
  }

  /** The shared memo set of visited `(done, state)` nodes. */
  class Visited<State(==, !new)> {
    var nodes: set<(seq<bool>, State)>

    constructor ()
      ensures nodes == {}
    {
      nodes := {};
    }

    method Insert(done: seq<bool>, state: State) returns (fresh': bool)
      modifies this
      ensures fresh' <==> (done, state) !in old(nodes)
      ensures nodes == old(nodes) + {(done, state)}
    {
      fresh' := (done, state) !in nodes;
      nodes := nodes + {(done, state)};
    }
  }

  /** Every visited node with at most `k` open spans is a dead end. Nodes still on the search
      stack have more open spans than the node being explored, so they are exempt. */
  ghost predicate DeadEnds<State(!new), Op(!new)>(
    model: SequentialModel<State, Op>, realTime: bool, spans: seq<Span<Op>>,
    nodes: set<(seq<bool>, State)>, k: int)
  {
    forall d, s :: (d, s) in nodes && |d| == |spans| && Undone(d) <= k ==>
      !CanComplete(model, realTime, spans, s, d)
  }

  class LinearizabilityOracle<State(==, !new), Op(!new)> {
    const model: SequentialModel<State, Op>
    const realTime: bool

    constructor (model: SequentialModel<State, Op>, realTime: bool)
      ensures this.model == model && this.realTime == realTime
    {
      this.model := model;
      this.realTime := realTime;
    }

    /** Pair each completion with the latest open invoke of its process. */
    method ParseSpans(entries: seq<OpEntry>) returns (spans: seq<Span<Op>>)
      ensures spans == Pair(model, entries).spans
    {
      spans := [];
      var open: seq<(nat, OpEntry)> := [];
      for pos := 0 to |entries|
        invariant Pairing(open, spans) == Pair(model, entries[..pos])
      {
        assert entries[..pos + 1][..pos] == entries[..pos];
        var e := entries[pos];
        if e.kind.Invoke? {
          open := open + [(pos, e)];
        } else {
          match LastOpen(open, e.process)
          case None =>
          case Some(idx) =>
            var (start, inv) := open[idx];
            open := open[..idx] + open[idx + 1..];
            if e.kind.Fail? {
              continue;
            }
            match model.decode(e.f, inv.value, e.value)
            case None =>
            case Some((op, response)) =>
              spans := spans + [Span(op, response, start, pos)];
        }
      }
      assert entries[..|entries|] == entries;
    }

    /** The verdict on a recorded history: valid exactly when the spans paired from it can be
        linearized. */
    method Check(entries: seq<OpEntry>) returns (valid: bool)
      ensures valid <==> HistoryLinearizable(model, realTime, entries)
    {
      var spans := ParseSpans(entries);
      valid := Search(spans);
    }

    /** The least finish among what is open; the largest word stands in when nothing is. */
    method MinFinish(spans: seq<Span<Op>>, done: seq<bool>) returns (min: nat)
      requires |done| == |spans|
      ensures forall i :: 0 <= i < |spans| && !done[i] ==> min <= spans[i].finish
      ensures Undone(done) > 0 ==> exists i :: 0 <= i < |spans| && !done[i] && min == spans[i].finish
      ensures Undone(done) == 0 ==> min == USIZE_MAX
    {
      var least: Option<nat> := None;
      for i := 0 to |spans|
        invariant least.Some? <==> exists j :: 0 <= j < i && !done[j]
        invariant least.Some? ==> exists j :: 0 <= j < i && !done[j] && least.value == spans[j].finish
        invariant least.Some? ==> forall j :: 0 <= j < i && !done[j] ==> least.value <= spans[j].finish
      {
        if !done[i] && (least.None? || spans[i].finish < least.value) {
          least := Some(spans[i].finish);
        }
      }
      min := if least.Some? then least.value else USIZE_MAX;
    }

    /** Depth-first exploration of one node. `found` decides whether the node can be completed,
        whatever is in the memo set, as long as the memo set only holds dead ends and nodes that
        are still being explored. */
    method Recurse(spans: seq<Span<Op>>, state: State, done: seq<bool>, remaining: nat, visited: Visited<State>)
      returns (found: bool)
      requires |done| == |spans| && remaining == Undone(done)
      requires DeadEnds(model, realTime, spans, visited.nodes, remaining)
      modifies visited
      ensures found <==> CanComplete(model, realTime, spans, state, done)
      ensures !found ==> DeadEnds(model, realTime, spans, visited.nodes, remaining)
      ensures old(visited.nodes) <= visited.nodes
      ensures forall d, s :: (d, s) in visited.nodes - old(visited.nodes) && |d| == |spans| ==> Undone(d) <= remaining
      decreases remaining
    {
      if remaining == 0 {
        assert Completes(model, realTime, spans, state, done, []);
        return true;
      }
      var unexplored := visited.Insert(done, state);
      if !unexplored {
        return false;
      }
      var minFinish := MinFinish(spans, done);
      for i := 0 to |spans|
        invariant old(visited.nodes) + {(done, state)} <= visited.nodes
        invariant DeadEnds(model, realTime, spans, visited.nodes, remaining - 1)
        invariant forall d, s :: (d, s) in visited.nodes - old(visited.nodes) - {(done, state)} && |d| == |spans| ==>
                Undone(d) < remaining
        invariant forall order :: Completes(model, realTime, spans, state, done, order) ==> order != [] && i <= order[0]
      {
        if done[i] {
          continue;
        }
        if realTime && spans[i].start > minFinish {
          assert !Callable(realTime, spans, done, i);
          continue;
        }
        assert Callable(realTime, spans, done, i);
        var (nextState, response) := model.step(state, spans[i].op);
        if response != spans[i].response {
          continue;
        }
        var nextDone := done[i := true];
        UndoneAfter(done, i);
        var ok := Recurse(spans, nextState, nextDone, remaining - 1, visited);
        if ok {
          ghost var rest :| Completes(model, realTime, spans, nextState, nextDone, rest);
          assert ([i] + rest)[1..] == rest;
          assert Completes(model, realTime, spans, state, done, [i] + rest);
          return true;
        }
      }
      return false;
    }

    /** The search decides exactly the declarative notion. */
    method Search(spans: seq<Span<Op>>) returns (found: bool)
      ensures found <==> Linearizable(model, realTime, spans)
    {
      var n := |spans|;
      if n == 0 {
        assert IsLinearization(model, realTime, spans, []);
        return true;
      }
      var visited := new Visited<State>();
      var done := NoneDone(n);
      UndoneNone(n);
      found := Recurse(spans, model.init, done, n, visited);
      forall order
        ensures IsLinearization(model, realTime, spans, order) <==>
                Completes(model, realTime, spans, model.init, done, order)
      {
        PathIsOrder(model, realTime, spans, model.init, done, order);
      }
    }
  }
}
