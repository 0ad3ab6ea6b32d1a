/** Pairing the entries of a history into operation spans
    (`parse_spans`, crates/propsim-oracle/src/linearizability.rs). */
module Spans {
  import opened Ops

  /** The user-supplied sequential semantics a history is checked against. */
  datatype SequentialModel<!State(==, !new), !Op(!new)> = SequentialModel(
    init: State,
    step: (State, Op) -> (State, Value),
    decode: (string, Value, Value) -> Option<(Op, Value)>)

  /** A completed operation: an invoke paired with its completion, both given as history positions. */
  datatype Span<+Op> = Span(op: Op, response: Value, start: nat, finish: nat)

  /** Where a left-to-right scan stands: the invokes still open, with their positions, and the
      spans emitted so far. */
  datatype Pairing<+Op> = Pairing(open: seq<(nat, OpEntry)>, spans: seq<Span<Op>>)

  /** The position in `open` of the most recent open invoke of `process`. */
  function LastOpen(open: seq<(nat, OpEntry)>, process: nat): (r: Option<nat>)
    ensures r.Some? ==> r.value < |open| && open[r.value].1.process == process
    ensures r.Some? ==> forall k :: r.value < k < |open| ==> open[k].1.process != process
    ensures r.None? ==> forall k :: 0 <= k < |open| ==> open[k].1.process != process
  {
    if open == [] then None
    else if open[|open| - 1].1.process == process then Some(|open| - 1)
    else LastOpen(open[..|open| - 1], process)
  }

  function PairStep<State(!new), Op(!new)>(
    model: SequentialModel<State, Op>, st: Pairing<Op>, pos: nat, e: OpEntry): Pairing<Op>
  {
    if e.kind.Invoke? then
      st.(open := st.open + [(pos, e)])
    else
      match LastOpen(st.open, e.process)
      case None => st
      case Some(idx) =>
        var (start, inv) := st.open[idx];
        var open := st.open[..idx] + st.open[idx + 1..];
        if e.kind.Fail? then
          st.(open := open)
        else
          match model.decode(e.f, inv.value, e.value)
          case None => st.(open := open)
          case Some((op, response)) => Pairing(open, st.spans + [Span(op, response, start, pos)])
  }

  function Pair<State(!new), Op(!new)>(model: SequentialModel<State, Op>, h: seq<OpEntry>): Pairing<Op> {
    if h == [] then Pairing([], [])
    else PairStep(model, Pair(model, h[..|h| - 1]), |h| - 1, h[|h| - 1])
  }

  /** Open invokes are entries of the history, in order. */
  ghost predicate OpenInvokes(h: seq<OpEntry>, open: seq<(nat, OpEntry)>) {
    && (forall k :: 0 <= k < |open| ==> open[k].0 < |h| && h[open[k].0] == open[k].1 && open[k].1.kind.Invoke?)
    && (forall k, l :: 0 <= k < l < |open| ==> open[k].0 < open[l].0)
  }

  /** A span runs forward in time from an invoke to a completion of the same process. */
  ghost predicate WellFormedSpan<Op>(h: seq<OpEntry>, s: Span<Op>) {
    && s.start < s.finish < |h|
    && h[s.start].kind.Invoke?
    && (h[s.finish].kind.Ok? || h[s.finish].kind.Info?)
    && h[s.start].process == h[s.finish].process
  }

  /** Spans are well formed and come out in the order they finish. */
  ghost predicate SortedSpans<Op>(h: seq<OpEntry>, spans: seq<Span<Op>>) {
    && (forall k :: 0 <= k < |spans| ==> WellFormedSpan(h, spans[k]))
    && (forall k, l :: 0 <= k < l < |spans| ==> spans[k].finish < spans[l].finish)
  }

  lemma WithoutOne(h: seq<OpEntry>, open: seq<(nat, OpEntry)>, idx: nat)
    requires idx < |open| && OpenInvokes(h, open)
    ensures OpenInvokes(h, open[..idx] + open[idx + 1..])
  {
    var rest := open[..idx] + open[idx + 1..];
    assert forall k :: 0 <= k < |rest| ==> rest[k] == if k < idx then open[k] else open[k + 1];
  }

  lemma StepKeepsOpen<State(!new), Op(!new)>(
    model: SequentialModel<State, Op>, h: seq<OpEntry>, st: Pairing<Op>, e: OpEntry)
    requires OpenInvokes(h, st.open)
    ensures OpenInvokes(h + [e], PairStep(model, st, |h|, e).open)
  {
    var last := LastOpen(st.open, e.process);
    assert OpenInvokes(h + [e], st.open);
    if e.kind.Invoke? {
      assert PairStep(model, st, |h|, e).open == st.open + [(|h|, e)];
    } else if last.Some? {
      WithoutOne(h + [e], st.open, last.value);
      assert PairStep(model, st, |h|, e).open == st.open[..last.value] + st.open[last.value + 1..];
    }
  }

  lemma StepKeepsSpans<State(!new), Op(!new)>(
    model: SequentialModel<State, Op>, h: seq<OpEntry>, st: Pairing<Op>, e: OpEntry)
    requires OpenInvokes(h, st.open) && SortedSpans(h, st.spans)
    ensures SortedSpans(h + [e], PairStep(model, st, |h|, e).spans)
  {
    var h' := h + [e];
    forall k | 0 <= k < |st.spans| ensures WellFormedSpan(h', st.spans[k]) && st.spans[k].finish < |h| {
      assert WellFormedSpan(h, st.spans[k]);
    }
    var spans' := PairStep(model, st, |h|, e).spans;
    if spans' != st.spans {
      assert WellFormedSpan(h', spans'[|st.spans|]);
    }
  }

  /** What the scan keeps, for every history. */
  lemma {:induction false} PairIsWellFormed<State(!new), Op(!new)>(model: SequentialModel<State, Op>, h: seq<OpEntry>)
    ensures OpenInvokes(h, Pair(model, h).open)
    ensures SortedSpans(h, Pair(model, h).spans)
  {
    if h == [] {
    } else {
      var prefix, e := h[..|h| - 1], h[|h| - 1];
      PairIsWellFormed(model, prefix);
      StepKeepsOpen(model, prefix, Pair(model, prefix), e);
      StepKeepsSpans(model, prefix, Pair(model, prefix), e);
      assert prefix + [e] == h;
    }
  }
}
