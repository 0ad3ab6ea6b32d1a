/** The completions of a history, whatever a model makes of them: which invoke each non-failed
    terminal entry answers (`parse_spans`, crates/propsim-oracle/src/linearizability.rs). */
module Completions {
  import opened Ops
  import opened Spans
  import opened Linearizability

  /** What a model is shown of a completed operation. */
  datatype Triple = Triple(f: string, invoked: Value, returned: Value)

  /** A model that takes every completion as it stands. */
  function Everything(): SequentialModel<bool, Triple> {
    SequentialModel(
      false,
      (state: bool, op: Triple) => (state, Nil),
      (f: string, invoked: Value, returned: Value) => Some((Triple(f, invoked, returned), Nil)))
  }

  /** Every terminal entry that is no failure and answers an invoke, in order. */
  function Completed(h: seq<OpEntry>): seq<Span<Triple>> {
    Pair(Everything(), h).spans
  }

  /** What a model makes of a completion. */
  function Decode<State(!new), Op(!new)>(model: SequentialModel<State, Op>, s: Span<Triple>): Option<Span<Op>> {
    match model.decode(s.op.f, s.op.invoked, s.op.returned)
    case None => None
    case Some((op, response)) => Some(Span(op, response, s.start, s.finish))
  }

  /** The completions that decode, decoded. */
  function Decoded<State(!new), Op(!new)>(
    model: SequentialModel<State, Op>, completed: seq<Span<Triple>>): seq<Span<Op>>
  {
    if completed == [] then []
    else
      var last := |completed| - 1;
      var before := Decoded(model, completed[..last]);
      match Decode(model, completed[last])
      case None => before
      case Some(s) => before + [s]
  }

  lemma DecodedSnoc<State(!new), Op(!new)>(
    model: SequentialModel<State, Op>, completed: seq<Span<Triple>>, s: Span<Triple>)
    ensures Decoded(model, completed + [s])
         == Decoded(model, completed) + (if Decode(model, s).Some? then [Decode(model, s).value] else [])
  {
    assert (completed + [s])[..|completed|] == completed;
  }

  lemma StepDecodes<State(!new), Op(!new)>(
    model: SequentialModel<State, Op>, st: Pairing<Op>, raw: Pairing<Triple>, pos: nat, e: OpEntry)
    requires st.open == raw.open && st.spans == Decoded(model, raw.spans)
    ensures PairStep(model, st, pos, e).open == PairStep(Everything(), raw, pos, e).open
    ensures PairStep(model, st, pos, e).spans == Decoded(model, PairStep(Everything(), raw, pos, e).spans)
  {
    var last := LastOpen(raw.open, e.process);
    if !e.kind.Invoke? && !e.kind.Fail? && last.Some? {
      var (start, inv) := raw.open[last.value];
      DecodedSnoc(model, raw.spans, Span(Triple(e.f, inv.value, e.value), Nil, start, pos));
    }
  }

  /** A model only filters and translates: which invoke a terminal entry answers is settled by the
      history alone. */
  lemma {:induction false} PairDecodes<State(!new), Op(!new)>(model: SequentialModel<State, Op>, h: seq<OpEntry>)
    ensures Pair(model, h).open == Pair(Everything(), h).open
    ensures Pair(model, h).spans == Decoded(model, Completed(h))
  {
    if h == [] {
    } else {
      var n := |h| - 1;
      PairDecodes(model, h[..n]);
      StepDecodes(model, Pair(model, h[..n]), Pair(Everything(), h[..n]), n, h[n]);
    }
  }

  /** Every decoded span comes from a completion. */
  lemma {:induction false} DecodedFrom<State(!new), Op(!new)>(
    model: SequentialModel<State, Op>, completed: seq<Span<Triple>>, i: nat) returns (k: nat)
    requires i < |Decoded(model, completed)|
    ensures k < |completed| && Decode(model, completed[k]) == Some(Decoded(model, completed)[i])
  {
    var last := |completed| - 1;
    var before := Decoded(model, completed[..last]);
    if i < |before| {
      k := DecodedFrom(model, completed[..last], i);
    } else {
      k := last;
    }
  }

  /** Every completion that decodes is among the decoded spans. */
  lemma {:induction false} DecodedTo<State(!new), Op(!new)>(
    model: SequentialModel<State, Op>, completed: seq<Span<Triple>>, k: nat) returns (i: nat)
    requires k < |completed| && Decode(model, completed[k]).Some?
    ensures i < |Decoded(model, completed)| && Decoded(model, completed)[i] == Decode(model, completed[k]).value
  {
    var last := |completed| - 1;
    var before := Decoded(model, completed[..last]);
    if k < last {
      assert completed[..last][k] == completed[k];
      i := DecodedTo(model, completed[..last], k);
    } else {
      i := |before|;
    }
  }

  // ----- Processes -----

  /** The process that invoked a span's operation. */
  function ProcessOf<Op>(h: seq<OpEntry>, s: Span<Op>): nat {
    if s.start < |h| then h[s.start].process else 0
  }

  lemma {:induction false} StartsInHistory<State(!new), Op(!new)>(model: SequentialModel<State, Op>, h: seq<OpEntry>)
    ensures forall i :: 0 <= i < |Pair(model, h).spans| ==> Pair(model, h).spans[i].start < |h|
  {
    PairIsWellFormed(model, h);
    forall i | 0 <= i < |Pair(model, h).spans| ensures Pair(model, h).spans[i].start < |h| {
      assert WellFormedSpan(h, Pair(model, h).spans[i]);
    }
  }

  /** No invoke is answered twice. */
  ghost predicate StartsApart<Op>(st: Pairing<Op>) {
    && (forall i, j :: 0 <= i < j < |st.spans| ==> st.spans[i].start != st.spans[j].start)
    && (forall i, k :: 0 <= i < |st.spans| && 0 <= k < |st.open| ==> st.spans[i].start != st.open[k].0)
  }

  /** The invoke that is answered is neither open any more nor answered before. */
  lemma LeavesApart<Op>(h: seq<OpEntry>, st: Pairing<Op>, idx: nat)
    requires idx < |st.open| && OpenInvokes(h, st.open) && StartsApart(st)
    ensures var rest := st.open[..idx] + st.open[idx + 1..];
            && StartsApart(st.(open := rest))
            && (forall k :: 0 <= k < |rest| ==> rest[k].0 != st.open[idx].0)
            && (forall i :: 0 <= i < |st.spans| ==> st.spans[i].start != st.open[idx].0)
  {
    var rest := st.open[..idx] + st.open[idx + 1..];
    assert forall k :: 0 <= k < |rest| ==> rest[k] == if k < idx then st.open[k] else st.open[k + 1];
  }

  lemma StepStartsApart<State(!new), Op(!new)>(
    model: SequentialModel<State, Op>, h: seq<OpEntry>, st: Pairing<Op>, e: OpEntry)
    requires OpenInvokes(h, st.open) && SortedSpans(h, st.spans) && StartsApart(st)
    ensures StartsApart(PairStep(model, st, |h|, e))
  {
    forall i | 0 <= i < |st.spans| ensures st.spans[i].start < |h| {
      assert WellFormedSpan(h, st.spans[i]);
    }
    var last := LastOpen(st.open, e.process);
    if !e.kind.Invoke? && last.Some? {
      var (start, inv) := st.open[last.value];
      var rest := st.open[..last.value] + st.open[last.value + 1..];
      LeavesApart(h, st, last.value);
      if !e.kind.Fail? && model.decode(e.f, inv.value, e.value).Some? {
        var (op, response) := model.decode(e.f, inv.value, e.value).value;
        assert PairStep(model, st, |h|, e) == Pairing(rest, st.spans + [Span(op, response, start, |h|)]);
      } else {
        assert PairStep(model, st, |h|, e) == st.(open := rest);
      }
    }
  }

  lemma {:induction false} StartsDiffer<State(!new), Op(!new)>(model: SequentialModel<State, Op>, h: seq<OpEntry>)
    ensures StartsApart(Pair(model, h))
  {
    if h == [] {
    } else {
      var n := |h| - 1;
      StartsDiffer(model, h[..n]);
      PairIsWellFormed(model, h[..n]);
      StepStartsApart(model, h[..n], Pair(model, h[..n]), h[n]);
    }
  }

  // ----- Orders -----

  lemma ListedOnce(n: nat, order: seq<nat>)
    requires Lists(NoneDone(n), order)
    ensures forall a, b :: 0 <= a < b < |order| ==> order[a] != order[b]
  {
    forall a, b | 0 <= a < b < |order| ensures order[a] != order[b] {
      var rest := order[a + 1..];
      assert order == order[..a] + [order[a]] + rest;
      assert rest[b - a - 1] == order[b] && multiset(rest)[order[b]] >= 1;
      assert multiset(order)[order[a]] <= 1;
    }
  }

  lemma {:induction false} OnceListed(order: seq<nat>, s: set<nat>)
    requires forall a, b :: 0 <= a < b < |order| ==> order[a] != order[b]
    requires forall i :: i in s <==> i in order
    ensures multiset(order) == multiset(s)
  {
    if order == [] {
      assert s == {};
    } else {
      var rest, last := order[..|order| - 1], order[|order| - 1];
      assert order == rest + [last];
      assert last !in rest;
      OnceListed(rest, s - {last});
      assert s == (s - {last}) + {last};
    }
  }

  lemma {:induction false} AllIndices(n: nat)
    ensures |OpenIndices(NoneDone(n))| == n
    ensures |multiset(OpenIndices(NoneDone(n)))| == n
  {
    if n == 0 {
      assert OpenIndices(NoneDone(0)) == {};
    } else {
      AllIndices(n - 1);
      assert OpenIndices(NoneDone(n)) == OpenIndices(NoneDone(n - 1)) + {n - 1};
    }
  }

  /** As many positions as there are spans. */
  lemma {:induction false} ListedLength(n: nat, order: seq<nat>)
    requires Lists(NoneDone(n), order)
    ensures |order| == n
  {
    AllIndices(n);
    assert |order| == |multiset(order)|;
  }
}
