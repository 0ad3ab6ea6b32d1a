/** What it means that a history can be explained: an operation that is indeterminate
    (crates/propsim-history/src/op.rs), or that was never answered, may or may not have taken effect. */
module Explanations {
  import opened Ops
  import opened Spans
  import opened Linearizability
  import opened Completions

  // ----- Orders of operations -----

  /** An operation known to have taken effect. */
  predicate Definite<Op>(h: seq<OpEntry>, s: Span<Op>) {
    s.finish < |h| && !h[s.finish].kind.Info?
  }

  /** An order without repeats that leaves out only indeterminate operations. */
  ghost predicate Covers<Op>(h: seq<OpEntry>, spans: seq<Span<Op>>, order: seq<nat>) {
    && (forall a :: 0 <= a < |order| ==> order[a] < |spans|)
    && (forall a, b :: 0 <= a < b < |order| ==> order[a] != order[b])
    && (forall i: nat :: i < |spans| && Definite(h, spans[i]) ==> i in order)
  }

  /** An indeterminate operation may take effect at any time after its invoke. */
  ghost predicate RespectsDefinite<Op>(h: seq<OpEntry>, spans: seq<Span<Op>>, order: seq<nat>)
    requires forall a :: 0 <= a < |order| ==> order[a] < |spans|
  {
    forall a, b :: 0 <= a <= b < |order| && Definite(h, spans[order[b]]) ==>
      !(spans[order[b]].finish < spans[order[a]].start)
  }

  /** Operations of one process stay in the order they were invoked. */
  ghost predicate RespectsPrograms<Op>(h: seq<OpEntry>, spans: seq<Span<Op>>, order: seq<nat>)
    requires forall a :: 0 <= a < |order| ==> order[a] < |spans|
  {
    forall a, b :: 0 <= a < b < |order| && ProcessOf(h, spans[order[a]]) == ProcessOf(h, spans[order[b]]) ==>
      spans[order[a]].start < spans[order[b]].start
  }

  /** Real time, or without it the order of each process. */
  ghost predicate Respects<Op>(realTime: bool, h: seq<OpEntry>, spans: seq<Span<Op>>, order: seq<nat>)
    requires forall a :: 0 <= a < |order| ==> order[a] < |spans|
  {
    if realTime then RespectsDefinite(h, spans, order) else RespectsPrograms(h, spans, order)
  }

  /** Only definite operations have a response to be matched. */
  ghost predicate ReplaysDefinite<State(!new), Op(!new)>(
    model: SequentialModel<State, Op>, h: seq<OpEntry>, spans: seq<Span<Op>>, state: State, order: seq<nat>)
    requires forall a :: 0 <= a < |order| ==> order[a] < |spans|
    decreases |order|
  {
    order == [] ||
    var (next, response) := model.step(state, spans[order[0]].op);
    && (Definite(h, spans[order[0]]) ==> response == spans[order[0]].response)
    && ReplaysDefinite(model, h, spans, next, order[1..])
  }

  /** A linearization, or without real time a sequentially consistent order. */
  ghost predicate Explains<State(!new), Op(!new)>(
    model: SequentialModel<State, Op>, realTime: bool, h: seq<OpEntry>, spans: seq<Span<Op>>, order: seq<nat>)
  {
    && Covers(h, spans, order)
    && Respects(realTime, h, spans, order)
    && ReplaysDefinite(model, h, spans, model.init, order)
  }

  ghost predicate Explained<State(!new), Op(!new)>(
    model: SequentialModel<State, Op>, realTime: bool, h: seq<OpEntry>)
  {
    exists order :: Explains(model, realTime, h, Pair(model, h).spans, order)
  }

  // ----- Operations never answered -----

  /** The invokes a history leaves open. */
  function LeftOpen(h: seq<OpEntry>): seq<(nat, OpEntry)> {
    Pair(Everything(), h).open
  }

  /** An indeterminate answer, with some result, to an invoke left open. */
  predicate Resolves(h: seq<OpEntry>, e: OpEntry) {
    && e.kind.Info?
    && var idx := LastOpen(LeftOpen(h), e.process);
       idx.Some? && LeftOpen(h)[idx.value].1.f == e.f
  }

  ghost predicate AllResolve(h: seq<OpEntry>, tail: seq<OpEntry>)
    decreases |tail|
  {
    tail == [] ||
    (AllResolve(h, tail[..|tail| - 1]) && Resolves(h + tail[..|tail| - 1], tail[|tail| - 1]))
  }

  ghost predicate ExplainedWith<State(!new), Op(!new)>(
    model: SequentialModel<State, Op>, realTime: bool, h: seq<OpEntry>, tail: seq<OpEntry>)
  {
    AllResolve(h, tail) && Explained(model, realTime, h + tail)
  }

  /** The textbook notion, linearizability or sequential consistency: operations never answered may be
      given any result, and those and the indeterminate ones may be left out. */
  ghost predicate HistoryExplainable<State(!new), Op(!new)>(
    model: SequentialModel<State, Op>, realTime: bool, h: seq<OpEntry>)
  {
    exists tail :: ExplainedWith(model, realTime, h, tail)
  }

  lemma {:induction false} ExplainedAgain<State(!new), Op(!new)>(
    model: SequentialModel<State, Op>, realTime: bool, h: seq<OpEntry>, same: seq<OpEntry>)
    requires Explained(model, realTime, h) && same == h
    ensures Explained(model, realTime, same)
  {
  }

  lemma {:induction false} NothingResolves(h: seq<OpEntry>)
    ensures AllResolve(h, []) && h + [] == h
  {
  }

  lemma {:induction false} ExplainedAsIs<State(!new), Op(!new)>(
    model: SequentialModel<State, Op>, realTime: bool, h: seq<OpEntry>)
    requires Explained(model, realTime, h)
    ensures HistoryExplainable(model, realTime, h)
  {
    NothingResolves(h);
    ExplainedAgain(model, realTime, h, h + []);
    assert ExplainedWith(model, realTime, h, []);
  }

  lemma {:induction false} NothingToResolve(h: seq<OpEntry>, tail: seq<OpEntry>)
    requires LeftOpen(h) == [] && tail != []
    ensures !AllResolve(h, tail)
    decreases |tail|
  {
    var before := tail[..|tail| - 1];
    if before == [] {
      assert h + before == h;
    } else {
      NothingToResolve(h, before);
    }
  }

  /** Spans added since `h` are indeterminate and begin with an invoke `h` left open. */
  ghost predicate Adds<Op>(
    h: seq<OpEntry>, before: Pairing<Op>, open: seq<(nat, OpEntry)>, h': seq<OpEntry>, after: Pairing<Op>)
  {
    && before.spans <= after.spans
    && (forall k :: 0 <= k < |after.open| ==> after.open[k] in open)
    && (forall i :: |before.spans| <= i < |after.spans| ==>
          && |h| <= after.spans[i].finish < |h'| && h'[after.spans[i].finish].kind.Info?
          && exists k :: 0 <= k < |open| && open[k].0 == after.spans[i].start)
  }

  lemma LessOpen(open: seq<(nat, OpEntry)>, idx: nat)
    requires idx < |open|
    ensures var rest := open[..idx] + open[idx + 1..]; forall k :: 0 <= k < |rest| ==> rest[k] in open
  {
    var rest := open[..idx] + open[idx + 1..];
    forall k | 0 <= k < |rest| ensures rest[k] in open {
      assert rest[k] == if k < idx then open[k] else open[k + 1];
    }
  }

  lemma InfoAdds<State(!new), Op(!new)>(
    model: SequentialModel<State, Op>, h: seq<OpEntry>, h': seq<OpEntry>, st: Pairing<Op>, e: OpEntry)
    requires e.kind.Info? && h' == h + [e] && LastOpen(st.open, e.process).Some?
    ensures Adds(h, st, st.open, h', PairStep(model, st, |h|, e))
  {
    var idx := LastOpen(st.open, e.process).value;
    var rest := st.open[..idx] + st.open[idx + 1..];
    LessOpen(st.open, idx);
    var inv := st.open[idx].1;
    if model.decode(e.f, inv.value, e.value).Some? {
      var (op, response) := model.decode(e.f, inv.value, e.value).value;
      var s := Span(op, response, st.open[idx].0, |h|);
      assert PairStep(model, st, |h|, e) == Pairing(rest, st.spans + [s]);
    } else {
      assert PairStep(model, st, |h|, e) == st.(open := rest);
    }
  }

  lemma ResolvedStep<State(!new), Op(!new)>(
    model: SequentialModel<State, Op>, h: seq<OpEntry>, h': seq<OpEntry>, e: OpEntry)
    requires Resolves(h, e) && h' == h + [e]
    ensures Adds(h, Pair(model, h), Pair(model, h).open, h', Pair(model, h'))
  {
    PairDecodes(model, h);
    assert h'[..|h|] == h;
    InfoAdds(model, h, h', Pair(model, h), e);
  }

  lemma AddsMore<Op>(
    h: seq<OpEntry>, before: Pairing<Op>, h1: seq<OpEntry>, middle: Pairing<Op>, h2: seq<OpEntry>, after: Pairing<Op>)
    requires h <= h1 <= h2
    requires Adds(h, before, before.open, h1, middle) && Adds(h1, middle, middle.open, h2, after)
    ensures Adds(h, before, before.open, h2, after)
  {
    forall i | |before.spans| <= i < |after.spans|
      ensures |h| <= after.spans[i].finish < |h2| && h2[after.spans[i].finish].kind.Info?
      ensures exists k :: 0 <= k < |before.open| && before.open[k].0 == after.spans[i].start
    {
      if i < |middle.spans| {
        assert after.spans[i] == middle.spans[i];
      } else {
        var k :| 0 <= k < |middle.open| && middle.open[k].0 == after.spans[i].start;
        assert middle.open[k] in before.open;
      }
    }
  }

  /** Answers to open invokes add spans that are indeterminate and begin with an invoke left open. */
  lemma {:induction false} ResolvedSpans<State(!new), Op(!new)>(
    model: SequentialModel<State, Op>, h: seq<OpEntry>, tail: seq<OpEntry>, h': seq<OpEntry>)
    requires AllResolve(h, tail) && h' == h + tail
    ensures Adds(h, Pair(model, h), Pair(model, h).open, h', Pair(model, h'))
    decreases |tail|
  {
    if tail == [] {
      assert h' == h;
    } else {
      var last := |tail| - 1;
      var h1 := h + tail[..last];
      assert h' == h1 + [tail[last]];
      ResolvedSpans(model, h, tail[..last], h1);
      ResolvedStep(model, h1, h', tail[last]);
      AddsMore(h, Pair(model, h), h1, Pair(model, h1), h', Pair(model, h'));
    }
  }

  // ----- Cutting off what was never answered -----

  lemma {:induction false} PrefixReplays<State(!new), Op(!new)>(
    model: SequentialModel<State, Op>, h: seq<OpEntry>, spans: seq<Span<Op>>, h': seq<OpEntry>, spans': seq<Span<Op>>,
    state: State, order: seq<nat>, c: nat)
    requires c <= |order| && spans <= spans' && forall a :: 0 <= a < |order| ==> order[a] < |spans'|
    requires forall a :: 0 <= a < c ==> order[a] < |spans|
    requires forall i :: 0 <= i < |spans| ==> Definite(h, spans[i]) == Definite(h', spans'[i])
    requires ReplaysDefinite(model, h', spans', state, order)
    ensures forall a :: 0 <= a < c ==> order[..c][a] < |spans|
    ensures ReplaysDefinite(model, h, spans, state, order[..c])
    decreases |order|
  {
    if c == 0 {
    } else {
      assert spans[order[0]] == spans'[order[0]];
      assert order[..c][1..] == order[1..][..c - 1];
      PrefixReplays(model, h, spans, h', spans', model.step(state, spans[order[0]].op).0, order[1..], c - 1);
    }
  }

  lemma {:induction false} FirstFrom(order: seq<nat>, n: nat) returns (c: nat)
    ensures c <= |order| && (forall a :: 0 <= a < c ==> order[a] < n) && (c < |order| ==> order[c] >= n)
    decreases |order|
  {
    if order == [] || order[0] >= n {
      c := 0;
    } else {
      c := FirstFrom(order[1..], n);
      c := c + 1;
      assert forall a :: 0 < a < c ==> order[a] == order[1..][a - 1];
    }
  }

  /** What was there before means the same after. */
  lemma SameBefore<Op>(h: seq<OpEntry>, spans: seq<Span<Op>>, h': seq<OpEntry>, spans': seq<Span<Op>>, i: nat)
    requires h <= h' && spans <= spans' && i < |spans| && spans[i].start < |h| && spans[i].finish < |h|
    ensures spans'[i] == spans[i]
    ensures Definite(h, spans[i]) == Definite(h', spans[i]) && ProcessOf(h, spans[i]) == ProcessOf(h', spans[i])
  {
  }

  lemma KeptCovers<Op>(
    h: seq<OpEntry>, spans: seq<Span<Op>>, h': seq<OpEntry>, spans': seq<Span<Op>>, order: seq<nat>, c: nat)
    requires h <= h' && spans <= spans' && c <= |order| && Covers(h', spans', order)
    requires forall i :: 0 <= i < |spans| ==> spans[i].start < |h| && spans[i].finish < |h|
    requires forall a :: 0 <= a < c ==> order[a] < |spans|
    requires forall a :: c <= a < |order| ==> order[a] >= |spans|
    ensures Covers(h, spans, order[..c])
  {
    var kept := order[..c];
    forall i: nat | i < |spans| && Definite(h, spans[i]) ensures i in kept {
      SameBefore(h, spans, h', spans', i);
      var a :| 0 <= a < |order| && order[a] == i;
      assert kept[a] == i;
    }
  }

  lemma KeptRespects<Op>(
    realTime: bool, h: seq<OpEntry>, spans: seq<Span<Op>>, h': seq<OpEntry>, spans': seq<Span<Op>>,
    order: seq<nat>, c: nat)
    requires h <= h' && spans <= spans' && c <= |order| && forall a :: 0 <= a < |order| ==> order[a] < |spans'|
    requires Respects(realTime, h', spans', order)
    requires forall i :: 0 <= i < |spans| ==> spans[i].start < |h| && spans[i].finish < |h|
    requires forall a :: 0 <= a < c ==> order[..c][a] < |spans|
    ensures Respects(realTime, h, spans, order[..c])
  {
    var kept := order[..c];
    forall a, b | 0 <= a <= b < c
      ensures spans[kept[a]] == spans'[order[a]] && spans[kept[b]] == spans'[order[b]]
      ensures Definite(h, spans[kept[b]]) == Definite(h', spans'[order[b]])
      ensures ProcessOf(h, spans[kept[a]]) == ProcessOf(h', spans'[order[a]])
      ensures ProcessOf(h, spans[kept[b]]) == ProcessOf(h', spans'[order[b]])
    {
      SameBefore(h, spans, h', spans', order[a]);
      SameBefore(h, spans, h', spans', order[b]);
    }
  }

  /** An order that puts what was added last explains the history without it. */
  lemma {:induction false} CutOff<State(!new), Op(!new)>(
    model: SequentialModel<State, Op>, realTime: bool, h: seq<OpEntry>, spans: seq<Span<Op>>,
    h': seq<OpEntry>, spans': seq<Span<Op>>, order: seq<nat>) returns (kept: seq<nat>)
    requires h <= h' && spans <= spans' && Explains(model, realTime, h', spans', order)
    requires forall i :: 0 <= i < |spans| ==> spans[i].start < |h| && spans[i].finish < |h|
    requires forall a, b :: 0 <= a < b < |order| && order[a] >= |spans| ==> order[b] >= |spans|
    ensures Explains(model, realTime, h, spans, kept)
  {
    var c := FirstFrom(order, |spans|);
    kept := order[..c];
    forall i | 0 <= i < |spans| ensures Definite(h, spans[i]) == Definite(h', spans'[i]) {
      SameBefore(h, spans, h', spans', i);
    }
    PrefixReplays(model, h, spans, h', spans', model.init, order, c);
    KeptCovers(h, spans, h', spans', order, c);
    KeptRespects(realTime, h, spans, h', spans', order, c);
  }

  /** A completion comes before an open invoke in every order: it finished first, or without real time the
      process that invoked had completed it. */
  predicate Precedes(realTime: bool, h: seq<OpEntry>, s: Span<Triple>, open: (nat, OpEntry)) {
    if realTime then s.finish < open.0 else ProcessOf(h, s) == open.1.process && s.start < open.0
  }

  /** Nothing was completed that an operation never answered could have come before. */
  ghost predicate OpensLast(realTime: bool, h: seq<OpEntry>) {
    forall i, k :: 0 <= i < |Completed(h)| && 0 <= k < |LeftOpen(h)| ==>
      Precedes(realTime, h, Completed(h)[i], LeftOpen(h)[k])
  }

  // ----- When nothing is indeterminate -----

  /** The terminal entry at `i` answers an invoke that is open when it is recorded. */
  predicate Answers(h: seq<OpEntry>, i: nat)
    requires i < |h|
  {
    !h[i].kind.Invoke? && LastOpen(Pair(Everything(), h[..i]).open, h[i].process).Some?
  }

  /** No indeterminate entry answers an invoke. */
  ghost predicate AnswersAreDefinite(h: seq<OpEntry>) {
    forall i :: 0 <= i < |h| && h[i].kind.Info? ==> !Answers(h, i)
  }

  ghost predicate CompletionsAreDefinite(h: seq<OpEntry>) {
    forall k :: 0 <= k < |Completed(h)| ==> Definite(h, Completed(h)[k])
  }

  lemma AnswersBefore(h: seq<OpEntry>, i: nat)
    requires i + 1 < |h|
    ensures Answers(h[..|h| - 1], i) == Answers(h, i)
  {
    assert h[..|h| - 1][..i] == h[..i];
  }

  lemma DefinitePrefix(h: seq<OpEntry>)
    requires h != []
    ensures var last := |h| - 1;
            AnswersAreDefinite(h) <==> AnswersAreDefinite(h[..last]) && (h[last].kind.Info? ==> !Answers(h, last))
  {
    var last := |h| - 1;
    if AnswersAreDefinite(h) {
      forall i | 0 <= i < last && h[..last][i].kind.Info? ensures !Answers(h[..last], i) {
        AnswersBefore(h, i);
      }
    }
    if AnswersAreDefinite(h[..last]) && (h[last].kind.Info? ==> !Answers(h, last)) {
      forall i | 0 <= i < |h| && h[i].kind.Info? ensures !Answers(h, i) {
        if i < last {
          AnswersBefore(h, i);
          assert h[..last][i] == h[i];
        }
      }
    }
  }

  lemma CompletionsStep(h: seq<OpEntry>)
    requires h != [] && SortedSpans(h[..|h| - 1], Completed(h[..|h| - 1]))
    ensures CompletionsAreDefinite(h) <==>
              CompletionsAreDefinite(h[..|h| - 1]) && (h[|h| - 1].kind.Info? ==> !Answers(h, |h| - 1))
  {
    var n := |h| - 1;
    var before, after := Completed(h[..n]), Completed(h);
    forall k | 0 <= k < |before| ensures after[k] == before[k] && Definite(h, after[k]) == Definite(h[..n], before[k]) {
      assert WellFormedSpan(h[..n], before[k]);
    }
    if CompletionsAreDefinite(h) {
      forall k | 0 <= k < |before| ensures Definite(h[..n], before[k]) {
        assert Definite(h, after[k]);
      }
    }
    if |after| > |before| {
      assert after[|before|].finish == n;
    }
  }

  /** An indeterminate entry that answers an invoke is an indeterminate completion, and the other way
      round. */
  lemma {:induction false} AnswersComplete(h: seq<OpEntry>)
    ensures AnswersAreDefinite(h) <==> CompletionsAreDefinite(h)
  {
    if h == [] {
    } else {
      var n := |h| - 1;
      DefinitePrefix(h);
      AnswersComplete(h[..n]);
      PairIsWellFormed(Everything(), h[..n]);
      CompletionsStep(h);
    }
  }

  /** Where no indeterminate entry answers an invoke, every model sees definite operations only. */
  lemma {:induction false} SpansAreDefinite<State(!new), Op(!new)>(model: SequentialModel<State, Op>, h: seq<OpEntry>)
    requires AnswersAreDefinite(h)
    ensures forall i :: 0 <= i < |Pair(model, h).spans| ==> Definite(h, Pair(model, h).spans[i])
  {
    AnswersComplete(h);
    PairDecodes(model, h);
    forall i | 0 <= i < |Pair(model, h).spans| ensures Definite(h, Pair(model, h).spans[i]) {
      var k := DecodedFrom(model, Completed(h), i);
      assert Definite(h, Completed(h)[k]);
    }
  }

  lemma {:induction false} ReplaysLoosely<State(!new), Op(!new)>(
    model: SequentialModel<State, Op>, h: seq<OpEntry>, spans: seq<Span<Op>>, state: State, order: seq<nat>)
    requires forall a :: 0 <= a < |order| ==> order[a] < |spans|
    ensures Replays(model, spans, state, order) ==> ReplaysDefinite(model, h, spans, state, order)
    ensures (forall i :: 0 <= i < |spans| ==> Definite(h, spans[i])) ==>
              (Replays(model, spans, state, order) <==> ReplaysDefinite(model, h, spans, state, order))
    decreases |order|
  {
    if order == [] {
    } else {
      ReplaysLoosely(model, h, spans, model.step(state, spans[order[0]].op).0, order[1..]);
    }
  }

  /** A linearization explains, if it keeps the program order where real time does not matter. */
  lemma LinearizationExplains<State(!new), Op(!new)>(
    model: SequentialModel<State, Op>, realTime: bool, h: seq<OpEntry>, spans: seq<Span<Op>>, order: seq<nat>)
    requires IsLinearization(model, realTime, spans, order)
    requires realTime || RespectsPrograms(h, spans, order)
    ensures Explains(model, realTime, h, spans, order)
  {
    ListedAreOpen(NoneDone(|spans|), order);
    ListedOnce(|spans|, order);
    ReplaysLoosely(model, h, spans, model.init, order);
  }

  /** Of definite operations every explanation is a linearization. */
  lemma ExplanationLinearizes<State(!new), Op(!new)>(
    model: SequentialModel<State, Op>, realTime: bool, h: seq<OpEntry>, spans: seq<Span<Op>>, order: seq<nat>)
    requires forall i :: 0 <= i < |spans| ==> Definite(h, spans[i])
    requires Explains(model, realTime, h, spans, order)
    ensures IsLinearization(model, realTime, spans, order)
  {
    forall i ensures i in OpenIndices(NoneDone(|spans|)) <==> i in order {
      if 0 <= i < |spans| {
        assert Definite(h, spans[i]);
      }
    }
    OnceListed(order, OpenIndices(NoneDone(|spans|)));
    ReplaysLoosely(model, h, spans, model.init, order);
  }

  /** What precedes every open invoke precedes whatever it is answered with. */
  lemma {:induction false} PendingFollows<State(!new), Op(!new)>(
    model: SequentialModel<State, Op>, realTime: bool, h: seq<OpEntry>, tail: seq<OpEntry>, i: nat, m: nat)
    requires AnswersAreDefinite(h) && OpensLast(realTime, h) && AllResolve(h, tail)
    requires i < |Pair(model, h).spans| <= m < |Pair(model, h + tail).spans|
    ensures i < |Pair(model, h + tail).spans|
    ensures var h', s, t := h + tail, Pair(model, h + tail).spans[i], Pair(model, h + tail).spans[m];
            && Definite(h', s)
            && if realTime then s.finish < t.start else ProcessOf(h', s) == ProcessOf(h', t) && s.start < t.start
  {
    var spans, spans' := Pair(model, h).spans, Pair(model, h + tail).spans;
    ResolvedSpans(model, h, tail, h + tail);
    SpansAreDefinite(model, h);
    PairDecodes(model, h);
    PairIsWellFormed(Everything(), h);
    var k :| 0 <= k < |LeftOpen(h)| && LeftOpen(h)[k].0 == spans'[m].start;
    assert ProcessOf(h + tail, spans'[m]) == LeftOpen(h)[k].1.process;
    var c := DecodedFrom(model, Completed(h), i);
    assert Precedes(realTime, h, Completed(h)[c], LeftOpen(h)[k]);
    assert WellFormedSpan(h, Completed(h)[c]);
    SameBefore(h, spans, h + tail, spans', i);
  }

  /** In an explanation nothing comes after an answer to an open invoke but other such answers. */
  lemma {:induction false} PendingLast<State(!new), Op(!new)>(
    model: SequentialModel<State, Op>, realTime: bool, h: seq<OpEntry>, tail: seq<OpEntry>, order: seq<nat>,
    a: nat, b: nat)
    requires AnswersAreDefinite(h) && OpensLast(realTime, h) && AllResolve(h, tail)
    requires Explains(model, realTime, h + tail, Pair(model, h + tail).spans, order)
    requires a < b < |order| && order[a] >= |Pair(model, h).spans|
    ensures order[b] >= |Pair(model, h).spans|
  {
    if order[b] < |Pair(model, h).spans| {
      PendingFollows(model, realTime, h, tail, order[b], order[a]);
      assert false;
    }
  }

  /** Where nothing is indeterminate and no completion could have come after an open invoke, operations
      never answered are not needed to explain a history. */
  lemma {:induction false} ExplainedWithout<State(!new), Op(!new)>(
    model: SequentialModel<State, Op>, realTime: bool, h: seq<OpEntry>)
    requires AnswersAreDefinite(h) && OpensLast(realTime, h)
    ensures HistoryExplainable(model, realTime, h) <==> Explained(model, realTime, h)
  {
    if Explained(model, realTime, h) {
      ExplainedAsIs(model, realTime, h);
    }
    if HistoryExplainable(model, realTime, h) {
      var tail :| ExplainedWith(model, realTime, h, tail);
      var spans, spans' := Pair(model, h).spans, Pair(model, h + tail).spans;
      var order :| Explains(model, realTime, h + tail, spans', order);
      forall a, b | 0 <= a < b < |order| && order[a] >= |spans| ensures order[b] >= |spans| {
        PendingLast(model, realTime, h, tail, order, a, b);
      }
      ResolvedSpans(model, h, tail, h + tail);
      PairIsWellFormed(model, h);
      forall i | 0 <= i < |spans| ensures spans[i].start < |h| && spans[i].finish < |h| {
        assert WellFormedSpan(h, spans[i]);
      }
      var kept := CutOff(model, realTime, h, spans, h + tail, spans', order);
    }
  }
}
