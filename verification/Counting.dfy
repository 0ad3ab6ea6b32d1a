/** A model on which the checker goes wrong: it counts operations, answers the first few as recorded,
    and later ones only once it has seen a marker. */
module Counting {
  import opened Ops
  import opened Spans
  import opened Linearizability
  import opened Completions
  import opened Explanations

  // ----- The model -----

  /** A value other than `v`. */
  function Other(v: Value): (w: Value)
    ensures w != v
  {
    if v.Nil? then Bool(true) else Nil
  }

  /** Answers as recorded only the first `d` times, or once the marker has been seen. */
  function Tally(d: nat, marker: Value): SequentialModel<int, Value> {
    SequentialModel(
      0,
      (count: int, r: Value) =>
        if r == marker || count < 0 then (-1, r) else (count + 1, if count < d then r else Other(r)),
      (f: string, invoked: Value, returned: Value) => Some((returned, returned)))
  }

  /** Spans whose operation is the response they recorded. */
  ghost predicate Echoes(spans: seq<Span<Value>>) {
    forall i :: 0 <= i < |spans| ==> spans[i].op == spans[i].response
  }

  lemma {:induction false} TallyDecodes(d: nat, marker: Value, completed: seq<Span<Triple>>)
    ensures var spans := Decoded(Tally(d, marker), completed);
            && |spans| == |completed| && Echoes(spans)
            && forall i :: 0 <= i < |completed| ==>
                 && spans[i].op == completed[i].op.returned
                 && spans[i].start == completed[i].start && spans[i].finish == completed[i].finish
  {
    if completed == [] {
    } else {
      TallyDecodes(d, marker, completed[..|completed| - 1]);
    }
  }

  /** Not too many operations are answered as recorded, and after the marker any number is. */
  lemma {:induction false} TallyReplays(
    d: nat, marker: Value, h: seq<OpEntry>, spans: seq<Span<Value>>, count: int, order: seq<nat>)
    requires Echoes(spans) && (count < 0 || count + |order| <= d)
    requires forall a :: 0 <= a < |order| ==> order[a] < |spans|
    ensures ReplaysDefinite(Tally(d, marker), h, spans, count, order)
    decreases |order|
  {
    if order == [] {
    } else {
      TallyReplays(d, marker, h, spans, Tally(d, marker).step(count, spans[order[0]].op).0, order[1..]);
    }
  }

  lemma {:induction false} MarkedReplays(
    d: nat, marker: Value, h: seq<OpEntry>, spans: seq<Span<Value>>, count: int, before: seq<nat>, m: nat,
    after: seq<nat>)
    requires Echoes(spans) && (count < 0 || count + |before| <= d)
    requires forall a :: 0 <= a < |before| ==> before[a] < |spans|
    requires forall a :: 0 <= a < |after| ==> after[a] < |spans|
    requires m < |spans| && spans[m].op == marker
    ensures ReplaysDefinite(Tally(d, marker), h, spans, count, before + [m] + after)
    decreases |before|
  {
    var order := before + [m] + after;
    if before == [] {
      assert order[1..] == after;
      TallyReplays(d, marker, h, spans, -1, after);
    } else {
      assert order[1..] == before[1..] + [m] + after;
      MarkedReplays(d, marker, h, spans, Tally(d, marker).step(count, spans[before[0]].op).0, before[1..], m, after);
    }
  }

  lemma {:induction false} TallyRejects(
    d: nat, marker: Value, spans: seq<Span<Value>>, count: int, order: seq<nat>)
    requires Echoes(spans) && 0 <= count <= d < count + |order|
    requires forall i :: 0 <= i < |spans| ==> spans[i].op != marker
    requires forall a :: 0 <= a < |order| ==> order[a] < |spans|
    ensures !Replays(Tally(d, marker), spans, count, order)
    decreases |order|
  {
    var s := spans[order[0]];
    if count == d {
      assert Tally(d, marker).step(count, s.op) == (count + 1, Other(s.op));
    } else {
      assert Tally(d, marker).step(count, s.op) == (count + 1, s.op);
      TallyRejects(d, marker, spans, count + 1, order[1..]);
    }
  }

  /** No completion carries the marker. */
  ghost predicate Unmarked(marker: Value, h: seq<OpEntry>) {
    forall i :: 0 <= i < |Completed(h)| ==> Completed(h)[i].op.returned != marker
  }

  /** Too many completions, and the checker rejects. */
  lemma {:induction false} NeverLinearizes(d: nat, marker: Value, realTime: bool, h: seq<OpEntry>)
    requires Unmarked(marker, h) && d < |Completed(h)|
    ensures !HistoryLinearizable(Tally(d, marker), realTime, h)
  {
    var model := Tally(d, marker);
    var spans := Pair(model, h).spans;
    PairDecodes(model, h);
    TallyDecodes(d, marker, Completed(h));
    forall order ensures !IsLinearization(model, realTime, spans, order) {
      if Lists(NoneDone(|spans|), order) && forall a :: 0 <= a < |order| ==> order[a] < |spans| {
        ListedLength(|spans|, order);
        TallyRejects(d, marker, spans, 0, order);
      }
    }
  }

  // ----- A marker -----

  function Longest(completed: seq<Span<Triple>>): (n: nat)
    ensures forall i :: 0 <= i < |completed| && completed[i].op.returned.Str? ==> |completed[i].op.returned.s| <= n
  {
    if completed == [] then 0
    else
      var last := |completed| - 1;
      var n := Longest(completed[..last]);
      if completed[last].op.returned.Str? && |completed[last].op.returned.s| > n then |completed[last].op.returned.s|
      else n
  }

  /** A value no completion carries. */
  function Fresh(h: seq<OpEntry>): (marker: Value)
    ensures Unmarked(marker, h)
  {
    Str(seq(Longest(Completed(h)) + 1, _ => 'm'))
  }

  /** An answer to the latest open invoke of a process. */
  lemma AnswersLast(h: seq<OpEntry>, p: nat, v: Value) returns (e: OpEntry)
    requires LastOpen(LeftOpen(h), p).Some?
    ensures Resolves(h, e)
    ensures var open, idx := LeftOpen(h), LastOpen(LeftOpen(h), p).value;
            var s := Span(Triple(e.f, open[idx].1.value, v), Nil, open[idx].0, |h|);
            Pair(Everything(), h + [e]) == Pairing(open[..idx] + open[idx + 1..], Completed(h) + [s])
  {
    var idx := LastOpen(LeftOpen(h), p).value;
    e := OpEntry(0, Time(0, Virtual), Info, p, LeftOpen(h)[idx].1.f, v);
    assert (h + [e])[..|h|] == h;
  }

  lemma ResolveMore(h: seq<OpEntry>, tail: seq<OpEntry>, e: OpEntry) returns (tail': seq<OpEntry>)
    requires AllResolve(h, tail) && Resolves(h + tail, e)
    ensures tail' == tail + [e] && h + tail' == h + tail + [e] && AllResolve(h, tail')
  {
    tail' := tail + [e];
    assert tail'[..|tail|] == tail;
  }

  /** Any invoke left open can be given any result: the later ones of its process are answered before
      it. */
  lemma {:induction false} AnswersUpTo(h: seq<OpEntry>, tail: seq<OpEntry>, k: nat, v: Value)
    returns (tail': seq<OpEntry>, i: nat)
    requires AllResolve(h, tail) && k < |LeftOpen(h + tail)|
    ensures AllResolve(h, tail') && i < |Completed(h + tail')|
    ensures Completed(h + tail')[i].start == LeftOpen(h + tail)[k].0 && Completed(h + tail')[i].op.returned == v
    ensures |h| + |tail| <= Completed(h + tail')[i].finish
    decreases |LeftOpen(h + tail)|
  {
    var g := h + tail;
    var open := LeftOpen(g);
    var idx := LastOpen(open, open[k].1.process).value;
    var e := AnswersLast(g, open[k].1.process, v);
    tail' := ResolveMore(h, tail, e);
    assert h + tail' == g + [e];
    if k == idx {
      i := |Completed(g)|;
    } else {
      tail', i := AnswersUpTo(h, tail', k, v);
    }
  }

  // ----- Orders -----

  /** What operations are put in order by: their finish, or without real time their start. */
  function Key<Op>(realTime: bool, s: Span<Op>): nat {
    if realTime then s.finish else s.start
  }

  ghost predicate Ascending<Op>(realTime: bool, spans: seq<Span<Op>>, order: seq<nat>) {
    && (forall a :: 0 <= a < |order| ==> order[a] < |spans|)
    && forall a, b :: 0 <= a < b < |order| ==> Key(realTime, spans[order[a]]) < Key(realTime, spans[order[b]])
  }

  ghost predicate KeysApart<Op>(realTime: bool, spans: seq<Span<Op>>) {
    forall i, j :: 0 <= i < j < |spans| ==> Key(realTime, spans[i]) != Key(realTime, spans[j])
  }

  /** The operations picked, in order. */
  lemma {:induction false} Picked<Op>(realTime: bool, spans: seq<Span<Op>>, pick: set<nat>, bound: nat)
    returns (order: seq<nat>)
    requires KeysApart(realTime, spans) && forall i :: i in pick ==> i < |spans|
    ensures Ascending(realTime, spans, order)
    ensures forall a :: 0 <= a < |order| ==> order[a] in pick && Key(realTime, spans[order[a]]) < bound
    ensures forall i :: i in pick && Key(realTime, spans[i]) < bound ==> i in order
  {
    if bound == 0 {
      order := [];
    } else {
      order := Picked(realTime, spans, pick, bound - 1);
      if i :| i in pick && Key(realTime, spans[i]) == bound - 1 {
        order := order + [i];
      }
    }
  }

  lemma AscendingOnce<Op>(realTime: bool, spans: seq<Span<Op>>, order: seq<nat>)
    requires Ascending(realTime, spans, order)
    ensures forall a, b :: 0 <= a < b < |order| ==> order[a] != order[b]
  {
    forall a, b | 0 <= a < b < |order| ensures order[a] != order[b] {
      assert Key(realTime, spans[order[a]]) < Key(realTime, spans[order[b]]);
    }
  }

  /** Two parts of the operations, each in order. */
  lemma {:induction false} Divided<Op>(realTime: bool, spans: seq<Span<Op>>, bound: nat, early: set<nat>)
    returns (before: seq<nat>, after: seq<nat>)
    requires KeysApart(realTime, spans) && forall i :: 0 <= i < |spans| ==> Key(realTime, spans[i]) < bound
    requires forall i :: i in early ==> i < |spans|
    ensures Ascending(realTime, spans, before) && Ascending(realTime, spans, after)
    ensures forall i :: 0 <= i < |spans| ==> (i in before <==> i in early) && (i in after <==> i !in early)
    ensures |before| + |after| == |spans|
  {
    var all := OpenIndices(NoneDone(|spans|));
    before := Picked(realTime, spans, early, bound);
    after := Picked(realTime, spans, all - early, bound);
    AscendingOnce(realTime, spans, before);
    AscendingOnce(realTime, spans, after);
    var order := before + after;
    forall a, b | 0 <= a < b < |order| ensures order[a] != order[b] {
      if a < |before| <= b {
        assert order[a] in early && order[b] in all - early;
      }
    }
    forall i ensures i in all <==> i in order {
      if i in order {
        assert i in before || i in after;
      }
    }
    OnceListed(order, all);
    ListedLength(|spans|, order);
  }

  // ----- Histories it explains -----

  lemma {:induction false} CompletionsApart(realTime: bool, h: seq<OpEntry>)
    ensures KeysApart(realTime, Completed(h))
    ensures forall i :: 0 <= i < |Completed(h)| ==>
              Completed(h)[i].start < Completed(h)[i].finish < |h| && Key(realTime, Completed(h)[i]) < |h|
  {
    PairIsWellFormed(Everything(), h);
    StartsDiffer(Everything(), h);
    forall i | 0 <= i < |Completed(h)| ensures Completed(h)[i].start < Completed(h)[i].finish < |h| {
      assert WellFormedSpan(h, Completed(h)[i]);
    }
  }

  lemma AscendingRespects<Op>(realTime: bool, h: seq<OpEntry>, spans: seq<Span<Op>>, order: seq<nat>)
    requires Ascending(realTime, spans, order)
    requires forall i :: 0 <= i < |spans| ==> spans[i].start < spans[i].finish
    ensures Respects(realTime, h, spans, order)
  {
    forall a, b | 0 <= a <= b < |order| ensures realTime ==> !(spans[order[b]].finish < spans[order[a]].start) {
      assert a < b ==> Key(realTime, spans[order[a]]) < Key(realTime, spans[order[b]]);
    }
  }

  /** An order of completions is an order of what the model makes of them. */
  lemma {:induction false} TallyExplains(
    d: nat, marker: Value, realTime: bool, h: seq<OpEntry>, order: seq<nat>)
    requires Covers(h, Completed(h), order) && Respects(realTime, h, Completed(h), order)
    requires forall spans: seq<Span<Value>> ::
               |spans| == |Completed(h)| && Echoes(spans)
               && (forall i :: 0 <= i < |spans| ==> spans[i].op == Completed(h)[i].op.returned) ==>
                 ReplaysDefinite(Tally(d, marker), h, spans, 0, order)
    ensures Explained(Tally(d, marker), realTime, h)
  {
    var model := Tally(d, marker);
    var spans := Pair(model, h).spans;
    PairDecodes(model, h);
    TallyDecodes(d, marker, Completed(h));
    assert forall i :: 0 <= i < |spans| ==> Definite(h, spans[i]) == Definite(h, Completed(h)[i]);
    assert Explains(model, realTime, h, spans, order);
  }

  /** One indeterminate completion: what is definite explains the history, and all in all there is one too
      many. */
  lemma {:induction false} IndefiniteFails(realTime: bool, h: seq<OpEntry>) returns (d: nat, marker: Value)
    requires !AnswersAreDefinite(h)
    ensures HistoryExplainable(Tally(d, marker), realTime, h) && !HistoryLinearizable(Tally(d, marker), realTime, h)
  {
    AnswersComplete(h);
    var completed := Completed(h);
    var definite := set i: nat | i < |completed| && Definite(h, completed[i]);
    CompletionsApart(realTime, h);
    var before, after := Divided(realTime, completed, |h|, definite);
    d, marker := |before|, Fresh(h);
    var k :| 0 <= k < |completed| && !Definite(h, completed[k]);
    assert k in after;
    AscendingOnce(realTime, completed, before);
    AscendingRespects(realTime, h, completed, before);
    forall spans: seq<Span<Value>> | |spans| == |completed| && Echoes(spans)
      ensures ReplaysDefinite(Tally(d, marker), h, spans, 0, before)
    {
      TallyReplays(d, marker, h, spans, 0, before);
    }
    TallyExplains(d, marker, realTime, h, before);
    ExplainedAsIs(Tally(d, marker), realTime, h);
    NeverLinearizes(d, marker, realTime, h);
  }

  /** An operation never answered, `m`, put between what precedes it and the rest. */
  lemma AroundRespects<Op>(
    realTime: bool, h: seq<OpEntry>, spans: seq<Span<Op>>, before: seq<nat>, m: nat, after: seq<nat>)
    requires Ascending(realTime, spans, before) && Ascending(realTime, spans, after) && m < |spans|
    requires forall i :: 0 <= i < |spans| ==> spans[i].start < spans[i].finish
    requires forall a :: 0 <= a < |before| ==>
               if realTime then spans[before[a]].finish < spans[m].start
               else ProcessOf(h, spans[before[a]]) == ProcessOf(h, spans[m]) && spans[before[a]].start < spans[m].start
    requires forall a :: 0 <= a < |after| ==>
               if realTime then spans[m].start < spans[after[a]].finish
               else ProcessOf(h, spans[after[a]]) == ProcessOf(h, spans[m]) ==> spans[m].start < spans[after[a]].start
    requires !Definite(h, spans[m])
    ensures Respects(realTime, h, spans, before + [m] + after)
  {
    var order := before + [m] + after;
    var n := |before|;
    AscendingRespects(realTime, h, spans, before);
    AscendingRespects(realTime, h, spans, after);
    if realTime {
      forall a, b | 0 <= a <= b < |order| && Definite(h, spans[order[b]])
        ensures !(spans[order[b]].finish < spans[order[a]].start)
      {
        assert a > n ==> order[a] == after[a - n - 1];
        assert b > n ==> order[b] == after[b - n - 1];
      }
    } else {
      forall a, b | 0 <= a < b < |order| && ProcessOf(h, spans[order[a]]) == ProcessOf(h, spans[order[b]])
        ensures spans[order[a]].start < spans[order[b]].start
      {
        assert a > n ==> order[a] == after[a - n - 1];
        assert b > n ==> order[b] == after[b - n - 1];
      }
    }
  }

  lemma AroundCovers<Op>(
    h: seq<OpEntry>, spans: seq<Span<Op>>, n: nat, before: seq<nat>, m: nat, after: seq<nat>)
    requires n <= m < |spans| && forall i :: n <= i < |spans| ==> !Definite(h, spans[i])
    requires forall a, b :: 0 <= a < b < |before| ==> before[a] != before[b]
    requires forall a, b :: 0 <= a < b < |after| ==> after[a] != after[b]
    requires forall a :: 0 <= a < |before| ==> before[a] < n && before[a] !in after
    requires forall a :: 0 <= a < |after| ==> after[a] < n
    requires forall i :: 0 <= i < n ==> i in before || i in after
    ensures Covers(h, spans, before + [m] + after)
  {
    var order := before + [m] + after;
    forall a, b | 0 <= a < b < |order| ensures order[a] != order[b] {
      assert b > |before| ==> order[b] == after[b - |before| - 1];
      assert a > |before| ==> order[a] == after[a - |before| - 1];
    }
    forall i: nat | i < |spans| && Definite(h, spans[i]) ensures i in order {
      assert i in before || i in after;
    }
  }

  /** What is left of the history's completions once an invoke left open is answered. */
  lemma {:induction false} AfterResolving(realTime: bool, h: seq<OpEntry>, tail: seq<OpEntry>, k: nat, m: nat)
    requires AllResolve(h, tail) && k < |LeftOpen(h)| && m < |Completed(h + tail)|
    requires Completed(h + tail)[m].start == LeftOpen(h)[k].0 && |h| <= Completed(h + tail)[m].finish
    ensures Completed(h) <= Completed(h + tail) && |Completed(h)| <= m
    ensures forall i :: |Completed(h)| <= i < |Completed(h + tail)| ==> !Definite(h + tail, Completed(h + tail)[i])
    ensures var h', s := h + tail, Completed(h + tail)[m];
            forall i :: 0 <= i < |Completed(h)| ==>
              && (Precedes(realTime, h, Completed(h)[i], LeftOpen(h)[k]) ==>
                    if realTime then Completed(h)[i].finish < s.start
                    else ProcessOf(h', Completed(h)[i]) == ProcessOf(h', s) && Completed(h)[i].start < s.start)
              && (!Precedes(realTime, h, Completed(h)[i], LeftOpen(h)[k]) ==>
                    if realTime then s.start < Completed(h)[i].finish
                    else ProcessOf(h', Completed(h)[i]) == ProcessOf(h', s) ==> s.start < Completed(h)[i].start)
  {
    var h' := h + tail;
    ResolvedSpans(Everything(), h, tail, h');
    CompletionsApart(false, h');
    PairIsWellFormed(Everything(), h);
    var s := Completed(h')[m];
    forall i | 0 <= i < |Completed(h)|
      ensures Completed(h')[i] == Completed(h)[i] && Completed(h)[i].start < Completed(h)[i].finish < |h|
      ensures s.start != Completed(h)[i].finish
      ensures |Completed(h)| <= m ==> s.start != Completed(h)[i].start
      ensures ProcessOf(h', Completed(h)[i]) == ProcessOf(h, Completed(h)[i])
    {
      assert WellFormedSpan(h, Completed(h)[i]);
      assert m > i ==> Key(false, Completed(h')[i]) != Key(false, Completed(h')[m]);
    }
    assert h'[s.start] == LeftOpen(h)[k].1;
  }

  lemma {:induction false} PendingExplained(
    realTime: bool, h: seq<OpEntry>, tail: seq<OpEntry>, k: nat, m: nat, before: seq<nat>, after: seq<nat>,
    marker: Value)
    requires AllResolve(h, tail) && k < |LeftOpen(h)| && m < |Completed(h + tail)|
    requires Completed(h + tail)[m].start == LeftOpen(h)[k].0 && Completed(h + tail)[m].op.returned == marker
    requires |h| <= Completed(h + tail)[m].finish
    requires Ascending(realTime, Completed(h), before) && Ascending(realTime, Completed(h), after)
    requires forall i :: 0 <= i < |Completed(h)| ==>
               && (i in before <==> Precedes(realTime, h, Completed(h)[i], LeftOpen(h)[k]))
               && (i in after <==> !Precedes(realTime, h, Completed(h)[i], LeftOpen(h)[k]))
    ensures Explained(Tally(|before|, marker), realTime, h + tail)
  {
    var h', n := h + tail, |Completed(h)|;
    var completed := Completed(h');
    AfterResolving(realTime, h, tail, k, m);
    CompletionsApart(realTime, h');
    forall i | 0 <= i < n ensures completed[i] == Completed(h)[i] {
    }
    AscendingOnce(realTime, completed, before);
    AscendingOnce(realTime, completed, after);
    AroundRespects(realTime, h', completed, before, m, after);
    AroundCovers(h', completed, n, before, m, after);
    forall spans: seq<Span<Value>> | |spans| == |completed| && Echoes(spans)
                                     && (forall i :: 0 <= i < |spans| ==> spans[i].op == completed[i].op.returned)
      ensures ReplaysDefinite(Tally(|before|, marker), h', spans, 0, before + [m] + after)
    {
      MarkedReplays(|before|, marker, h', spans, 0, before, m, after);
    }
    TallyExplains(|before|, marker, realTime, h', before + [m] + after);
  }

  /** An operation never answered that some completion need not precede: answered with the marker, it
      explains that completion. */
  lemma {:induction false} PendingFails(realTime: bool, h: seq<OpEntry>) returns (d: nat, marker: Value)
    requires AnswersAreDefinite(h) && !OpensLast(realTime, h)
    ensures HistoryExplainable(Tally(d, marker), realTime, h) && !HistoryLinearizable(Tally(d, marker), realTime, h)
  {
    var completed, open := Completed(h), LeftOpen(h);
    var c, k :| 0 <= c < |completed| && 0 <= k < |open| && !Precedes(realTime, h, completed[c], open[k]);
    var early := set i: nat | i < |completed| && Precedes(realTime, h, completed[i], open[k]);
    CompletionsApart(realTime, h);
    var before, after := Divided(realTime, completed, |h|, early);
    assert c in after;
    d, marker := |before|, Fresh(h);
    NothingResolves(h);
    var tail, m := AnswersUpTo(h, [], k, marker);
    PendingExplained(realTime, h, tail, k, m, before, after, marker);
    assert ExplainedWith(Tally(d, marker), realTime, h, tail);
    NeverLinearizes(d, marker, realTime, h);
  }
}
