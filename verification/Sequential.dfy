/** The checker's verdict without real time against sequential consistency, which keeps each
    process's own order (crates/propsim-oracle/src/linearizability.rs). */
module Sequential {
  import opened Ops
  import opened Spans
  import opened Linearizability
  import opened Completions
  import opened Explanations
  import opened Registers
  import opened Counting

  // ----- When every verdict is right -----

  /** All completions of a process look the same to a model. */
  ghost predicate Monotonous(h: seq<OpEntry>) {
    forall i, j :: 0 <= i < |Completed(h)| && 0 <= j < |Completed(h)|
                   && ProcessOf(h, Completed(h)[i]) == ProcessOf(h, Completed(h)[j]) ==>
      Completed(h)[i].op == Completed(h)[j].op
  }

  /** The same for decoded spans, which start apart. */
  ghost predicate Interchangeable<Op>(h: seq<OpEntry>, spans: seq<Span<Op>>) {
    && (forall i, j :: 0 <= i < |spans| && 0 <= j < |spans| && ProcessOf(h, spans[i]) == ProcessOf(h, spans[j]) ==>
          spans[i].op == spans[j].op && spans[i].response == spans[j].response)
    && (forall i, j :: 0 <= i < j < |spans| ==> spans[i].start != spans[j].start)
  }

  lemma {:induction false} MonotonousSpans<State(!new), Op(!new)>(model: SequentialModel<State, Op>, h: seq<OpEntry>)
    requires Monotonous(h)
    ensures Interchangeable(h, Pair(model, h).spans)
  {
    var spans := Pair(model, h).spans;
    PairDecodes(model, h);
    StartsDiffer(model, h);
    forall i, j | 0 <= i < |spans| && 0 <= j < |spans| && ProcessOf(h, spans[i]) == ProcessOf(h, spans[j])
      ensures spans[i].op == spans[j].op && spans[i].response == spans[j].response
    {
      var k := DecodedFrom(model, Completed(h), i);
      var l := DecodedFrom(model, Completed(h), j);
      assert ProcessOf(h, Completed(h)[k]) == ProcessOf(h, Completed(h)[l]);
    }
  }

  /** Two orders that put operations of the same process, with the same effect, at every position. */
  ghost predicate Matches<Op>(h: seq<OpEntry>, spans: seq<Span<Op>>, order: seq<nat>, order': seq<nat>) {
    && |order| == |order'|
    && (forall a :: 0 <= a < |order| ==> order[a] < |spans| && order'[a] < |spans|)
    && (forall a :: 0 <= a < |order| ==> ProcessOf(h, spans[order[a]]) == ProcessOf(h, spans[order'[a]]))
  }

  lemma {:induction false} MatchesReplay<State(!new), Op(!new)>(
    model: SequentialModel<State, Op>, h: seq<OpEntry>, spans: seq<Span<Op>>, state: State,
    order: seq<nat>, order': seq<nat>)
    requires Interchangeable(h, spans) && Matches(h, spans, order, order')
    requires Replays(model, spans, state, order)
    ensures Replays(model, spans, state, order')
    decreases |order|
  {
    if order == [] {
    } else {
      assert spans[order[0]].op == spans[order'[0]].op && spans[order[0]].response == spans[order'[0]].response;
      MatchesReplay(model, h, spans, model.step(state, spans[order[0]].op).0, order[1..], order'[1..]);
    }
  }

  /** The position of the first operation of the process that leads the order. */
  lemma {:induction false} EarliestOfHead<Op>(h: seq<OpEntry>, spans: seq<Span<Op>>, order: seq<nat>, n: nat)
    returns (b: nat)
    requires 0 < n <= |order| && forall a :: 0 <= a < |order| ==> order[a] < |spans|
    ensures b < n && ProcessOf(h, spans[order[b]]) == ProcessOf(h, spans[order[0]])
    ensures forall a :: 0 <= a < n && ProcessOf(h, spans[order[a]]) == ProcessOf(h, spans[order[0]]) ==>
              spans[order[b]].start <= spans[order[a]].start
  {
    if n == 1 {
      b := 0;
    } else {
      b := EarliestOfHead(h, spans, order, n - 1);
      var last := spans[order[n - 1]];
      if ProcessOf(h, last) == ProcessOf(h, spans[order[0]]) && last.start < spans[order[b]].start {
        b := n - 1;
      }
    }
  }

  /** The first and another position exchanged. */
  function Exchange(order: seq<nat>, b: nat): seq<nat>
    requires b < |order|
  {
    order[0 := order[b]][b := order[0]]
  }

  lemma ExchangeKeeps(order: seq<nat>, b: nat)
    requires b < |order|
    ensures multiset(Exchange(order, b)) == multiset(order)
  {
  }

  lemma Distinct(n: nat, order: seq<nat>)
    requires multiset(order) <= multiset(OpenIndices(NoneDone(n)))
    ensures forall a, b :: 0 <= a < b < |order| ==> order[a] != order[b]
    ensures forall a :: 0 <= a < |order| ==> order[a] < n
  {
    forall a, b | 0 <= a < b < |order| ensures order[a] != order[b] {
      var rest := order[a + 1..];
      assert order == order[..a] + [order[a]] + rest;
      assert rest[b - a - 1] == order[b] && multiset(rest)[order[b]] >= 1;
      assert multiset(order)[order[a]] <= 1;
    }
    forall a | 0 <= a < |order| ensures order[a] < n {
      assert order[a] in multiset(order);
    }
  }

  /** The exchange puts the same process's operations at every position. */
  lemma ExchangeMatches<Op>(h: seq<OpEntry>, spans: seq<Span<Op>>, order: seq<nat>, b: nat)
    requires b < |order| && forall a :: 0 <= a < |order| ==> order[a] < |spans|
    requires ProcessOf(h, spans[order[b]]) == ProcessOf(h, spans[order[0]])
    ensures Matches(h, spans, order, Exchange(order, b))
  {
  }

  lemma MatchesCons<Op>(
    h: seq<OpEntry>, spans: seq<Span<Op>>, order: seq<nat>, middle: seq<nat>, rest: seq<nat>)
    requires Matches(h, spans, order, middle) && middle != [] && Matches(h, spans, middle[1..], rest)
    ensures Matches(h, spans, order, [middle[0]] + rest)
  {
    var last := [middle[0]] + rest;
    forall a | 0 <= a < |order|
      ensures last[a] < |spans| && ProcessOf(h, spans[order[a]]) == ProcessOf(h, spans[last[a]])
    {
      assert a > 0 ==> last[a] == rest[a - 1] && middle[1..][a - 1] == middle[a];
    }
  }

  lemma RespectsCons<Op>(h: seq<OpEntry>, spans: seq<Span<Op>>, head: nat, rest: seq<nat>)
    requires head < |spans| && forall a :: 0 <= a < |rest| ==> rest[a] < |spans|
    requires RespectsPrograms(h, spans, rest)
    requires forall c :: 0 <= c < |rest| && ProcessOf(h, spans[head]) == ProcessOf(h, spans[rest[c]]) ==>
               spans[head].start < spans[rest[c]].start
    ensures RespectsPrograms(h, spans, [head] + rest)
  {
    var order := [head] + rest;
    forall a, b | 0 <= a < b < |order| && ProcessOf(h, spans[order[a]]) == ProcessOf(h, spans[order[b]])
      ensures spans[order[a]].start < spans[order[b]].start
    {
      assert order[b] == rest[b - 1];
      assert a > 0 ==> order[a] == rest[a - 1];
    }
  }

  /** An element of the reordered tail is an element of the order other than the new head. */
  lemma FromTail(order: seq<nat>, exchanged: seq<nat>, rest: seq<nat>, c: nat) returns (a: nat)
    requires exchanged != [] && multiset(exchanged) == multiset(order) && multiset(rest) == multiset(exchanged[1..])
    requires forall a, b :: 0 <= a < b < |exchanged| ==> exchanged[a] != exchanged[b]
    requires c < |rest|
    ensures a < |order| && order[a] == rest[c] && rest[c] != exchanged[0]
  {
    assert rest[c] in multiset(rest);
    var tail := exchanged[1..];
    var d :| 0 <= d < |tail| && tail[d] == rest[c];
    assert exchanged[d + 1] == rest[c];
    assert rest[c] in multiset(exchanged);
    a :| 0 <= a < |order| && order[a] == rest[c];
  }

  /** The first operation of the leading process comes before every other one of it. */
  lemma HeadIsEarliest<Op>(
    h: seq<OpEntry>, spans: seq<Span<Op>>, order: seq<nat>, b: nat, rest: seq<nat>)
    requires Interchangeable(h, spans) && multiset(order) <= multiset(OpenIndices(NoneDone(|spans|)))
    requires forall a :: 0 <= a < |order| ==> order[a] < |spans|
    requires b < |order|
    requires forall a :: 0 <= a < |order| && ProcessOf(h, spans[order[a]]) == ProcessOf(h, spans[order[b]]) ==>
               spans[order[b]].start <= spans[order[a]].start
    requires multiset(rest) == multiset(Exchange(order, b)[1..])
    requires forall c :: 0 <= c < |rest| ==> rest[c] < |spans|
    ensures forall c :: 0 <= c < |rest| && ProcessOf(h, spans[order[b]]) == ProcessOf(h, spans[rest[c]]) ==>
              spans[order[b]].start < spans[rest[c]].start
  {
    var exchanged := Exchange(order, b);
    ExchangeKeeps(order, b);
    Distinct(|spans|, exchanged);
    forall c | 0 <= c < |rest| && ProcessOf(h, spans[order[b]]) == ProcessOf(h, spans[rest[c]])
      ensures spans[order[b]].start < spans[rest[c]].start
    {
      var a := FromTail(order, exchanged, rest, c);
      assert order[a] == rest[c] != order[b];
    }
  }

  /** Each process's operations put in program order among the positions they hold. */
  lemma {:induction false} InProgramOrder<Op>(h: seq<OpEntry>, spans: seq<Span<Op>>, order: seq<nat>)
    returns (sorted: seq<nat>)
    requires Interchangeable(h, spans)
    requires multiset(order) <= multiset(OpenIndices(NoneDone(|spans|)))
    requires forall a :: 0 <= a < |order| ==> order[a] < |spans|
    ensures multiset(sorted) == multiset(order)
    ensures Matches(h, spans, order, sorted)
    ensures RespectsPrograms(h, spans, sorted)
    decreases |order|
  {
    if order == [] {
      sorted := [];
    } else {
      var b := EarliestOfHead(h, spans, order, |order|);
      var exchanged := Exchange(order, b);
      ExchangeKeeps(order, b);
      ExchangeMatches(h, spans, order, b);
      var tail := exchanged[1..];
      assert exchanged == [order[b]] + tail;
      var rest := InProgramOrder(h, spans, tail);
      HeadIsEarliest(h, spans, order, b, rest);
      RespectsCons(h, spans, order[b], rest);
      MatchesCons(h, spans, order, exchanged, rest);
      sorted := [order[b]] + rest;
    }
  }

  /** Where nothing is indeterminate, all completions of each process look the same, and nothing was
      completed that an operation never answered could have come before, every model's verdict without real
      time is sequential consistency. */
  lemma {:induction false} MonotonousHistories<State(!new), Op(!new)>(
    model: SequentialModel<State, Op>, h: seq<OpEntry>)
    requires AnswersAreDefinite(h) && Monotonous(h) && OpensLast(false, h)
    ensures HistoryLinearizable(model, false, h) <==> HistoryExplainable(model, false, h)
  {
    var spans := Pair(model, h).spans;
    ExplainedWithout(model, false, h);
    if Linearizable(model, false, spans) {
      MonotonousSpans(model, h);
      var order :| IsLinearization(model, false, spans, order);
      var sorted := InProgramOrder(h, spans, order);
      MatchesReplay(model, h, spans, model.init, order, sorted);
      LinearizationExplains(model, false, h, spans, sorted);
    }
    if Explained(model, false, h) {
      var order :| Explains(model, false, h, spans, order);
      SpansAreDefinite(model, h);
      ExplanationLinearizes(model, false, h, spans, order);
    }
  }

  // ----- When some verdict is wrong -----

  const FIRST := Bool(true)
  const OTHER := Bool(false)

  /** A model of two operations, `first` and any other it decodes: the other is answered as recorded
      only before the first. */
  function Once(first: Triple, other: Triple): SequentialModel<int, Value> {
    SequentialModel(
      0,
      (seen: int, op: Value) => if op == FIRST then (1, Nil) else (seen, if seen == 0 then Nil else Bool(true)),
      (f: string, invoked: Value, returned: Value) =>
        if Triple(f, invoked, returned) == first then Some((FIRST, Nil))
        else if Triple(f, invoked, returned) == other then Some((OTHER, Nil))
        else None)
  }

  ghost predicate AllNil<Op>(spans: seq<Span<Op>>) {
    forall i :: 0 <= i < |spans| ==> spans[i].response == Nil
  }

  /** The others before the first ones. */
  function OthersFirst(spans: seq<Span<Value>>, n: nat): (order: seq<nat>)
    requires n <= |spans|
    ensures forall a :: 0 <= a < |order| ==> order[a] < n
    ensures multiset(order) == multiset(OpenIndices(NoneDone(n)))
    ensures forall a, b :: 0 <= a < b < |order| && spans[order[a]].op == FIRST ==> spans[order[b]].op == FIRST
  {
    if n == 0 then
      assert OpenIndices(NoneDone(0)) == {};
      []
    else
      assert OpenIndices(NoneDone(n)) == OpenIndices(NoneDone(n - 1)) + {n - 1};
      if spans[n - 1].op == FIRST then OthersFirst(spans, n - 1) + [n - 1] else [n - 1] + OthersFirst(spans, n - 1)
  }

  lemma {:induction false} OthersReplay(
    first: Triple, other: Triple, spans: seq<Span<Value>>, seen: int, order: seq<nat>)
    requires AllNil(spans) && forall a :: 0 <= a < |order| ==> order[a] < |spans|
    requires forall a, b :: 0 <= a < b < |order| && spans[order[a]].op == FIRST ==> spans[order[b]].op == FIRST
    requires seen != 0 ==> forall a :: 0 <= a < |order| ==> spans[order[a]].op == FIRST
    ensures Replays(Once(first, other), spans, seen, order)
    decreases |order|
  {
    if order == [] {
    } else {
      OthersReplay(first, other, spans, Once(first, other).step(seen, spans[order[0]].op).0, order[1..]);
    }
  }

  /** A definite other after a first is answered differently. */
  lemma {:induction false} OtherTooLate(
    first: Triple, other: Triple, h: seq<OpEntry>, spans: seq<Span<Value>>, seen: int, order: seq<nat>, b: nat)
    requires forall a :: 0 <= a < |order| ==> order[a] < |spans|
    requires b < |order| && spans[order[b]].op != FIRST && spans[order[b]].response == Nil
    requires Definite(h, spans[order[b]])
    requires seen != 0 || exists a :: 0 <= a < b && spans[order[a]].op == FIRST
    ensures !ReplaysDefinite(Once(first, other), h, spans, seen, order)
    decreases |order|
  {
    if b == 0 {
    } else {
      var next := Once(first, other).step(seen, spans[order[0]].op).0;
      if next == 0 {
        var a :| 0 <= a < b && spans[order[a]].op == FIRST;
        assert order[1..][a - 1] == order[a];
      }
      OtherTooLate(first, other, h, spans, next, order[1..], b - 1);
    }
  }

  lemma {:induction false} OnceDecodes(first: Triple, other: Triple, completed: seq<Span<Triple>>)
    ensures AllNil(Decoded(Once(first, other), completed))
  {
    if completed == [] {
    } else {
      OnceDecodes(first, other, completed[..|completed| - 1]);
    }
  }

  lemma AcceptsOthersFirst(first: Triple, other: Triple, spans: seq<Span<Value>>)
    requires AllNil(spans)
    ensures Linearizable(Once(first, other), false, spans)
  {
    var order := OthersFirst(spans, |spans|);
    OthersReplay(first, other, spans, 0, order);
    assert IsLinearization(Once(first, other), false, spans, order);
  }

  /** No order of the two operations explains them, whatever else took effect. */
  lemma RejectsPrograms(
    first: Triple, other: Triple, h: seq<OpEntry>, spans: seq<Span<Value>>, e: nat, l: nat, order: seq<nat>)
    requires e < |spans| && l < |spans| && Definite(h, spans[e]) && Definite(h, spans[l])
    requires spans[e].op == FIRST && spans[l].op != FIRST && spans[l].response == Nil
    requires ProcessOf(h, spans[e]) == ProcessOf(h, spans[l]) && spans[e].start < spans[l].start
    ensures !Explains(Once(first, other), false, h, spans, order)
  {
    if Covers(h, spans, order) && RespectsPrograms(h, spans, order) {
      var a :| 0 <= a < |order| && order[a] == e;
      var b :| 0 <= b < |order| && order[b] == l;
      OtherTooLate(first, other, h, spans, 0, order, b);
    }
  }

  /** Two different completions of one process, and some model's verdict is wrong. */
  lemma {:induction false} DifferenceFails(h: seq<OpEntry>) returns (first: Triple, other: Triple)
    requires AnswersAreDefinite(h) && !Monotonous(h)
    ensures HistoryLinearizable(Once(first, other), false, h) && !HistoryExplainable(Once(first, other), false, h)
  {
    var completed := Completed(h);
    var i, j :| 0 <= i < |completed| && 0 <= j < |completed|
                && ProcessOf(h, completed[i]) == ProcessOf(h, completed[j]) && completed[i].op != completed[j].op;
    CompletionsApart(false, h);
    assert Key(false, completed[i]) != Key(false, completed[j]);
    var early, late := if completed[i].start < completed[j].start then i else j,
                       if completed[i].start < completed[j].start then j else i;
    first, other := completed[early].op, completed[late].op;
    var model := Once(first, other);
    var spans := Pair(model, h).spans;
    PairDecodes(model, h);
    OnceDecodes(first, other, completed);
    AcceptsOthersFirst(first, other, spans);
    var e := DecodedTo(model, completed, early);
    var l := DecodedTo(model, completed, late);
    SpansAreDefinite(model, h);
    forall tail ensures !ExplainedWith(model, false, h, tail) {
      if AllResolve(h, tail) {
        ResolvedSpans(model, h, tail, h + tail);
        var spans' := Pair(model, h + tail).spans;
        SameBefore(h, spans, h + tail, spans', e);
        SameBefore(h, spans, h + tail, spans', l);
        forall order ensures !Explains(model, false, h + tail, spans', order) {
          RejectsPrograms(first, other, h + tail, spans', e, l, order);
        }
      }
    }
  }

  /** One of the three conditions fails, and some model's verdict is wrong. */
  lemma {:induction false} SomeVerdictIsWrong(h: seq<OpEntry>) returns (model: SequentialModel<int, Value>)
    requires !(AnswersAreDefinite(h) && Monotonous(h) && OpensLast(false, h))
    ensures !(HistoryLinearizable(model, false, h) <==> HistoryExplainable(model, false, h))
  {
    if !AnswersAreDefinite(h) {
      var d, marker := IndefiniteFails(false, h);
      model := Tally(d, marker);
    } else if !Monotonous(h) {
      var first, other := DifferenceFails(h);
      model := Once(first, other);
    } else {
      var d, marker := PendingFails(false, h);
      model := Tally(d, marker);
    }
  }

  /** The verdict without real time on a history is sequential consistency for every model exactly when
      no indeterminate entry answers an invoke, all completions of each process look the same, and every
      completion is of the same process as, and invoked before, each invoke left open. */
  lemma {:induction false} VerdictsAreExact(h: seq<OpEntry>)
    ensures (forall model: SequentialModel<int, Value> ::
               HistoryLinearizable(model, false, h) <==> HistoryExplainable(model, false, h))
       <==> AnswersAreDefinite(h) && Monotonous(h) && OpensLast(false, h)
  {
    if AnswersAreDefinite(h) && Monotonous(h) && OpensLast(false, h) {
      forall model: SequentialModel<int, Value>
        ensures HistoryLinearizable(model, false, h) <==> HistoryExplainable(model, false, h)
      {
        MonotonousHistories(model, h);
      }
    } else {
      var model := SomeVerdictIsWrong(h);
      assert !(HistoryLinearizable(model, false, h) <==> HistoryExplainable(model, false, h));
    }
  }

  // ----- Concrete inputs -----

  lemma ReadThenWrite(spans: seq<Span<RegisterOp>>)
    requires spans == [Span(Write(1), Nil, 0, 1), Span(Read, Int(0), 2, 3)]
    ensures IsLinearization(Register(), false, spans, [1, 0])
  {
    OnceListed([1, 0], OpenIndices(NoneDone(2)));
    assert [1, 0][1..] == [0] && [0][1..] == [];
  }

  /** A process reads the old value after its own write. */
  function StaleRead(): seq<OpEntry> {
    [Entry(0, Invoke, 0, "write", Int(1)), Entry(1, Ok, 0, "write", Nil),
     Entry(2, Invoke, 0, "read", Nil), Entry(3, Ok, 0, "read", Int(0))]
  }

  lemma NothingLeftOpen(h: seq<OpEntry>, tail: seq<OpEntry>)
    requires LeftOpen(h) == [] && ExplainedWith(Register(), false, h, tail)
    ensures Explained(Register(), false, h)
  {
    if tail == [] {
      NothingResolves(h);
    } else {
      NothingToResolve(h, tail);
    }
  }

  lemma StaleReadPairs()
    ensures Pair(Register(), StaleRead()).spans == [Span(Write(1), Nil, 0, 1), Span(Read, Int(0), 2, 3)]
    ensures LeftOpen(StaleRead()) == []
  {
    var h := StaleRead();
    TwoSpans(Register(), h[0], h[1], h[2], h[3]);
    assert h == [h[0], h[1], h[2], h[3]];
    assert h[..3] == [h[0], h[1], h[2]] && h[..3][..2] == [h[0], h[1]] && h[..3][..2][..1] == [h[0]];
    assert [h[0]][..0] == [];
    assert Pair(Everything(), [h[0]]).open == [(0, h[0])];
    assert Pair(Everything(), [h[0], h[1]]).open == [];
    assert Pair(Everything(), [h[0], h[1], h[2]]).open == [(2, h[2])];
  }

  lemma StaleReadUnexplained(order: seq<nat>)
    ensures !Explains(Register(), false, StaleRead(), Pair(Register(), StaleRead()).spans, order)
  {
    StaleReadPairs();
    var h, spans := StaleRead(), Pair(Register(), StaleRead()).spans;
    assert ProcessOf(h, spans[0]) == ProcessOf(h, spans[1]) && Definite(h, spans[0]) && Definite(h, spans[1]);
    WriteThenRead(spans);
    if Explains(Register(), false, h, spans, order) {
      ExplanationLinearizes(Register(), false, h, spans, order);
      BothOrders(order);
    }
  }

  /** Dropping real time drops program order with it: the checker accepts a history that is not
      sequentially consistent. */
  lemma AcceptsInconsistent()
    ensures HistoryLinearizable(Register(), false, StaleRead())
    ensures !HistoryExplainable(Register(), false, StaleRead())
  {
    StaleReadPairs();
    ReadThenWrite(Pair(Register(), StaleRead()).spans);
    forall tail ensures !ExplainedWith(Register(), false, StaleRead(), tail) {
      if ExplainedWith(Register(), false, StaleRead(), tail) {
        NothingLeftOpen(StaleRead(), tail);
        var order :| Explains(Register(), false, StaleRead(), Pair(Register(), StaleRead()).spans, order);
        StaleReadUnexplained(order);
      }
    }
  }

  lemma OneIsMonotonous(h: seq<OpEntry>)
    requires |Completed(h)| == 1
    ensures Monotonous(h)
  {
  }

  /** Without real time too the checker insists on placing an indeterminate operation. */
  lemma RejectsLostRead()
    ensures HistoryExplainable(Register(), false, LostRead()) && Monotonous(LostRead())
    ensures !HistoryLinearizable(Register(), false, LostRead())
  {
    LostReadRejected(false);
    LostReadCompletes();
    OneIsMonotonous(LostRead());
  }

  /** Nor does it take account of an operation never answered. */
  lemma RejectsPending()
    ensures HistoryExplainable(Register(), false, PendingWrite())
    ensures !HistoryLinearizable(Register(), false, PendingWrite())
  {
    PendingWriteExplained(false);
    PendingWriteRejected(false);
  }
}
