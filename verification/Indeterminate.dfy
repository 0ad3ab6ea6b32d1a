/** The checker's verdict in real time against textbook linearizability
    (crates/propsim-oracle/src/linearizability.rs). */
module Indeterminate {
  import opened Ops
  import opened Spans
  import opened Linearizability
  import opened Completions
  import opened Explanations
  import opened Registers
  import opened Counting

  /** A valid verdict is never wrong: what the checker accepts is linearizable in the textbook sense,
      whatever operations are indeterminate or were never answered. */
  lemma {:induction false} AcceptedIsExplainable<State(!new), Op(!new)>(
    model: SequentialModel<State, Op>, h: seq<OpEntry>)
    ensures HistoryLinearizable(model, true, h) ==> HistoryExplainable(model, true, h)
  {
    var spans := Pair(model, h).spans;
    if Linearizable(model, true, spans) {
      var order :| IsLinearization(model, true, spans, order);
      LinearizationExplains(model, true, h, spans, order);
      ExplainedAsIs(model, true, h);
    }
  }

  /** Where no indeterminate entry answers an invoke and every completion finishes before any invoke left
      open, every model's verdict is the textbook's. */
  lemma {:induction false} DefiniteHistories<State(!new), Op(!new)>(model: SequentialModel<State, Op>, h: seq<OpEntry>)
    requires AnswersAreDefinite(h) && OpensLast(true, h)
    ensures HistoryLinearizable(model, true, h) <==> HistoryExplainable(model, true, h)
  {
    AcceptedIsExplainable(model, h);
    ExplainedWithout(model, true, h);
    if Explained(model, true, h) {
      var order :| Explains(model, true, h, Pair(model, h).spans, order);
      SpansAreDefinite(model, h);
      ExplanationLinearizes(model, true, h, Pair(model, h).spans, order);
    }
  }

  /** An indeterminate entry that answers an invoke, or a completion that does not finish before every
      invoke left open, and some model's verdict is wrong. */
  lemma {:induction false} SomeVerdictIsWrong(h: seq<OpEntry>) returns (d: nat, marker: Value)
    requires !(AnswersAreDefinite(h) && OpensLast(true, h))
    ensures HistoryExplainable(Tally(d, marker), true, h) && !HistoryLinearizable(Tally(d, marker), true, h)
  {
    if AnswersAreDefinite(h) {
      d, marker := PendingFails(true, h);
    } else {
      d, marker := IndefiniteFails(true, h);
    }
  }

  /** The real-time verdict on a history is the textbook's for every model exactly when no
      indeterminate entry of the history answers an invoke and every completion finishes before any
      invoke left open. */
  lemma {:induction false} VerdictsAreExact(h: seq<OpEntry>)
    ensures (forall model: SequentialModel<int, Value> ::
               HistoryLinearizable(model, true, h) <==> HistoryExplainable(model, true, h))
       <==> AnswersAreDefinite(h) && OpensLast(true, h)
  {
    if AnswersAreDefinite(h) && OpensLast(true, h) {
      forall model: SequentialModel<int, Value>
        ensures HistoryLinearizable(model, true, h) <==> HistoryExplainable(model, true, h)
      {
        DefiniteHistories(model, h);
      }
    } else {
      var d, marker := SomeVerdictIsWrong(h);
      var model := Tally(d, marker);
      assert !(HistoryLinearizable(model, true, h) <==> HistoryExplainable(model, true, h));
    }
  }

  // ----- Concrete inputs -----

  /** A write that timed out and never took effect, then a read of the old value. */
  function LostWrite(): seq<OpEntry> {
    [Entry(0, Invoke, 0, "write", Int(1)), Entry(1, Info, 0, "write", Nil),
     Entry(2, Invoke, 1, "read", Nil), Entry(3, Ok, 1, "read", Int(0))]
  }

  lemma LostWritePairs()
    ensures Pair(Register(), LostWrite()).spans == [Span(Write(1), Nil, 0, 1), Span(Read, Int(0), 2, 3)]
  {
    var h := LostWrite();
    TwoSpans(Register(), h[0], h[1], h[2], h[3]);
    assert h == [h[0], h[1], h[2], h[3]];
  }

  lemma LostWriteExplained()
    ensures Explains(Register(), true, LostWrite(), Pair(Register(), LostWrite()).spans, [1])
  {
    LostWritePairs();
    assert [1][1..] == [];
  }

  lemma LostWriteRejected(order: seq<nat>)
    ensures !IsLinearization(Register(), true, Pair(Register(), LostWrite()).spans, order)
  {
    LostWritePairs();
    if Lists(NoneDone(2), order) {
      BothOrders(order);
      WriteThenRead(Pair(Register(), LostWrite()).spans);
    }
  }

  /** The checker insists on placing an indeterminate operation that decodes, and so rejects a
      history that is linearizable. */
  lemma RejectsExplainable()
    ensures HistoryExplainable(Register(), true, LostWrite()) && !HistoryLinearizable(Register(), true, LostWrite())
  {
    var spans := Pair(Register(), LostWrite()).spans;
    LostWritePairs();
    LostWriteExplained();
    ExplainedAsIs(Register(), true, LostWrite());
    forall order ensures !IsLinearization(Register(), true, spans, order) {
      LostWriteRejected(order);
    }
  }

  /** The checker takes no account of an operation never answered, and so rejects a read of what it wrote. */
  lemma RejectsPending()
    ensures HistoryExplainable(Register(), true, PendingWrite())
    ensures !HistoryLinearizable(Register(), true, PendingWrite())
  {
    PendingWriteExplained(true);
    PendingWriteRejected(true);
  }
}
