/** A register with a codec, for concrete histories. */
module Registers {
  import opened Ops
  import opened Spans
  import opened Linearizability
  import opened Completions
  import opened Explanations

  datatype RegisterOp = Write(v: int) | Read

  /** A register of integers whose codec decodes every completion, indeterminate ones too. */
  function Register(): SequentialModel<int, RegisterOp> {
    SequentialModel(
      0,
      (state: int, op: RegisterOp) => match op
                                      case Write(v) => (v, Nil)
                                      case Read => (state, if -TWO_63 <= state < TWO_63 then Int(state) else Nil),
      (f: string, invoked: Value, returned: Value) =>
        if f == "write" && invoked.Int? then Some((Write(invoked.i), returned))
        else if f == "read" then Some((Read, returned))
        else None)
  }

  function Entry(index: nat, kind: OpKind, process: nat, f: string, value: Value): OpEntry {
    OpEntry(index, Time(0, Virtual), kind, process, f, value)
  }

  lemma {:induction false} TwoSpans<State(!new), Op(!new)>(
    model: SequentialModel<State, Op>, a: OpEntry, b: OpEntry, c: OpEntry, d: OpEntry)
    requires a.kind.Invoke? && c.kind.Invoke?
    requires !b.kind.Invoke? && !b.kind.Fail? && b.process == a.process
    requires !d.kind.Invoke? && !d.kind.Fail? && d.process == c.process
    requires model.decode(b.f, a.value, b.value).Some? && model.decode(d.f, c.value, d.value).Some?
    ensures var (op0, r0) := model.decode(b.f, a.value, b.value).value;
            var (op1, r1) := model.decode(d.f, c.value, d.value).value;
            Pair(model, [a, b, c, d]).spans == [Span(op0, r0, 0, 1), Span(op1, r1, 2, 3)]
  {
    var h := [a, b, c, d];
    assert h[..3] == [a, b, c] && h[..3][..2] == [a, b] && h[..2] == [a, b] && h[..2][..1] == [a] && [a][..0] == [];
    assert Pair(model, [a]).open == [(0, a)];
    assert Pair(model, [a, b]).open == [];
    assert Pair(model, [a, b, c]).open == [(2, c)];
  }

  lemma BothOrders(order: seq<nat>)
    requires Lists(NoneDone(2), order)
    ensures order == [0, 1] || order == [1, 0]
  {
    ListedOnce(2, order);
    ListedAreOpen(NoneDone(2), order);
    assert OpenIndices(NoneDone(2)) == {0, 1};
    assert |order| == |multiset(order)| == 2;
  }

  /** A read after the write returns what was written. */
  lemma WriteThenRead(spans: seq<Span<RegisterOp>>)
    requires spans == [Span(Write(1), Nil, 0, 1), Span(Read, Int(0), 2, 3)]
    ensures !Replays(Register(), spans, 0, [0, 1])
  {
    assert [0, 1][1..] == [1];
  }

  /** A lone read returns the initial value. */
  lemma LoneRead(realTime: bool, spans: seq<Span<RegisterOp>>)
    requires |spans| == 1 && spans[0].op == Read && spans[0].response != Int(0)
    ensures !Linearizable(Register(), realTime, spans)
  {
    forall order ensures !IsLinearization(Register(), realTime, spans, order) {
      if Lists(NoneDone(1), order) {
        ListedLength(1, order);
        ListedAreOpen(NoneDone(1), order);
        assert order == [0];
      }
    }
  }

  /** A write never answered, then a read of what it wrote. */
  function PendingWrite(): seq<OpEntry> {
    [Entry(0, Invoke, 1, "write", Int(1)), Entry(1, Invoke, 0, "read", Nil), Entry(2, Ok, 0, "read", Int(1))]
  }

  lemma PendingWritePairs()
    ensures Pair(Register(), PendingWrite()) == Pairing([(0, PendingWrite()[0])], [Span(Read, Int(1), 1, 2)])
    ensures LeftOpen(PendingWrite()) == [(0, PendingWrite()[0])]
  {
    var h := PendingWrite();
    assert h[..2] == [h[0], h[1]] && h[..2][..1] == [h[0]] && [h[0]][..0] == [];
    assert Pair(Register(), [h[0]]).open == [(0, h[0])];
    assert Pair(Register(), [h[0], h[1]]).open == [(0, h[0]), (1, h[1])];
    PairDecodes(Register(), h);
  }

  lemma PendingWriteRejected(realTime: bool)
    ensures !HistoryLinearizable(Register(), realTime, PendingWrite())
  {
    PendingWritePairs();
    LoneRead(realTime, Pair(Register(), PendingWrite()).spans);
  }

  lemma WriteThenReadExplains(realTime: bool, h: seq<OpEntry>, spans: seq<Span<RegisterOp>>)
    requires spans == [Span(Read, Int(1), 1, 2), Span(Write(1), Nil, 0, 3)]
    requires |h| == 4 && h[0].process != h[1].process && h[3].kind.Info?
    ensures Explains(Register(), realTime, h, spans, [1, 0])
  {
    assert [1, 0][1..] == [0] && [0][1..] == [];
  }

  lemma PendingWriteExplained(realTime: bool)
    ensures HistoryExplainable(Register(), realTime, PendingWrite())
  {
    var h := PendingWrite();
    var answer := Entry(3, Info, 1, "write", Nil);
    var h' := h + [answer];
    PendingWritePairs();
    assert h'[..3] == h;
    var spans := Pair(Register(), h').spans;
    assert spans == [Span(Read, Int(1), 1, 2), Span(Write(1), Nil, 0, 3)];
    WriteThenReadExplains(realTime, h', spans);
    assert ExplainedWith(Register(), realTime, h, [answer]) by {
      NothingResolves(h);
      assert [answer][..0] == [];
    }
  }

  /** A read cut short: a crash or the horizon closes it as indeterminate. */
  function LostRead(): seq<OpEntry> {
    [Entry(0, Invoke, 0, "read", Nil), Entry(1, Info, 0, "read", Nil)]
  }

  lemma LostReadCompletes()
    ensures |Completed(LostRead())| == 1
  {
    var h := LostRead();
    assert h[..1] == [h[0]] && [h[0]][..0] == [];
    assert Pair(Everything(), [h[0]]) == Pairing([(0, h[0])], []);
  }

  lemma LostReadRejected(realTime: bool)
    ensures HistoryExplainable(Register(), realTime, LostRead())
    ensures !HistoryLinearizable(Register(), realTime, LostRead())
  {
    var h := LostRead();
    assert h[..1] == [h[0]] && [h[0]][..0] == [];
    assert Pair(Register(), [h[0]]).open == [(0, h[0])];
    var spans := Pair(Register(), h).spans;
    assert spans == [Span(Read, Nil, 0, 1)];
    assert Explains(Register(), realTime, h, spans, []);
    ExplainedAsIs(Register(), realTime, h);
    LoneRead(realTime, spans);
  }
}
