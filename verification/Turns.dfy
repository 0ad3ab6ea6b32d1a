/** The verdicts on histories that runs record: a process's operations never overlap and every invoke is
    answered, so real-time order includes every program order and the exact conditions get simpler. */
module Turns {
  import opened Ops
  import opened Spans
  import opened Linearizability
  import opened Completions
  import opened Explanations
  import Indeterminate
  import Sequential
  import opened Engine
  import opened Tokens
  import opened Gate
  import opened RunVerdicts

  /** A process's operations do not overlap. */
  ghost predicate InTurn<Op>(h: seq<OpEntry>, spans: seq<Span<Op>>) {
    forall i, j :: 0 <= i < j < |spans| && ProcessOf(h, spans[i]) == ProcessOf(h, spans[j]) ==>
      spans[i].finish < spans[j].start
  }

  /** Nothing a process still has open was invoked before it finished something else. */
  ghost predicate OpenLast<Op>(h: seq<OpEntry>, st: Pairing<Op>) {
    forall i, k :: 0 <= i < |st.spans| && 0 <= k < |st.open| && st.spans[i].start < |h|
                   && h[st.spans[i].start].process == st.open[k].1.process ==>
      st.spans[i].finish < st.open[k].0
  }

  lemma TurnBegins<Op>(h: seq<OpEntry>, e: OpEntry, st: Pairing<Op>)
    requires forall i :: 0 <= i < |st.spans| ==> st.spans[i].start < |h| && st.spans[i].finish < |h|
    requires InTurn(h, st.spans) && OpenLast(h, st)
    ensures InTurn(h + [e], st.spans)
    ensures OpenLast(h + [e], st) && OpenLast(h + [e], st.(open := st.open + [(|h|, e)]))
  {
  }

  lemma LeaveOthers<Op>(h: seq<OpEntry>, e: OpEntry, st: Pairing<Op>, idx: nat)
    requires idx < |st.open| && OpenInvokes(h, st.open)
    requires forall k, l :: 0 <= k < l < |st.open| ==> st.open[k].1.process != st.open[l].1.process
    requires forall i :: 0 <= i < |st.spans| ==> st.spans[i].start < |h|
    requires InTurn(h, st.spans) && OpenLast(h, st)
    ensures var rest := st.open[..idx] + st.open[idx + 1..];
            && OpenLast(h + [e], st.(open := rest)) && InTurn(h + [e], st.spans)
            && forall k :: 0 <= k < |rest| ==> rest[k].1.process != st.open[idx].1.process
  {
    var rest := st.open[..idx] + st.open[idx + 1..];
    assert forall k :: 0 <= k < |rest| ==> rest[k] == if k < idx then st.open[k] else st.open[k + 1];
  }

  lemma TurnEnds<Op>(h: seq<OpEntry>, e: OpEntry, st: Pairing<Op>, rest: seq<(nat, OpEntry)>, s: Span<Op>)
    requires s.start < |h| && s.finish == |h| && h[s.start].process == e.process
    requires forall i :: 0 <= i < |st.spans| ==> st.spans[i].start < |h|
    requires InTurn(h + [e], st.spans) && OpenLast(h + [e], st.(open := rest))
    requires forall k :: 0 <= k < |rest| ==> rest[k].1.process != e.process
    requires forall i :: 0 <= i < |st.spans| && h[st.spans[i].start].process == e.process ==>
            st.spans[i].finish < s.start
    ensures InTurn(h + [e], st.spans + [s]) && OpenLast(h + [e], Pairing(rest, st.spans + [s]))
  {
  }

  lemma {:induction false} TurnStep<State(!new), Op(!new)>(
    model: SequentialModel<State, Op>, h: seq<OpEntry>, st: Pairing<Op>, e: OpEntry)
    requires SortedSpans(h, st.spans) && OpenInvokes(h, st.open)
    requires forall k, l :: 0 <= k < l < |st.open| ==> st.open[k].1.process != st.open[l].1.process
    requires forall i :: 0 <= i < |st.spans| ==> st.spans[i].start < |h|
    requires InTurn(h, st.spans) && OpenLast(h, st)
    ensures var st' := PairStep(model, st, |h|, e);
            && (forall i :: 0 <= i < |st'.spans| ==> st'.spans[i].start < |h + [e]|)
            && InTurn(h + [e], st'.spans) && OpenLast(h + [e], st')
  {
    forall i | 0 <= i < |st.spans| ensures st.spans[i].finish < |h| {
      assert WellFormedSpan(h, st.spans[i]);
    }
    var last := LastOpen(st.open, e.process);
    if e.kind.Invoke? {
      TurnBegins(h, e, st);
    } else if last.Some? {
      var (start, inv) := st.open[last.value];
      var rest := st.open[..last.value] + st.open[last.value + 1..];
      LeaveOthers(h, e, st, last.value);
      if e.kind.Fail? || model.decode(e.f, inv.value, e.value).None? {
        assert PairStep(model, st, |h|, e) == st.(open := rest);
      } else {
        var (op, response) := model.decode(e.f, inv.value, e.value).value;
        assert PairStep(model, st, |h|, e) == Pairing(rest, st.spans + [Span(op, response, start, |h|)]);
        TurnEnds(h, e, st, rest, Span(op, response, start, |h|));
      }
    }
  }

  lemma {:induction false} ProcessesTakeTurns<State(!new), Op(!new)>(
    model: SequentialModel<State, Op>, h: seq<OpEntry>, tokens: seq<nat>)
    requires WellTokened(h, tokens)
    ensures forall i :: 0 <= i < |Pair(model, h).spans| ==> Pair(model, h).spans[i].start < |h|
    ensures InTurn(h, Pair(model, h).spans) && OpenLast(h, Pair(model, h))
  {
    StartsInHistory(model, h);
    if h == [] {
    } else {
      var n := |h| - 1;
      PrefixWellTokened(h, tokens);
      ProcessesTakeTurns(model, h[..n], tokens[..n]);
      PairsByToken(model, h[..n], tokens[..n]);
      PairIsWellFormed(model, h[..n]);
      TurnStep(model, h[..n], Pair(model, h[..n]), h[n]);
      assert h[..n] + [h[n]] == h;
    }
  }

  lemma TurnsArePrograms<State(!new), Op(!new)>(
    model: SequentialModel<State, Op>, h: seq<OpEntry>, spans: seq<Span<Op>>, order: seq<nat>)
    requires forall i :: 0 <= i < |spans| ==> spans[i].start < |h|
    requires InTurn(h, spans) && IsLinearization(model, true, spans, order)
    ensures RespectsPrograms(h, spans, order)
  {
    ListedOnce(|spans|, order);
    forall a, b | 0 <= a < b < |order| && ProcessOf(h, spans[order[a]]) == ProcessOf(h, spans[order[b]])
      ensures spans[order[a]].start < spans[order[b]].start
    {
      assert order[a] != order[b];
    }
  }

  /** Where processes take turns, real-time order includes every program order, so a valid verdict in
      real time implies sequential consistency. */
  lemma {:induction false} LinearizableIsSequential<State(!new), Op(!new)>(
    model: SequentialModel<State, Op>, h: seq<OpEntry>, tokens: seq<nat>)
    requires WellTokened(h, tokens)
    ensures HistoryLinearizable(model, true, h) ==> HistoryExplainable(model, false, h)
    ensures forall order :: IsLinearization(model, true, Pair(model, h).spans, order) ==>
              RespectsPrograms(h, Pair(model, h).spans, order)
  {
    ProcessesTakeTurns(model, h, tokens);
    var spans := Pair(model, h).spans;
    forall order | IsLinearization(model, true, spans, order) ensures RespectsPrograms(h, spans, order) {
      TurnsArePrograms(model, h, spans, order);
    }
    if Linearizable(model, true, spans) {
      var order :| IsLinearization(model, true, spans, order);
      LinearizationExplains(model, false, h, spans, order);
      ExplainedAsIs(model, false, h);
    }
  }

  // ----- Finished runs -----

  lemma FinishedRuns(cfg: Config, faults: seq<(nat, FaultAction)>, n: nat) returns (h: seq<OpEntry>, tokens: seq<nat>)
    requires cfg.nodeCount > 0
    ensures h == Finish(Run(cfg, Init(cfg, faults), n).0).core.history
    ensures WellTokened(h, tokens) && forall p: nat :: Opened(h, p) == ClosedFor(h, p)
  {
    var c := Finish(Run(cfg, Init(cfg, faults), n).0).core;
    TokensHold(cfg, faults, n);
    HistoriesGated(cfg, faults, n);
    h, tokens := c.history, c.tokens;
    forall p: nat ensures Opened(h, p) == ClosedFor(h, p) {
      assert !Busy(c.pending, p);
    }
  }

  /** On the history of a run a valid verdict in real-time mode implies sequential consistency. */
  lemma LinearizableRunsAreSequential<State(!new), Op(!new)>(
    model: SequentialModel<State, Op>, cfg: Config, faults: seq<(nat, FaultAction)>, n: nat)
    requires cfg.nodeCount > 0
    ensures var h := Finish(Run(cfg, Init(cfg, faults), n).0).core.history;
            HistoryLinearizable(model, true, h) ==> HistoryExplainable(model, false, h)
  {
    var h, tokens := FinishedRuns(cfg, faults, n);
    LinearizableIsSequential(model, h, tokens);
  }

  lemma AllAnswered(h: seq<OpEntry>, tokens: seq<nat>)
    requires WellTokened(h, tokens) && forall p: nat :: Opened(h, p) == ClosedFor(h, p)
    ensures LeftOpen(h) == []
  {
    PairsByToken(Everything(), h, tokens);
    if LeftOpen(h) != [] {
      assert HasOpen(LeftOpen(h), LeftOpen(h)[0].1.process);
    }
  }

  lemma {:induction false} WellTokenedUpTo(h: seq<OpEntry>, tokens: seq<nat>, i: nat)
    requires WellTokened(h, tokens) && i <= |h|
    ensures WellTokened(h[..i], tokens[..i])
    decreases |h|
  {
    if i == |h| {
      assert h[..i] == h && tokens[..i] == tokens;
    } else {
      var n := |h| - 1;
      PrefixWellTokened(h, tokens);
      WellTokenedUpTo(h[..n], tokens[..n], i);
      assert h[..n][..i] == h[..i] && tokens[..n][..i] == tokens[..i];
    }
  }

  /** Every terminal entry answers an invoke. */
  lemma {:induction false} TerminalsAnswer(h: seq<OpEntry>, tokens: seq<nat>, i: nat)
    requires WellTokened(h, tokens) && i < |h| && !h[i].kind.Invoke?
    ensures Answers(h, i)
  {
    WellTokenedUpTo(h, tokens, i + 1);
    WellTokenedUpTo(h, tokens, i);
    assert h[..i + 1] == h[..i] + [h[i]] && tokens[..i + 1] == tokens[..i] + [tokens[i]];
    PairsByToken(Everything(), h[..i], tokens[..i]);
    var idx := TerminalFinds(h[..i], tokens[..i], Pair(Everything(), h[..i]).open, h[i], tokens[i]);
  }

  ghost predicate NothingIndeterminate(h: seq<OpEntry>) {
    forall i :: 0 <= i < |h| ==> !h[i].kind.Info?
  }

  /** On the history of a finished run the real-time verdict is right for every model exactly when no op was
      cut short, and the verdict without real time exactly when besides all completions of each process look
      the same. */
  lemma RunVerdictsAreExact(cfg: Config, faults: seq<(nat, FaultAction)>, n: nat)
    requires cfg.nodeCount > 0
    ensures var h := Finish(Run(cfg, Init(cfg, faults), n).0).core.history;
            && ((forall model: SequentialModel<int, Value> ::
                   HistoryLinearizable(model, true, h) <==> HistoryExplainable(model, true, h))
                <==> NothingIndeterminate(h))
            && ((forall model: SequentialModel<int, Value> ::
                   HistoryLinearizable(model, false, h) <==> HistoryExplainable(model, false, h))
                <==> NothingIndeterminate(h) && Sequential.Monotonous(h))
  {
    var h, tokens := FinishedRuns(cfg, faults, n);
    AllAnswered(h, tokens);
    if AnswersAreDefinite(h) {
      forall i | 0 <= i < |h| ensures !h[i].kind.Info? {
        if h[i].kind.Info? {
          TerminalsAnswer(h, tokens, i);
        }
      }
    }
    assert AnswersAreDefinite(h) <==> NothingIndeterminate(h);
    Indeterminate.VerdictsAreExact(h);
    Sequential.VerdictsAreExact(h);
  }
}
