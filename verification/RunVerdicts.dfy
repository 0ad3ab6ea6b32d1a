/** The checker applied to the engine's histories. Span parsing guesses the invoke of a completion
    by process; on every history the engine records the guess is right, so the verdict on a run is
    linearizability of the operations that were really issued. */
module RunVerdicts {
  import opened Ops
  import opened Spans
  import opened Linearizability
  import opened Engine
  import opened Tokens
  import opened Gate

  /** The position of the invoke with token `t`. */
  function InvokeOf(h: seq<OpEntry>, tokens: seq<nat>, t: nat): (r: Option<nat>)
    requires |h| == |tokens|
    ensures r.Some? ==> r.value < |h| && h[r.value].kind.Invoke? && tokens[r.value] == t
    ensures r.None? ==> forall i :: 0 <= i < |h| ==> !(h[i].kind.Invoke? && tokens[i] == t)
  {
    if h == [] then None
    else
      var last := |h| - 1;
      if h[last].kind.Invoke? && tokens[last] == t then Some(last) else InvokeOf(h[..last], tokens[..last], t)
  }

  /** The spans of a history, pairing each completion with the invoke it closed, by token. */
  function TokenSpans<State(!new), Op(!new)>(
    model: SequentialModel<State, Op>, h: seq<OpEntry>, tokens: seq<nat>): seq<Span<Op>>
    requires |h| == |tokens|
  {
    if h == [] then []
    else
      var last := |h| - 1;
      var before := TokenSpans(model, h[..last], tokens[..last]);
      if h[last].kind.Invoke? || h[last].kind.Fail? then before
      else
        match InvokeOf(h[..last], tokens[..last], tokens[last])
        case None => before
        case Some(i) =>
          match model.decode(h[last].f, h[i].value, h[last].value)
          case None => before
          case Some((op, response)) => before + [Span(op, response, i, last)]
  }

  ghost predicate HasOpen(open: seq<(nat, OpEntry)>, p: nat) {
    exists k :: 0 <= k < |open| && open[k].1.process == p
  }

  ghost predicate Unanswered(h: seq<OpEntry>, tokens: seq<nat>, i: nat)
    requires |h| == |tokens|
  {
    && i < |h| && h[i].kind.Invoke?
    && forall j :: 0 <= j < |h| && tokens[j] == tokens[i] ==> h[j].kind.Invoke?
  }

  /** The scan's open list holds exactly the unanswered invokes, at most one per process. */
  ghost predicate OpenExact(h: seq<OpEntry>, tokens: seq<nat>, open: seq<(nat, OpEntry)>)
    requires |h| == |tokens|
  {
    && OpenInvokes(h, open)
    && (forall k, l :: 0 <= k < l < |open| ==> open[k].1.process != open[l].1.process)
    && (forall p: nat :: HasOpen(open, p) <==> Opened(h, p) == ClosedFor(h, p) + 1)
    && (forall i: nat :: i < |h| && Unanswered(h, tokens, i) ==> exists k :: 0 <= k < |open| && open[k].0 == i)
  }

  ghost predicate WellTokened(h: seq<OpEntry>, tokens: seq<nat>) {
    DistinctTokens(h, tokens) && TerminalsClose(h, tokens) && Alternating(h)
  }

  lemma PrefixWellTokened(h: seq<OpEntry>, tokens: seq<nat>)
    requires h != [] && WellTokened(h, tokens)
    ensures WellTokened(h[..|h| - 1], tokens[..|h| - 1])
  {
    var n := |h| - 1;
    var h0, t0 := h[..n], tokens[..n];
    forall j | 0 <= j < n && !h0[j].kind.Invoke? ensures exists i: nat :: Closes(h0, t0, i, j) {
      var i: nat :| Closes(h, tokens, i, j);
      assert Closes(h0, t0, i, j);
    }
    assert forall i :: 0 <= i <= n ==> h0[..i] == h[..i];
  }

  lemma GateAtEnd(h: seq<OpEntry>, p: nat)
    requires Alternating(h)
    ensures ClosedFor(h, p) <= Opened(h, p) <= ClosedFor(h, p) + 1
  {
    assert h[..|h|] == h;
  }

  lemma UnansweredBefore(h: seq<OpEntry>, tokens: seq<nat>, e: OpEntry, t: nat, i: nat)
    requires |h| == |tokens| && i < |h| && Unanswered(h + [e], tokens + [t], i)
    ensures Unanswered(h, tokens, i)
  {
    var h', tokens' := h + [e], tokens + [t];
    forall j | 0 <= j < |h| && tokens[j] == tokens[i] ensures h[j].kind.Invoke? {
      assert h'[j] == h[j] && tokens'[j] == tokens[j] && tokens'[i] == tokens[i];
    }
  }

  lemma InvokeKeepsExact(h: seq<OpEntry>, tokens: seq<nat>, open: seq<(nat, OpEntry)>, e: OpEntry, t: nat)
    requires WellTokened(h + [e], tokens + [t]) && |h| == |tokens| && OpenExact(h, tokens, open) && e.kind.Invoke?
    ensures OpenExact(h + [e], tokens + [t], open + [(|h|, e)])
  {
    var h', tokens', open' := h + [e], tokens + [t], open + [(|h|, e)];
    forall p: nat ensures HasOpen(open', p) <==> Opened(h', p) == ClosedFor(h', p) + 1 {
      CountSnoc(h, e, p);
      GateAtEnd(h', p);
      if HasOpen(open, p) {
        var k :| 0 <= k < |open| && open[k].1.process == p;
        assert open'[k].1.process == p;
      }
      if p == e.process {
        assert open'[|open|].1.process == p;
      }
    }
    CountSnoc(h, e, e.process);
    GateAtEnd(h', e.process);
    assert !HasOpen(open, e.process);
    forall i: nat | i < |h'| && Unanswered(h', tokens', i) ensures exists k :: 0 <= k < |open'| && open'[k].0 == i {
      if i < |h| {
        UnansweredBefore(h, tokens, e, t, i);
        var k :| 0 <= k < |open| && open[k].0 == i;
        assert open'[k].0 == i;
      } else {
        assert open'[|open|].0 == i;
      }
    }
  }

  /** A terminal entry finds the invoke with its own token. */
  lemma TerminalFinds(h: seq<OpEntry>, tokens: seq<nat>, open: seq<(nat, OpEntry)>, e: OpEntry, t: nat)
    returns (idx: nat)
    requires WellTokened(h + [e], tokens + [t]) && |h| == |tokens| && OpenExact(h, tokens, open) && !e.kind.Invoke?
    ensures LastOpen(open, e.process) == Some(idx)
    ensures InvokeOf(h, tokens, t) == Some(open[idx].0)
  {
    var h', tokens' := h + [e], tokens + [t];
    var i: nat :| Closes(h', tokens', i, |h|);
    assert Closes(h', tokens', i, |h|);
    assert h'[i] == h[i] && tokens'[i] == tokens[i];
    assert Unanswered(h, tokens, i) by {
      forall j | 0 <= j < |h| && tokens[j] == t ensures h[j].kind.Invoke? {
        assert tokens'[j] == tokens'[|h|];
      }
    }
    idx :| 0 <= idx < |open| && open[idx].0 == i;
    var found := InvokeOf(h, tokens, t);
    assert found.Some? && tokens'[found.value] == tokens'[i];
    assert found.value == i;
  }

  lemma TerminalOpenInvokes(h: seq<OpEntry>, open: seq<(nat, OpEntry)>, e: OpEntry, idx: nat)
    requires idx < |open| && OpenInvokes(h, open)
    requires forall k, l :: 0 <= k < l < |open| ==> open[k].1.process != open[l].1.process
    ensures OpenInvokes(h + [e], Without(open, idx))
    ensures forall k, l :: 0 <= k < l < |open| - 1 ==>
              Without(open, idx)[k].1.process != Without(open, idx)[l].1.process
  {
    var open' := Without(open, idx);
    assert forall k :: 0 <= k < |open'| ==> open'[k] == open[if k < idx then k else k + 1];
  }

  lemma RemovalAndOpen(open: seq<(nat, OpEntry)>, idx: nat, p: nat)
    requires idx < |open|
    requires forall k, l :: 0 <= k < l < |open| ==> open[k].1.process != open[l].1.process
    ensures HasOpen(Without(open, idx), p) <==> HasOpen(open, p) && p != open[idx].1.process
  {
    var open' := Without(open, idx);
    if HasOpen(open, p) && p != open[idx].1.process {
      var k :| 0 <= k < |open| && open[k].1.process == p;
      assert open'[if k < idx then k else k - 1].1.process == p;
    }
    if HasOpen(open', p) {
      var k :| 0 <= k < |open'| && open'[k].1.process == p;
      assert open[if k < idx then k else k + 1].1.process == p;
    }
  }

  lemma TerminalLeaves(h: seq<OpEntry>, tokens: seq<nat>, open: seq<(nat, OpEntry)>, e: OpEntry, t: nat, idx: nat,
      i: nat)
    returns (k: nat)
    requires |h| == |tokens| && OpenExact(h, tokens, open) && !e.kind.Invoke?
    requires idx < |open| && InvokeOf(h, tokens, t) == Some(open[idx].0)
    requires i < |h| + 1 && Unanswered(h + [e], tokens + [t], i)
    ensures k < |Without(open, idx)| && Without(open, idx)[k].0 == i
  {
    UnansweredBefore(h, tokens, e, t, i);
    var j :| 0 <= j < |open| && open[j].0 == i;
    assert (h + [e])[|h|] == e && (tokens + [t])[|h|] == t && (tokens + [t])[i] == tokens[i];
    k := if j < idx then j else j - 1;
  }

  lemma TerminalKeepsExact(h: seq<OpEntry>, tokens: seq<nat>, open: seq<(nat, OpEntry)>, e: OpEntry, t: nat, idx: nat)
    requires WellTokened(h + [e], tokens + [t]) && |h| == |tokens| && OpenExact(h, tokens, open) && !e.kind.Invoke?
    requires LastOpen(open, e.process) == Some(idx) && InvokeOf(h, tokens, t) == Some(open[idx].0)
    ensures OpenExact(h + [e], tokens + [t], Without(open, idx))
  {
    var open' := Without(open, idx);
    TerminalOpenInvokes(h, open, e, idx);
    forall p: nat ensures HasOpen(open', p) <==> Opened(h + [e], p) == ClosedFor(h + [e], p) + 1 {
      CountSnoc(h, e, p);
      GateAtEnd(h + [e], p);
      RemovalAndOpen(open, idx, p);
    }
    forall i: nat | i < |h| + 1 && Unanswered(h + [e], tokens + [t], i)
      ensures exists k :: 0 <= k < |open'| && open'[k].0 == i
    {
      var k := TerminalLeaves(h, tokens, open, e, t, idx, i);
    }
  }

  lemma TerminalPairs<State(!new), Op(!new)>(
    model: SequentialModel<State, Op>, h: seq<OpEntry>, tokens: seq<nat>, st: Pairing<Op>, e: OpEntry, t: nat, idx: nat)
    requires |h| == |tokens| && !e.kind.Invoke? && LastOpen(st.open, e.process) == Some(idx)
    requires st.open[idx].0 < |h| && st.open[idx].1 == h[st.open[idx].0]
    requires InvokeOf(h, tokens, t) == Some(st.open[idx].0)
    requires st.spans == TokenSpans(model, h, tokens)
    ensures PairStep(model, st, |h|, e).open == Without(st.open, idx)
    ensures PairStep(model, st, |h|, e).spans == TokenSpans(model, h + [e], tokens + [t])
  {
    assert (h + [e])[..|h|] == h && (tokens + [t])[..|h|] == tokens;
    assert (h + [e])[st.open[idx].0] == st.open[idx].1;
  }

  /** One entry of the scan against one entry of the token pairing. */
  lemma EntryPairs<State(!new), Op(!new)>(
    model: SequentialModel<State, Op>, h: seq<OpEntry>, tokens: seq<nat>, st: Pairing<Op>, e: OpEntry, t: nat)
    requires WellTokened(h + [e], tokens + [t]) && |h| == |tokens| && OpenExact(h, tokens, st.open)
    requires st.spans == TokenSpans(model, h, tokens)
    ensures OpenExact(h + [e], tokens + [t], PairStep(model, st, |h|, e).open)
    ensures PairStep(model, st, |h|, e).spans == TokenSpans(model, h + [e], tokens + [t])
  {
    assert (h + [e])[..|h|] == h && (tokens + [t])[..|h|] == tokens;
    if e.kind.Invoke? {
      InvokeKeepsExact(h, tokens, st.open, e, t);
    } else {
      var idx := TerminalFinds(h, tokens, st.open, e, t);
      assert st.open[idx].1 == h[st.open[idx].0];
      TerminalPairs(model, h, tokens, st, e, t, idx);
      TerminalKeepsExact(h, tokens, st.open, e, t, idx);
    }
  }

  /** On a well-tokened history, pairing by process is pairing by token. */
  lemma {:induction false} PairsByToken<State(!new), Op(!new)>(
    model: SequentialModel<State, Op>, h: seq<OpEntry>, tokens: seq<nat>)
    requires WellTokened(h, tokens)
    ensures OpenExact(h, tokens, Pair(model, h).open)
    ensures Pair(model, h).spans == TokenSpans(model, h, tokens)
  {
    if h == [] {
    } else {
      var n := |h| - 1;
      PrefixWellTokened(h, tokens);
      PairsByToken(model, h[..n], tokens[..n]);
      assert h[..n] + [h[n]] == h && tokens[..n] + [tokens[n]] == tokens;
      EntryPairs(model, h[..n], tokens[..n], Pair(model, h[..n]), h[n], tokens[n]);
    }
  }

  /** On the history of any run, at any moment and after force-closing, the spans the checker
      searches are the operations the engine issued. */
  lemma RunSpansAreOperations<State(!new), Op(!new)>(
    model: SequentialModel<State, Op>, cfg: Config, faults: seq<(nat, FaultAction)>, n: nat)
    requires cfg.nodeCount > 0
    ensures var c := Run(cfg, Init(cfg, faults), n).0.core;
            |c.tokens| == |c.history| && Pair(model, c.history).spans == TokenSpans(model, c.history, c.tokens)
    ensures var c := Finish(Run(cfg, Init(cfg, faults), n).0).core;
            |c.tokens| == |c.history| && Pair(model, c.history).spans == TokenSpans(model, c.history, c.tokens)
  {
    TokensHold(cfg, faults, n);
    HistoriesGated(cfg, faults, n);
    var w := Run(cfg, Init(cfg, faults), n).0;
    PairsByToken(model, w.core.history, w.core.tokens);
    PairsByToken(model, Finish(w).core.history, Finish(w).core.tokens);
  }
}
