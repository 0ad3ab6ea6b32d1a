/** From the engine through the codec to the checker: what a run recorded comes back from the wire, and
    gets the same verdict. */
module Transport {
  import opened Ops
  import opened Spans
  import opened Linearizability
  import opened Completions
  import opened Engine
  import opened Runs
  import opened Tokens
  import opened OpFlow
  import Replay
  import opened Edn
  import opened Json
  import opened History
  import opened HistoryRoundTrip

  // ----- The history of a run fits on the wire -----

  /** Entries are numbered by their position. */
  ghost predicate Numbered(h: seq<OpEntry>) {
    forall i :: 0 <= i < |h| ==> h[i].index == i
  }

  lemma KeepsNumbers(cfg: Config)
    ensures KeptByMoves(cfg, (c: Core) => Numbered(c.history))
  {
    forall c: Core, m {:trigger Apply(cfg, c, m)} | Numbered(c.history) && Enabled(cfg, c, m)
      ensures Numbered(Apply(cfg, c, m).history)
    {
      if m.Taking? {
        TakeShape(cfg, c, c.queue[MinIndex(c.queue)], TakeHead(cfg, c));
      }
    }
  }

  lemma RunsAreNumbered(cfg: Config, faults: seq<(nat, FaultAction)>, n: nat)
    requires cfg.nodeCount > 0
    ensures Numbered(Finish(Run(cfg, Init(cfg, faults), n).0).core.history)
  {
    KeepsNumbers(cfg);
    FaultsOnlyQueue(NewCore(), faults);
    RunKeeps(cfg, faults, n, (c: Core) => Numbered(c.history));
    MovesIncludeEffects(cfg, (c: Core) => Numbered(c.history));
    FinishKeeps(cfg, Run(cfg, Init(cfg, faults), n).0, (c: Core) => Numbered(c.history));
  }

  lemma InvokesStayInCluster(cfg: Config, faults: seq<(nat, FaultAction)>, n: nat)
    requires cfg.nodeCount > 0
    ensures var h := Run(cfg, Init(cfg, faults), n).0.core.history;
            forall i :: 0 <= i < |h| && h[i].kind.Invoke? ==> h[i].process < cfg.nodeCount
  {
    if Run(cfg, Init(cfg, faults), n).1 {
      RunFlow(cfg, faults, n);
    } else {
      var k := Replay.LastIteration(cfg, faults, n);
      RunFlow(cfg, faults, k);
      Replay.LastKeepsHistory(cfg, faults, k);
    }
  }

  ghost predicate AddsTerminals(h: seq<OpEntry>, h': seq<OpEntry>) {
    h <= h' && forall i :: |h| <= i < |h'| ==> !h'[i].kind.Invoke?
  }

  lemma {:induction false} ClosingAddsTerminals(c: Core, tokens: seq<nat>)
    ensures AddsTerminals(c.history, CloseAll(c, tokens).history)
    decreases |tokens|
  {
    if tokens == [] {
    } else {
      var c1 := CloseOp(c, tokens[0], Info, Nil);
      assert AddsTerminals(c.history, c1.history);
      ClosingAddsTerminals(c1, tokens[1..]);
    }
  }

  lemma FinishAddsTerminals(c: Core)
    ensures AddsTerminals(c.history, ForceClosePending(c).history)
  {
    ClosingAddsTerminals(c, PendingTokens(c.pending, c.nextToken, None));
  }

  /** Only processes of the cluster appear. */
  lemma RunsStayInCluster(cfg: Config, faults: seq<(nat, FaultAction)>, n: nat)
    requires cfg.nodeCount > 0
    ensures var h := Finish(Run(cfg, Init(cfg, faults), n).0).core.history;
            forall i :: 0 <= i < |h| ==> h[i].process < cfg.nodeCount
  {
    InvokesStayInCluster(cfg, faults, n);
    EveryInvokeIsClosed(cfg, faults, n);
    var w := Run(cfg, Init(cfg, faults), n).0;
    FinishAddsTerminals(w.core);
    var c := Finish(w).core;
    forall j | 0 <= j < |c.history| ensures c.history[j].process < cfg.nodeCount {
      if c.history[j].kind.Invoke? {
        assert w.core.history[j] == c.history[j];
      } else {
        var i: nat :| Tokens.Closes(c.history, c.tokens, i, j);
        assert w.core.history[i] == c.history[i];
      }
    }
  }

  lemma RunsFit(cfg: Config, faults: seq<(nat, FaultAction)>, n: nat)
    requires 0 < cfg.nodeCount <= TWO_64
    requires |Finish(Run(cfg, Init(cfg, faults), n).0).core.history| <= TWO_64
    ensures AllFit(Finish(Run(cfg, Init(cfg, faults), n).0).core.history)
  {
    RunsAreNumbered(cfg, faults, n);
    RunsStayInCluster(cfg, faults, n);
  }

  // ----- The verdict after transport -----

  /** What a run recorded comes back from EDN, and so gets the verdict it would have had, exactly when
      its functions are keyword names and its payloads can be printed. */
  lemma {:induction false} EdnCarriesRuns<State(!new), Op(!new)>(
    model: SequentialModel<State, Op>, realTime: bool, cfg: Config, faults: seq<(nat, FaultAction)>, n: nat)
    requires 0 < cfg.nodeCount <= TWO_64
    requires |Finish(Run(cfg, Init(cfg, faults), n).0).core.history| <= TWO_64
    ensures var h := Finish(Run(cfg, Init(cfg, faults), n).0).core.history;
            && AllFit(h)
            && (FromJepsen(ToEdn(h)) == Some(h) <==> forall i :: 0 <= i < |h| ==> Legible(h[i]))
            && (FromJepsen(ToEdn(h)) == Some(h) ==>
                  (HistoryLinearizable(model, realTime, FromJepsen(ToEdn(h)).value)
                   <==> HistoryLinearizable(model, realTime, h)))
  {
    RunsFit(cfg, faults, n);
    EdnHistoryRoundTrip(Finish(Run(cfg, Init(cfg, faults), n).0).core.history);
  }

  /** A model that decodes what JSON shows of payloads as it decodes the payloads. */
  ghost predicate ReadsThroughJson<State(!new), Op(!new)>(model: SequentialModel<State, Op>) {
    forall f, invoked, returned ::
      model.decode(f, Seen(invoked), Seen(returned)) == model.decode(f, invoked, returned)
  }

  /** Open lists that differ only in what JSON makes of payloads. */
  ghost predicate SeenOpen(open: seq<(nat, OpEntry)>, seen: seq<(nat, OpEntry)>) {
    && |open| == |seen|
    && forall k :: 0 <= k < |open| ==>
         seen[k] == (open[k].0, open[k].1.(value := Seen(open[k].1.value)))
  }

  lemma {:induction false} SeenLastOpen(open: seq<(nat, OpEntry)>, seen: seq<(nat, OpEntry)>, process: nat)
    requires SeenOpen(open, seen)
    ensures LastOpen(open, process) == LastOpen(seen, process)
  {
    if open == [] {
    } else {
      SeenLastOpen(open[..|open| - 1], seen[..|seen| - 1], process);
    }
  }

  lemma SeenStep<State(!new), Op(!new)>(
    model: SequentialModel<State, Op>, st: Pairing<Op>, seen: Pairing<Op>, pos: nat, e: OpEntry)
    requires ReadsThroughJson(model) && SeenOpen(st.open, seen.open) && st.spans == seen.spans
    ensures var e' := e.(value := Seen(e.value));
            var st', seen' := PairStep(model, st, pos, e), PairStep(model, seen, pos, e');
            SeenOpen(st'.open, seen'.open) && st'.spans == seen'.spans
  {
    SeenLastOpen(st.open, seen.open, e.process);
    var last := LastOpen(st.open, e.process);
    if !e.kind.Invoke? && last.Some? {
      var inv := st.open[last.value].1;
      assert model.decode(e.f, Seen(inv.value), Seen(e.value)) == model.decode(e.f, inv.value, e.value);
    }
  }

  lemma {:induction false} SeenSpans<State(!new), Op(!new)>(
    model: SequentialModel<State, Op>, h: seq<OpEntry>, s: seq<OpEntry>)
    requires ReadsThroughJson(model)
    requires |s| == |h| && forall i :: 0 <= i < |h| ==> s[i] == h[i].(value := Seen(h[i].value))
    ensures SeenOpen(Pair(model, h).open, Pair(model, s).open) && Pair(model, h).spans == Pair(model, s).spans
  {
    if h == [] {
    } else {
      var n := |h| - 1;
      SeenSpans(model, h[..n], s[..n]);
      SeenStep(model, Pair(model, h[..n]), Pair(model, s[..n]), n, h[n]);
    }
  }

  /** What a run recorded comes back from JSON with its payloads as JSON shows them; a model that
      decodes those alike gives the verdict it would have given. */
  lemma {:induction false} JsonCarriesRuns<State(!new), Op(!new)>(
    model: SequentialModel<State, Op>, realTime: bool, cfg: Config, faults: seq<(nat, FaultAction)>, n: nat)
    requires 0 < cfg.nodeCount <= TWO_64
    requires |Finish(Run(cfg, Init(cfg, faults), n).0).core.history| <= TWO_64
    ensures var h := Finish(Run(cfg, Init(cfg, faults), n).0).core.history;
            && AllFit(h)
            && FromJepsen(ToJson(h)) == Some(SeenEntries(h))
            && (ReadsThroughJson(model) ==>
                  (HistoryLinearizable(model, realTime, SeenEntries(h)) <==> HistoryLinearizable(model, realTime, h)))
  {
    RunsFit(cfg, faults, n);
    var h := Finish(Run(cfg, Init(cfg, faults), n).0).core.history;
    JsonHistoryRoundTrip(h);
    if ReadsThroughJson(model) {
      SeenSpans(model, h, SeenEntries(h));
    }
  }

  // ----- Which verdicts JSON changes -----

  /** A completion as JSON shows it. */
  function SeenTriple(t: Triple): Triple {
    Triple(t.f, Seen(t.invoked), Seen(t.returned))
  }

  ghost predicate SeenCompletions(completed: seq<Span<Triple>>, seen: seq<Span<Triple>>) {
    && |completed| == |seen|
    && forall k :: 0 <= k < |completed| ==> seen[k] == completed[k].(op := SeenTriple(completed[k].op))
  }

  lemma LeavesSeen(open: seq<(nat, OpEntry)>, seen: seq<(nat, OpEntry)>, k: nat)
    requires SeenOpen(open, seen) && k < |open|
    ensures SeenOpen(open[..k] + open[k + 1..], seen[..k] + seen[k + 1..])
  {
  }

  lemma CompletesSeen(st: Pairing<Triple>, seen: Pairing<Triple>, pos: nat, e: OpEntry)
    requires SeenOpen(st.open, seen.open) && SeenCompletions(st.spans, seen.spans)
    ensures var st', seen' := PairStep(Everything(), st, pos, e),
                              PairStep(Everything(), seen, pos, e.(value := Seen(e.value)));
            SeenOpen(st'.open, seen'.open) && SeenCompletions(st'.spans, seen'.spans)
  {
    SeenLastOpen(st.open, seen.open, e.process);
    var last := LastOpen(st.open, e.process);
    if !e.kind.Invoke? && last.Some? {
      var k := last.value;
      var (start, inv) := st.open[k];
      LeavesSeen(st.open, seen.open, k);
      if !e.kind.Fail? {
        var s := Span(Triple(e.f, inv.value, e.value), Nil, start, pos);
        assert PairStep(Everything(), st, pos, e).spans == st.spans + [s];
        assert PairStep(Everything(), seen, pos, e.(value := Seen(e.value))).spans
            == seen.spans + [s.(op := SeenTriple(s.op))];
      }
    }
  }

  lemma {:induction false} CompletedSeen(h: seq<OpEntry>, s: seq<OpEntry>)
    requires |s| == |h| && forall i :: 0 <= i < |h| ==> s[i] == h[i].(value := Seen(h[i].value))
    ensures SeenOpen(Pair(Everything(), h).open, Pair(Everything(), s).open)
    ensures SeenCompletions(Completed(h), Completed(s))
  {
    if h == [] {
    } else {
      var n := |h| - 1;
      CompletedSeen(h[..n], s[..n]);
      CompletesSeen(Pair(Everything(), h[..n]), Pair(Everything(), s[..n]), n, h[n]);
    }
  }

  /** A model of one operation that is never answered as recorded. */
  function Only(t: Triple): SequentialModel<bool, bool> {
    SequentialModel(
      false,
      (state: bool, op: bool) => (state, Nil),
      (f: string, invoked: Value, returned: Value) =>
        if Triple(f, invoked, returned) == t then Some((true, Bool(true))) else None)
  }

  lemma {:induction false} OnlyDecodes(t: Triple, completed: seq<Span<Triple>>)
    ensures forall i :: 0 <= i < |Decoded(Only(t), completed)| ==>
              Decoded(Only(t), completed)[i].response == Bool(true)
    ensures (exists k :: 0 <= k < |completed| && completed[k].op == t) <==> Decoded(Only(t), completed) != []
  {
    if completed == [] {
    } else {
      var last := |completed| - 1;
      OnlyDecodes(t, completed[..last]);
      assert forall k :: 0 <= k < last ==> completed[..last][k] == completed[k];
    }
  }

  lemma {:induction false} OnlyAccepts(t: Triple, realTime: bool, h: seq<OpEntry>)
    ensures HistoryLinearizable(Only(t), realTime, h) <==>
              forall k :: 0 <= k < |Completed(h)| ==> Completed(h)[k].op != t
  {
    var spans := Pair(Only(t), h).spans;
    PairDecodes(Only(t), h);
    OnlyDecodes(t, Completed(h));
    if spans == [] {
      assert OpenIndices(NoneDone(0)) == {};
      assert IsLinearization(Only(t), realTime, spans, []);
    } else {
      forall order ensures !IsLinearization(Only(t), realTime, spans, order) {
        if Lists(NoneDone(|spans|), order) {
          ListedLength(|spans|, order);
        }
      }
    }
  }

  lemma SeenTwice(v: Value)
    ensures Seen(Seen(v)) == Seen(v)
  {
    JsonRoundTrip(v);
    ReadIsJsonOk(SkipSpace(JsonText(v)));
    SeenUnchanged(Seen(v));
  }

  /** JSON leaves every completion as it is. */
  ghost predicate CompletionsSurvive(h: seq<OpEntry>) {
    forall k :: 0 <= k < |Completed(h)| ==> JsonOk(Completed(h)[k].op.invoked) && JsonOk(Completed(h)[k].op.returned)
  }

  lemma {:induction false} SurvivingVerdicts<State(!new), Op(!new)>(
    model: SequentialModel<State, Op>, realTime: bool, h: seq<OpEntry>)
    requires CompletionsSurvive(h)
    ensures HistoryLinearizable(model, realTime, SeenEntries(h)) <==> HistoryLinearizable(model, realTime, h)
  {
    CompletedSeen(h, SeenEntries(h));
    forall k | 0 <= k < |Completed(h)| ensures Completed(SeenEntries(h))[k] == Completed(h)[k] {
      SeenUnchanged(Completed(h)[k].op.invoked);
      SeenUnchanged(Completed(h)[k].op.returned);
    }
    assert Completed(SeenEntries(h)) == Completed(h);
    PairDecodes(model, h);
    PairDecodes(model, SeenEntries(h));
  }

  /** A completion that JSON shows differently, and some model's verdict changes. */
  lemma {:induction false} ChangedVerdict(h: seq<OpEntry>) returns (t: Triple)
    requires !CompletionsSurvive(h)
    ensures HistoryLinearizable(Only(t), true, SeenEntries(h)) && !HistoryLinearizable(Only(t), true, h)
  {
    var i :| 0 <= i < |Completed(h)|
             && !(JsonOk(Completed(h)[i].op.invoked) && JsonOk(Completed(h)[i].op.returned));
    t := Completed(h)[i].op;
    var seen := Completed(SeenEntries(h));
    CompletedSeen(h, SeenEntries(h));
    SeenUnchanged(t.invoked);
    SeenUnchanged(t.returned);
    forall k | 0 <= k < |seen| ensures seen[k].op != t {
      SeenTwice(Completed(h)[k].op.invoked);
      SeenTwice(Completed(h)[k].op.returned);
    }
    OnlyAccepts(t, true, SeenEntries(h));
    OnlyAccepts(t, true, h);
  }

  /** Carrying a history through JSON leaves every model's verdict as it was, in either mode, exactly when
      the payloads of all completed operations survive JSON. */
  lemma {:induction false} JsonVerdictsAreExact(h: seq<OpEntry>)
    ensures (forall model: SequentialModel<bool, bool>, realTime: bool ::
               HistoryLinearizable(model, realTime, SeenEntries(h)) <==> HistoryLinearizable(model, realTime, h))
       <==> CompletionsSurvive(h)
  {
    if CompletionsSurvive(h) {
      forall model: SequentialModel<bool, bool>, realTime: bool
        ensures HistoryLinearizable(model, realTime, SeenEntries(h)) <==> HistoryLinearizable(model, realTime, h)
      {
        SurvivingVerdicts(model, realTime, h);
      }
    } else {
      var t := ChangedVerdict(h);
      assert !(HistoryLinearizable(Only(t), true, SeenEntries(h)) <==> HistoryLinearizable(Only(t), true, h));
    }
  }
}
