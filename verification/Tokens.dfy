/** Operation tokens: every invoke has its own token, and a terminal entry closes exactly one
    earlier invoke, under the same process and function name. */
module Tokens {
  import opened Ops
  import opened Engine
  import opened Runs

  /** Entry `j` is the terminal entry of the invoke at `i`. */
  predicate Closes(h: seq<OpEntry>, tokens: seq<nat>, i: nat, j: nat) {
    && i < j < |h| && |tokens| == |h|
    && h[i].kind.Invoke? && !h[j].kind.Invoke?
    && tokens[i] == tokens[j]
    && h[i].process == h[j].process
    && h[i].f == h[j].f
  }

  /** An invoke of token `t` recorded for pending op `p`. */
  predicate Opens(h: seq<OpEntry>, tokens: seq<nat>, i: nat, t: nat, p: PendingOp) {
    && i < |h| && |tokens| == |h|
    && h[i].kind.Invoke? && tokens[i] == t && h[i].process == p.process && h[i].f == p.f
  }

  ghost predicate DistinctTokens(h: seq<OpEntry>, tokens: seq<nat>) {
    && |tokens| == |h|
    && forall i, j :: 0 <= i < j < |h| && tokens[i] == tokens[j] ==> h[i].kind.Invoke? && !h[j].kind.Invoke?
  }

  ghost predicate TerminalsClose(h: seq<OpEntry>, tokens: seq<nat>) {
    forall j :: 0 <= j < |h| && !h[j].kind.Invoke? ==> exists i: nat :: Closes(h, tokens, i, j)
  }

  ghost predicate InvokesClosed(h: seq<OpEntry>, tokens: seq<nat>, pending: map<nat, PendingOp>) {
    |tokens| == |h| &&
    forall i: nat :: i < |h| && h[i].kind.Invoke? ==>
      tokens[i] in pending || exists j: nat :: Closes(h, tokens, i, j)
  }

  ghost predicate PendingOpened(h: seq<OpEntry>, tokens: seq<nat>, pending: map<nat, PendingOp>) {
    |tokens| == |h| &&
    forall t :: t in pending ==>
      && (exists i: nat :: Opens(h, tokens, i, t, pending[t]))
      && (forall j :: 0 <= j < |h| && tokens[j] == t ==> h[j].kind.Invoke?)
  }

  ghost predicate TokensOk(c: Core) {
    && DistinctTokens(c.history, c.tokens)
    && (forall i :: 0 <= i < |c.tokens| ==> c.tokens[i] < c.nextToken)
    && TerminalsClose(c.history, c.tokens)
    && InvokesClosed(c.history, c.tokens, c.pending)
    && PendingOpened(c.history, c.tokens, c.pending)
  }

  lemma ClosesStill(h: seq<OpEntry>, tokens: seq<nat>, e: OpEntry, t: nat, i: nat, j: nat)
    requires Closes(h, tokens, i, j)
    ensures Closes(h + [e], tokens + [t], i, j)
  {
  }

  lemma TerminalsStill(h: seq<OpEntry>, tokens: seq<nat>, e: OpEntry, t: nat)
    requires TerminalsClose(h, tokens) && |tokens| == |h|
    requires !e.kind.Invoke? ==> exists i: nat :: Closes(h + [e], tokens + [t], i, |h|)
    ensures TerminalsClose(h + [e], tokens + [t])
  {
    var h', tokens' := h + [e], tokens + [t];
    forall j | 0 <= j < |h'| && !h'[j].kind.Invoke? ensures exists i: nat :: Closes(h', tokens', i, j) {
      if j < |h| {
        var i: nat :| Closes(h, tokens, i, j);
        ClosesStill(h, tokens, e, t, i, j);
      }
    }
  }

  lemma DistinctStill(h: seq<OpEntry>, tokens: seq<nat>, e: OpEntry, t: nat)
    requires DistinctTokens(h, tokens)
    requires forall i :: 0 <= i < |h| && tokens[i] == t ==> h[i].kind.Invoke? && !e.kind.Invoke?
    ensures DistinctTokens(h + [e], tokens + [t])
  {
  }

  /** One more entry: an invoke stays closed, or stays pending unless it is the one now closed. */
  lemma InvokesStill(h: seq<OpEntry>, tokens: seq<nat>, pending: map<nat, PendingOp>,
                     e: OpEntry, t: nat, pending': map<nat, PendingOp>)
    requires InvokesClosed(h, tokens, pending)
    requires e.kind.Invoke? ==> t in pending'
    requires forall u :: u in pending && u !in pending' ==>
               forall i: nat :: i < |h| && h[i].kind.Invoke? && tokens[i] == u ==> Closes(h + [e], tokens + [t], i, |h|)
    ensures InvokesClosed(h + [e], tokens + [t], pending')
  {
    var h', tokens' := h + [e], tokens + [t];
    forall i: nat | i < |h'| && h'[i].kind.Invoke?
      ensures tokens'[i] in pending' || exists j: nat :: Closes(h', tokens', i, j)
    {
      if i < |h| && tokens[i] !in pending {
        var j: nat :| Closes(h, tokens, i, j);
        ClosesStill(h, tokens, e, t, i, j);
      }
    }
  }

  lemma OpenPending(c: Core, c': Core, e: OpEntry, p: PendingOp)
    requires TokensOk(c)
    requires c'.history == c.history + [e] && c'.tokens == c.tokens + [c.nextToken]
    requires e.kind.Invoke? && e.process == p.process && e.f == p.f
    requires c'.pending == c.pending[c.nextToken := p]
    ensures PendingOpened(c'.history, c'.tokens, c'.pending)
  {
    forall t | t in c'.pending
      ensures exists i: nat :: Opens(c'.history, c'.tokens, i, t, c'.pending[t])
    {
      if t == c.nextToken {
        assert Opens(c'.history, c'.tokens, |c.history|, t, p);
      } else {
        var i: nat :| Opens(c.history, c.tokens, i, t, c.pending[t]);
        assert Opens(c'.history, c'.tokens, i, t, c'.pending[t]);
      }
    }
  }

  lemma OpenTokens(c: Core, process: nat, f: string, value: Value)
    requires TokensOk(c)
    ensures TokensOk(OpenOp(c, process, f, value))
  {
    var c' := OpenOp(c, process, f, value);
    var e := c'.history[|c.history|];
    assert c'.history == c.history + [e] && c'.tokens == c.tokens + [c.nextToken];
    TerminalsStill(c.history, c.tokens, e, c.nextToken);
    DistinctStill(c.history, c.tokens, e, c.nextToken);
    InvokesStill(c.history, c.tokens, c.pending, e, c.nextToken, c'.pending);
    OpenPending(c, c', e, PendingOp(process, f));
  }

  lemma CloseCloses(c: Core, e: OpEntry, token: nat)
    requires TokensOk(c) && token in c.pending
    requires !e.kind.Invoke? && e.process == c.pending[token].process && e.f == c.pending[token].f
    ensures token < c.nextToken
    ensures exists i: nat :: Closes(c.history + [e], c.tokens + [token], i, |c.history|)
    ensures forall i: nat :: i < |c.history| && c.history[i].kind.Invoke? && c.tokens[i] == token ==>
              Closes(c.history + [e], c.tokens + [token], i, |c.history|)
  {
    var o: nat :| Opens(c.history, c.tokens, o, token, c.pending[token]);
    assert Closes(c.history + [e], c.tokens + [token], o, |c.history|);
    forall i: nat | i < |c.history| && c.history[i].kind.Invoke? && c.tokens[i] == token
      ensures i == o
    {
      assert i < o || i == o || o < i;
    }
  }

  lemma ClosePending(c: Core, c': Core, e: OpEntry, token: nat)
    requires TokensOk(c) && token in c.pending
    requires c'.history == c.history + [e] && c'.tokens == c.tokens + [token]
    requires c'.pending == c.pending - {token}
    ensures PendingOpened(c'.history, c'.tokens, c'.pending)
  {
    forall t | t in c'.pending
      ensures exists i: nat :: Opens(c'.history, c'.tokens, i, t, c'.pending[t])
    {
      var i: nat :| Opens(c.history, c.tokens, i, t, c.pending[t]);
      assert Opens(c'.history, c'.tokens, i, t, c'.pending[t]);
    }
  }

  lemma CloseTokens(c: Core, token: nat, kind: OpKind, value: Value)
    requires TokensOk(c) && !kind.Invoke? && token in c.pending
    ensures TokensOk(CloseOp(c, token, kind, value))
  {
    var c' := CloseOp(c, token, kind, value);
    var e := c'.history[|c.history|];
    assert c'.history == c.history + [e] && c'.tokens == c.tokens + [token];
    assert TerminalsClose(c'.history, c'.tokens) by {
      CloseCloses(c, e, token);
      TerminalsStill(c.history, c.tokens, e, token);
    }
    assert DistinctTokens(c'.history, c'.tokens) by {
      DistinctStill(c.history, c.tokens, e, token);
    }
    assert InvokesClosed(c'.history, c'.tokens, c'.pending) by {
      CloseCloses(c, e, token);
      InvokesStill(c.history, c.tokens, c.pending, e, token, c'.pending);
    }
    assert PendingOpened(c'.history, c'.tokens, c'.pending) by {
      ClosePending(c, c', e, token);
    }
    assert token < c.nextToken by {
      CloseCloses(c, e, token);
    }
  }

  lemma KeepsTokens(cfg: Config)
    ensures KeptByMoves(cfg, c => TokensOk(c))
  {
    forall c, m {:trigger Apply(cfg, c, m)} | TokensOk(c) && Enabled(cfg, c, m) ensures TokensOk(Apply(cfg, c, m)) {
      match m
      case Opening(process, f, value) => OpenTokens(c, process, f, value);
      case Closing(token, kind, value) =>
        if token in c.pending {
          CloseTokens(c, token, kind, value);
        }
      case Taking => TakeShape(cfg, c, c.queue[MinIndex(c.queue)], TakeHead(cfg, c));
      case _ =>
    }
  }

  // ----- Closing everything at the end -----

  lemma {:induction false} TokensComplete(pending: map<nat, PendingOp>, bound: nat)
    ensures forall t :: t in PendingTokens(pending, bound, None) <==> t in pending && t < bound
  {
    if bound == 0 {
    } else {
      TokensComplete(pending, bound - 1);
    }
  }

  lemma {:induction false} CloseAllCloses(c: Core, tokens: seq<nat>)
    ensures CloseAll(c, tokens).pending == c.pending - (set t | t in tokens)
    decreases |tokens|
  {
    if tokens != [] {
      CloseAllCloses(CloseOp(c, tokens[0], Info, Nil), tokens[1..]);
      assert (set t | t in tokens) == {tokens[0]} + (set t | t in tokens[1..]);
    } else {
      assert (set t | t in tokens) == {};
    }
  }

  // ----- What a crash closes -----

  lemma {:induction false} VictimsExact(pending: map<nat, PendingOp>, bound: nat, n: nat)
    ensures forall t :: t in PendingTokens(pending, bound, Some(n)) <==>
                          t in pending && t < bound && pending[t].process == n
  {
    if bound == 0 {
    } else {
      VictimsExact(pending, bound - 1, n);
    }
  }

  ghost predicate AddsInfos(h: seq<OpEntry>, h': seq<OpEntry>, n: nat) {
    && h <= h'
    && forall i :: |h| <= i < |h'| ==> h'[i].kind.Info? && h'[i].process == n && h'[i].value == Nil
  }

  lemma {:induction false} CloseAllInfos(c: Core, tokens: seq<nat>, n: nat)
    requires forall t :: t in tokens && t in c.pending ==> c.pending[t].process == n
    ensures AddsInfos(c.history, CloseAll(c, tokens).history, n)
    decreases |tokens|
  {
    if tokens == [] {
    } else {
      var c1 := CloseOp(c, tokens[0], Info, Nil);
      assert AddsInfos(c.history, c1.history, n);
      CloseAllInfos(c1, tokens[1..], n);
    }
  }

  lemma PendingAreIssued(c: Core)
    requires TokensOk(c)
    ensures forall t :: t in c.pending ==> t < c.nextToken
  {
    forall t | t in c.pending ensures t < c.nextToken {
      var i: nat :| Opens(c.history, c.tokens, i, t, c.pending[t]);
    }
  }

  ghost predicate Distinct(tokens: seq<nat>) {
    forall a, b :: 0 <= a < b < |tokens| ==> tokens[a] != tokens[b]
  }

  lemma {:induction false} VictimsOnce(pending: map<nat, PendingOp>, bound: nat, n: nat)
    ensures Distinct(PendingTokens(pending, bound, Some(n)))
  {
    if bound == 0 {
    } else {
      var before, all := PendingTokens(pending, bound - 1, Some(n)), PendingTokens(pending, bound, Some(n));
      VictimsOnce(pending, bound - 1, n);
      VictimsExact(pending, bound - 1, n);
      forall a, b | 0 <= a < b < |all| ensures all[a] != all[b] {
        assert before[a] in before && all[a] == before[a];
        if b < |before| {
          assert all[b] == before[b];
        }
      }
    }
  }

  lemma {:induction false} CloseAllRecords(c: Core, tokens: seq<nat>)
    requires forall t :: t in tokens ==> t in c.pending
    requires Distinct(tokens)
    ensures CloseAll(c, tokens).tokens == c.tokens + tokens
    decreases |tokens|
  {
    if tokens == [] {
    } else {
      var more := tokens[1..];
      forall t | t in more ensures t != tokens[0] {
        var k :| 0 <= k < |more| && more[k] == t;
        assert tokens[k + 1] == t;
      }
      CloseAllRecords(CloseOp(c, tokens[0], Info, Nil), more);
      assert c.tokens + [tokens[0]] + more == c.tokens + tokens;
    }
  }

  /** A crash answers, as indeterminate and once each, exactly the pending ops that the process of that
      number issued: not the ops its node was serving for others. */
  lemma CrashClosesByProcess(c: Core, n: nat)
    requires TokensOk(c)
    ensures var down := Inject(c, Crash(n));
            var c' := CloseAll(down, Victims(down, Fault(Crash(n))));
            && (forall t :: t in c'.pending <==> t in c.pending && c.pending[t].process != n)
            && AddsInfos(c.history, c'.history, n)
            && c'.tokens == c.tokens + PendingTokens(c.pending, c.nextToken, Some(n))
  {
    var down := Inject(c, Crash(n));
    var tokens := PendingTokens(c.pending, c.nextToken, Some(n));
    assert Victims(down, Fault(Crash(n))) == tokens && down.pending == c.pending && down.history == c.history;
    PendingAreIssued(c);
    VictimsExact(c.pending, c.nextToken, n);
    VictimsOnce(c.pending, c.nextToken, n);
    CloseAllCloses(down, tokens);
    CloseAllInfos(down, tokens, n);
    CloseAllRecords(down, tokens);
  }

  // ----- Nothing is left pending -----

  lemma FinishClosesAll(c: Core)
    requires TokensOk(c)
    ensures ForceClosePending(c).pending == map[]
  {
    TokensComplete(c.pending, c.nextToken);
    var tokens := PendingTokens(c.pending, c.nextToken, None);
    CloseAllCloses(c, tokens);
    forall t | t in c.pending ensures t in tokens {
      var i: nat :| Opens(c.history, c.tokens, i, t, c.pending[t]);
    }
    assert c.pending.Keys == set t | t in tokens;
  }

  lemma TokensHold(cfg: Config, faults: seq<(nat, FaultAction)>, n: nat)
    requires cfg.nodeCount > 0
    ensures TokensOk(Run(cfg, Init(cfg, faults), n).0.core)
    ensures TokensOk(Finish(Run(cfg, Init(cfg, faults), n).0).core)
    ensures Finish(Run(cfg, Init(cfg, faults), n).0).core.pending == map[]
  {
    KeepsTokens(cfg);
    FaultsOnlyQueue(NewCore(), faults);
    RunKeeps(cfg, faults, n, c => TokensOk(c));
    var w := Run(cfg, Init(cfg, faults), n).0;
    MovesIncludeEffects(cfg, c => TokensOk(c));
    FinishKeeps(cfg, w, c => TokensOk(c));
    FinishClosesAll(w.core);
  }

  lemma ClosesUnique(c: Core)
    requires TokensOk(c)
    ensures forall i: nat, j: nat, i': nat, j': nat
            {:trigger Closes(c.history, c.tokens, i, j), Closes(c.history, c.tokens, i', j')} ::
              Closes(c.history, c.tokens, i, j) && Closes(c.history, c.tokens, i', j') ==> (i == i' <==> j == j')
  {
    forall i: nat, j: nat, i': nat, j': nat
        {:trigger Closes(c.history, c.tokens, i, j), Closes(c.history, c.tokens, i', j')}
      | Closes(c.history, c.tokens, i, j) && Closes(c.history, c.tokens, i', j')
      ensures i == i' <==> j == j'
    {
      assert i < i' || i == i' || i' < i;
      assert j < j' || j == j' || j' < j;
    }
  }

  /** In the history a run leaves behind, every invoke has exactly one terminal entry, later and
      with the same process and function, and every terminal entry closes exactly one invoke. */
  lemma EveryInvokeIsClosed(cfg: Config, faults: seq<(nat, FaultAction)>, n: nat)
    requires cfg.nodeCount > 0
    ensures var c := Finish(Run(cfg, Init(cfg, faults), n).0).core;
            && |c.tokens| == |c.history|
            && (forall i: nat :: i < |c.history| && c.history[i].kind.Invoke? ==>
                  exists j: nat :: Closes(c.history, c.tokens, i, j))
            && (forall j: nat :: j < |c.history| && !c.history[j].kind.Invoke? ==>
                  exists i: nat :: Closes(c.history, c.tokens, i, j))
            && (forall i: nat, j: nat, i': nat, j': nat
                {:trigger Closes(c.history, c.tokens, i, j), Closes(c.history, c.tokens, i', j')} ::
                  Closes(c.history, c.tokens, i, j) && Closes(c.history, c.tokens, i', j') ==> (i == i' <==> j == j'))
  {
    TokensHold(cfg, faults, n);
    ClosesUnique(Finish(Run(cfg, Init(cfg, faults), n).0).core);
  }
}
