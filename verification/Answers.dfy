/** What the nodes answered, and what the history says they did. The answers of a run are collected from the
    callbacks alone; every terminal entry is then accounted for, and every answer to an open operation is
    recorded (`complete_op`, crates/propsim-sim/src/ctx.rs, and `dispatch_client_op`, lib.rs). */
module Answers {
  import opened Ops
  import opened Engine
  import opened Runs
  import opened Tokens
  import opened Sending

  // ----- The answers of a run -----

  /** A node answered `token` when the history had `mark` entries. */
  datatype Answer = Answer(token: nat, mark: nat, completion: Completion)

  function ExecAnswers<A>(cfg: Config, c: Core, me: nat, cb: Callback<A>): seq<Answer>
    decreases cb
  {
    match cb
    case Return(_) => []
    case Do(effect, next) =>
      (if effect.CompleteOp? then [Answer(effect.token, |c.history|, effect.completion)] else [])
      + ExecAnswers(cfg, Perform(cfg, c, me, effect), me, next)
    case Draw(_, _) => ExecAnswers(cfg, Drawn(c), me, Chosen(cb, cfg.tape(c.rng)))
  }

  /** A node that is done with an op answers it with the response it returns. */
  function OpAnswers(cfg: Config, w: World, process: nat, op: FrozenOp): seq<Answer>
    requires |w.nodes| > 0
  {
    var decoded := if cfg.codec.Some? then cfg.codec.value.decode(op.op) else None;
    match decoded
    case None => []
    case Some((f, clientOp)) =>
      var target := Target(op, process, |w.nodes|);
      var token := w.core.nextToken;
      var c := OpenOp(w.core, process, f, op.op);
      var cb := cfg.def.onClientOp(target, c.now, clientOp, token, w.nodes[target]);
      var (c1, result) := Exec(cfg, c, target, cb);
      ExecAnswers(cfg, c, target, cb)
      + (if result.1.Done? then [Answer(token, |c1.history|, Succeeded(result.1.response))] else [])
  }

  function StartAnswers(cfg: Config, w: World, id: nat): seq<Answer> {
    if id < |w.nodes| then ExecAnswers(cfg, w.core, id, cfg.def.onStart(id, w.core.now, w.nodes[id])) else []
  }

  function EventAnswers(cfg: Config, w: World, kind: EventKind): seq<Answer> {
    match kind
    case Deliver(from, to, msg) =>
      if to < |w.nodes| then ExecAnswers(cfg, w.core, to, cfg.def.onMsg(to, w.core.now, from, msg, w.nodes[to]))
      else []
    case Fire(node, timer, _) =>
      if node < |w.nodes|
      then ExecAnswers(cfg, w.core, node, cfg.def.onTimer(node, w.core.now, timer, w.nodes[node]))
      else []
    case Issue(process, index) =>
      if index < |cfg.ops| && |w.nodes| > 0 then OpAnswers(cfg, w, process, cfg.ops[index]) else []
    case Fault(action) => if action.Restart? then StartAnswers(cfg, w, action.node) else []
  }

  function StepAnswers(cfg: Config, w: World): seq<Answer> {
    var (c, popped) := Pop(cfg, w.core);
    match popped
    case None => []
    case Some(kind) => EventAnswers(cfg, w.(core := c), kind)
  }

  function StartingAnswers(cfg: Config, w: World, upTo: nat): seq<Answer> {
    if upTo == 0 then []
    else StartingAnswers(cfg, w, upTo - 1) + StartAnswers(cfg, StartAll(cfg, w, upTo - 1), upTo - 1)
  }

  /** Everything nodes have answered in the first `n` iterations. */
  function RunAnswers(cfg: Config, faults: seq<(nat, FaultAction)>, n: nat): seq<Answer>
    requires cfg.nodeCount > 0
  {
    if n == 0 then StartingAnswers(cfg, Boot(cfg, faults), cfg.nodeCount)
    else
      var (w, more) := Run(cfg, Init(cfg, faults), n - 1);
      RunAnswers(cfg, faults, n - 1) + (if more then StepAnswers(cfg, w) else [])
  }

  // ----- What the history says -----

  /** The operation `token` was invoked at `i` and had no answer before `mark`. */
  ghost predicate OpenAt(h: seq<OpEntry>, tokens: seq<nat>, token: nat, mark: nat, i: nat) {
    && |tokens| == |h| && i < mark <= |h|
    && h[i].kind.Invoke? && tokens[i] == token
    && forall j :: 0 <= j < mark && tokens[j] == token ==> h[j].kind.Invoke?
  }

  /** A terminal entry that says what a completion does: a success with the response as the codec writes it for
      the invoked function, a failure, or nothing definite. */
  ghost predicate Reports(cfg: Config, invoke: OpEntry, e: OpEntry, completion: Completion) {
    && e.process == invoke.process && e.f == invoke.f
    && match completion
       case Succeeded(response) =>
         e.kind.Ok? && cfg.codec.Some? && e.value == cfg.codec.value.encode(invoke.f, response)
       case Failed => e.kind.Fail? && e.value == Nil
       case Indeterminate => e.kind.Info? && e.value == Nil
  }

  /** If the operation was open when it was answered, the answer is what the history has there. */
  ghost predicate IsRecorded(cfg: Config, h: seq<OpEntry>, tokens: seq<nat>, a: Answer) {
    forall i: nat :: OpenAt(h, tokens, a.token, a.mark, i) ==>
      a.mark < |h| && tokens[a.mark] == a.token && Reports(cfg, h[i], h[a.mark], a.completion)
  }

  /** The entry at `j` is what the answer `a` to the op invoked at `i` comes to. */
  ghost predicate ComesFrom(cfg: Config, h: seq<OpEntry>, tokens: seq<nat>, j: nat, a: Answer, i: nat) {
    && OpenAt(h, tokens, a.token, a.mark, i)
    && a.mark == j < |h| && tokens[j] == a.token && Reports(cfg, h[i], h[j], a.completion)
  }

  ghost predicate Answered(cfg: Config, h: seq<OpEntry>, tokens: seq<nat>, answers: seq<Answer>, j: nat) {
    exists a, i: nat :: a in answers && ComesFrom(cfg, h, tokens, j, a, i)
  }

  ghost predicate Undecodable(cfg: Config, op: Value) {
    cfg.codec.None? || cfg.codec.value.decode(op).None?
  }

  /** The entry at `j` fails the op invoked right before it, which nobody could decode. */
  ghost predicate FailsMalformed(cfg: Config, h: seq<OpEntry>, tokens: seq<nat>, j: nat) {
    && |tokens| == |h| && 0 < j < |h|
    && h[j - 1].kind.Invoke? && tokens[j - 1] == tokens[j] && Undecodable(cfg, h[j - 1].value)
    && h[j].kind.Fail? && h[j].value == Nil
  }

  /** Virtual time on the wire, where 64 bits must do. */
  function Instant(now: nat): Time {
    Time(if now < 0x8000_0000_0000_0000 then now else 0x7FFF_FFFF_FFFF_FFFF, Virtual)
  }

  ghost predicate CrashAt(log: seq<LogEvent>, i: nat, process: nat) {
    i < |log| && log[i].Taken? && log[i].taken.kind == Fault(Crash(process))
  }

  /** The entry says nothing definite, because the process crashed then. */
  ghost predicate ClosedByCrash(log: seq<LogEvent>, e: OpEntry) {
    e.kind.Info? && e.value == Nil
    && exists i: nat :: CrashAt(log, i, e.process) && e.time == Instant(log[i].taken.at)
  }

  /** Why a terminal entry is there. */
  ghost predicate HasReason(cfg: Config, c: Core, answers: seq<Answer>, j: nat)
    requires j < |c.history|
  {
    || c.history[j].kind.Invoke?
    || Answered(cfg, c.history, c.tokens, answers, j)
    || FailsMalformed(cfg, c.history, c.tokens, j)
    || ClosedByCrash(c.log, c.history[j])
  }

  ghost predicate AllRecorded(cfg: Config, h: seq<OpEntry>, tokens: seq<nat>, answers: seq<Answer>) {
    forall a :: a in answers ==> a.mark <= |h| && IsRecorded(cfg, h, tokens, a)
  }

  ghost predicate AllReasoned(cfg: Config, c: Core, answers: seq<Answer>) {
    forall j: nat :: j < |c.history| ==> HasReason(cfg, c, answers, j)
  }

  /** Answers and history agree: every answer to an open op is recorded, every terminal entry has its reason. */
  ghost predicate Agree(cfg: Config, c: Core, answers: seq<Answer>) {
    && |c.tokens| == |c.history|
    && (c.pending != map[] ==> cfg.codec.Some?)
    && AllRecorded(cfg, c.history, c.tokens, answers)
    && AllReasoned(cfg, c, answers)
  }

  ghost predicate Accounted(cfg: Config, c: Core, answers: seq<Answer>) {
    TokensOk(c) && Agree(cfg, c, answers)
  }

  // ----- One more entry -----

  lemma OpenStill(h: seq<OpEntry>, tokens: seq<nat>, e: OpEntry, t: nat, token: nat, mark: nat, i: nat)
    requires |tokens| == |h| && mark <= |h|
    ensures OpenAt(h + [e], tokens + [t], token, mark, i) <==> OpenAt(h, tokens, token, mark, i)
  {
    var h', tokens' := h + [e], tokens + [t];
    assert forall j :: 0 <= j < |h| ==> h'[j] == h[j] && tokens'[j] == tokens[j];
  }

  lemma RecordedStill(cfg: Config, h: seq<OpEntry>, tokens: seq<nat>, e: OpEntry, t: nat, a: Answer)
    requires |tokens| == |h| && a.mark <= |h| && IsRecorded(cfg, h, tokens, a)
    ensures IsRecorded(cfg, h + [e], tokens + [t], a)
  {
    forall i: nat | OpenAt(h + [e], tokens + [t], a.token, a.mark, i)
      ensures a.mark < |h| && tokens[a.mark] == a.token && Reports(cfg, h[i], h[a.mark], a.completion)
    {
      OpenStill(h, tokens, e, t, a.token, a.mark, i);
    }
  }

  lemma ReasonStill(cfg: Config, c: Core, c': Core, answers: seq<Answer>, answers': seq<Answer>, j: nat)
    requires j < |c.history| && |c.tokens| == |c.history| && HasReason(cfg, c, answers, j)
    requires c'.history == c.history && c'.tokens == c.tokens && c.log <= c'.log
    requires forall a :: a in answers ==> a in answers'
    ensures HasReason(cfg, c', answers', j)
  {
    if Answered(cfg, c.history, c.tokens, answers, j) {
      var a, i: nat :| a in answers && ComesFrom(cfg, c.history, c.tokens, j, a, i);
      assert a in answers';
    } else if ClosedByCrash(c.log, c.history[j]) {
      var i: nat :| CrashAt(c.log, i, c.history[j].process) && c.history[j].time == Instant(c.log[i].taken.at);
      assert CrashAt(c'.log, i, c'.history[j].process);
    }
  }

  lemma ReasonLonger(cfg: Config, c: Core, c': Core, answers: seq<Answer>, e: OpEntry, t: nat, j: nat)
    requires j < |c.history| && |c.tokens| == |c.history| && HasReason(cfg, c, answers, j)
    requires c'.history == c.history + [e] && c'.tokens == c.tokens + [t] && c'.log == c.log
    ensures HasReason(cfg, c', answers, j)
  {
    if Answered(cfg, c.history, c.tokens, answers, j) {
      var a, i: nat :| a in answers && ComesFrom(cfg, c.history, c.tokens, j, a, i);
      OpenStill(c.history, c.tokens, e, t, a.token, a.mark, i);
      assert ComesFrom(cfg, c'.history, c'.tokens, j, a, i);
    }
  }

  lemma AllRecordedStill(cfg: Config, h: seq<OpEntry>, tokens: seq<nat>, answers: seq<Answer>, e: OpEntry, t: nat)
    requires |tokens| == |h| && AllRecorded(cfg, h, tokens, answers)
    ensures AllRecorded(cfg, h + [e], tokens + [t], answers)
  {
    forall a | a in answers ensures IsRecorded(cfg, h + [e], tokens + [t], a) {
      RecordedStill(cfg, h, tokens, e, t, a);
    }
  }

  /** One more entry, for which there is a reason. */
  lemma AllReasonedLonger(cfg: Config, c: Core, c': Core, answers: seq<Answer>, e: OpEntry, t: nat)
    requires |c.tokens| == |c.history| && AllReasoned(cfg, c, answers)
    requires c'.history == c.history + [e] && c'.tokens == c.tokens + [t] && c'.log == c.log
    requires HasReason(cfg, c', answers, |c.history|)
    ensures AllReasoned(cfg, c', answers)
  {
    forall j: nat | j < |c'.history| ensures HasReason(cfg, c', answers, j) {
      if j < |c.history| {
        ReasonLonger(cfg, c, c', answers, e, t, j);
      }
    }
  }

  lemma EntryAgrees(cfg: Config, c: Core, c': Core, answers: seq<Answer>, e: OpEntry, t: nat)
    requires Agree(cfg, c, answers) && (c'.pending != map[] ==> cfg.codec.Some?)
    requires c'.history == c.history + [e] && c'.tokens == c.tokens + [t] && c'.log == c.log
    requires HasReason(cfg, c', answers, |c.history|)
    ensures Agree(cfg, c', answers)
  {
    AllRecordedStill(cfg, c.history, c.tokens, answers, e, t);
    AllReasonedLonger(cfg, c, c', answers, e, t);
  }

  /** Nothing the history speaks of has changed, and perhaps more is known. */
  lemma StillAgrees(cfg: Config, c: Core, c': Core, answers: seq<Answer>)
    requires Agree(cfg, c, answers)
    requires c'.history == c.history && c'.tokens == c.tokens && c'.pending == c.pending && c.log <= c'.log
    ensures Agree(cfg, c', answers)
  {
    forall j: nat | j < |c'.history| ensures HasReason(cfg, c', answers, j) {
      ReasonStill(cfg, c, c', answers, answers, j);
    }
  }

  // ----- Answering -----

  /** The invoke of a pending op, which is open. */
  lemma PendingIsOpen(c: Core, token: nat) returns (i: nat)
    requires TokensOk(c) && token in c.pending
    ensures OpenAt(c.history, c.tokens, token, |c.history|, i)
    ensures c.history[i].process == c.pending[token].process && c.history[i].f == c.pending[token].f
    ensures forall k: nat :: OpenAt(c.history, c.tokens, token, |c.history|, k) ==> k == i
  {
    i :| Opens(c.history, c.tokens, i, token, c.pending[token]);
    forall k: nat | OpenAt(c.history, c.tokens, token, |c.history|, k) ensures k == i {
      assert k < i || k == i || i < k;
    }
  }

  lemma OnlyPendingIsOpen(c: Core, token: nat, i: nat)
    requires TokensOk(c) && OpenAt(c.history, c.tokens, token, |c.history|, i)
    ensures token in c.pending
  {
  }

  lemma AllReasonedMore(cfg: Config, c: Core, answers: seq<Answer>, a: Answer)
    requires |c.tokens| == |c.history| && AllReasoned(cfg, c, answers)
    ensures AllReasoned(cfg, c, answers + [a])
  {
    forall j: nat | j < |c.history| ensures HasReason(cfg, c, answers + [a], j) {
      ReasonStill(cfg, c, c, answers, answers + [a], j);
    }
  }

  /** An answer to an op that is not open changes nothing. */
  lemma AnswerIgnored(cfg: Config, c: Core, answers: seq<Answer>, a: Answer)
    requires Accounted(cfg, c, answers) && a.mark == |c.history| && a.token !in c.pending
    ensures Accounted(cfg, c, answers + [a])
  {
    forall i: nat | OpenAt(c.history, c.tokens, a.token, a.mark, i) ensures false {
      OnlyPendingIsOpen(c, a.token, i);
    }
    AllReasonedMore(cfg, c, answers, a);
  }

  /** What the terminal entry of a pending op reports. */
  predicate Says(cfg: Config, f: string, completion: Completion, kind: OpKind, value: Value)
    requires cfg.codec.Some?
  {
    match completion
    case Succeeded(response) => kind.Ok? && value == cfg.codec.value.encode(f, response)
    case Failed => kind.Fail? && value == Nil
    case Indeterminate => kind.Info? && value == Nil
  }

  lemma CloseShape(c: Core, token: nat, kind: OpKind, value: Value) returns (c': Core, e: OpEntry)
    requires token in c.pending
    ensures c' == CloseOp(c, token, kind, value)
    ensures c'.history == c.history + [e] && c'.tokens == c.tokens + [token] && c'.log == c.log
    ensures c'.pending == c.pending - {token}
    ensures e.kind == kind && e.value == value && e.process == c.pending[token].process && e.f == c.pending[token].f
    ensures e.time == Instant(c.now)
  {
    c' := CloseOp(c, token, kind, value);
    e := c'.history[|c.history|];
  }

  /** The entry that closes an op comes from the answer that said so, and records it. */
  lemma AnswerComes(cfg: Config, c: Core, a: Answer, e: OpEntry) returns (i: nat)
    requires TokensOk(c) && a.mark == |c.history| && a.token in c.pending && cfg.codec.Some?
    requires e.process == c.pending[a.token].process && e.f == c.pending[a.token].f
    requires Says(cfg, e.f, a.completion, e.kind, e.value)
    ensures var h, tokens := c.history + [e], c.tokens + [a.token];
            ComesFrom(cfg, h, tokens, |c.history|, a, i) && IsRecorded(cfg, h, tokens, a)
  {
    i := PendingIsOpen(c, a.token);
    forall k: nat
      ensures OpenAt(c.history + [e], c.tokens + [a.token], a.token, a.mark, k) <==> k == i
    {
      OpenStill(c.history, c.tokens, e, a.token, a.token, a.mark, k);
    }
  }

  lemma AnswerAgrees(cfg: Config, c: Core, c': Core, answers: seq<Answer>, a: Answer, e: OpEntry, i: nat)
    requires Agree(cfg, c, answers) && a.mark == |c.history| && cfg.codec.Some?
    requires c'.history == c.history + [e] && c'.tokens == c.tokens + [a.token] && c'.log == c.log
    requires ComesFrom(cfg, c'.history, c'.tokens, |c.history|, a, i) && IsRecorded(cfg, c'.history, c'.tokens, a)
    ensures Agree(cfg, c', answers + [a])
  {
    AllRecordedStill(cfg, c.history, c.tokens, answers, e, a.token);
    AllReasonedMore(cfg, c, answers, a);
    assert a in answers + [a];
    AllReasonedLonger(cfg, c, c', answers + [a], e, a.token);
  }

  /** An answer to an open op becomes its terminal entry. */
  lemma AnswerCloses(cfg: Config, c: Core, answers: seq<Answer>, a: Answer, kind: OpKind, value: Value)
    returns (c': Core)
    requires Accounted(cfg, c, answers) && a.mark == |c.history| && a.token in c.pending
    requires Says(cfg, c.pending[a.token].f, a.completion, kind, value)
    ensures c' == CloseOp(c, a.token, kind, value) && Accounted(cfg, c', answers + [a])
  {
    var e, i;
    c', e := CloseShape(c, a.token, kind, value);
    CloseTokens(c, a.token, kind, value);
    i := AnswerComes(cfg, c, a, e);
    AnswerAgrees(cfg, c, c', answers, a, e, i);
  }

  // ----- Callbacks -----

  /** The books are as they were, and the log has perhaps grown. */
  ghost predicate SameBooks(c: Core, c': Core) {
    && c'.history == c.history && c'.tokens == c.tokens && c'.pending == c.pending
    && c'.nextToken == c.nextToken && c'.now == c.now && c.log <= c'.log
  }

  lemma DeliveryLeaves(cfg: Config, c: Core, from: nat, to: nat, msg: Msg)
    ensures SameBooks(c, ScheduleDelivery(cfg, c, from, to, msg))
  {
    RollHits(cfg, c, c.rng, cfg.model.loss);
    if Connected(c, from, to) && !Hits(cfg, cfg.model.loss, c.rng) {
      var c3, wait, dup := DrawnFor(cfg, c, from, to, msg);
      var c', at, copies := TransmitShape(cfg, c3, from, to, msg, wait * 1_000_000, dup);
      assert c' == ScheduleDelivery(cfg, c, from, to, msg);
    }
  }

  lemma {:induction false} SendAllLeaves(cfg: Config, c: Core, from: nat, to: seq<nat>, msg: Msg)
    ensures SameBooks(c, SendAll(cfg, c, from, to, msg))
    decreases |to|
  {
    if to == [] {
    } else {
      DeliveryLeaves(cfg, c, from, to[0], msg);
      SendAllLeaves(cfg, ScheduleDelivery(cfg, c, from, to[0], msg), from, to[1..], msg);
    }
  }

  lemma OthersLeave(cfg: Config, c: Core, me: nat, effect: Effect)
    requires !effect.CompleteOp?
    ensures SameBooks(c, Perform(cfg, c, me, effect))
  {
    match effect
    case Send(to, msg) => DeliveryLeaves(cfg, c, me, to, msg);
    case Broadcast(msg) => SendAllLeaves(cfg, c, me, Peers(cfg.nodeCount, me), msg);
    case SetTimer(_, _) =>
    case CancelTimer(_) =>
  }

  lemma BooksAccounted(cfg: Config, c: Core, c': Core, answers: seq<Answer>)
    requires Accounted(cfg, c, answers) && SameBooks(c, c')
    ensures Accounted(cfg, c', answers)
  {
    assert TokensOk(c');
    StillAgrees(cfg, c, c', answers);
  }

  lemma AnswerAccounted(cfg: Config, c: Core, answers: seq<Answer>, token: nat, completion: Completion)
    requires Accounted(cfg, c, answers)
    ensures Accounted(cfg, Complete(cfg, c, token, completion), answers + [Answer(token, |c.history|, completion)])
  {
    var a := Answer(token, |c.history|, completion);
    if token !in c.pending {
      AnswerIgnored(cfg, c, answers, a);
    } else {
      match completion
      case Succeeded(response) =>
        var _ := AnswerCloses(cfg, c, answers, a, Ok, cfg.codec.value.encode(c.pending[token].f, response));
      case Failed => var _ := AnswerCloses(cfg, c, answers, a, Fail, Nil);
      case Indeterminate => var _ := AnswerCloses(cfg, c, answers, a, Info, Nil);
    }
  }

  lemma {:induction false} ExecAccounted<A>(cfg: Config, c: Core, me: nat, cb: Callback<A>, answers: seq<Answer>)
    requires Accounted(cfg, c, answers)
    ensures Accounted(cfg, Exec(cfg, c, me, cb).0, answers + ExecAnswers(cfg, c, me, cb))
    decreases cb
  {
    match cb
    case Return(_) => assert answers + [] == answers;
    case Do(effect, next) =>
      var c1 := Perform(cfg, c, me, effect);
      var more := ExecAnswers(cfg, c1, me, next);
      if effect.CompleteOp? {
        var a := Answer(effect.token, |c.history|, effect.completion);
        AnswerAccounted(cfg, c, answers, effect.token, effect.completion);
        ExecAccounted(cfg, c1, me, next, answers + [a]);
        assert answers + [a] + more == answers + ([a] + more);
      } else {
        OthersLeave(cfg, c, me, effect);
        BooksAccounted(cfg, c, c1, answers);
        ExecAccounted(cfg, c1, me, next, answers);
        assert [] + more == more;
      }
    case Draw(_, _) =>
      BooksAccounted(cfg, c, Drawn(c), answers);
      ExecAccounted(cfg, Drawn(c), me, Chosen(cb, cfg.tape(c.rng)), answers);
  }

  // ----- Client ops -----

  lemma OpenShape(c: Core, process: nat, f: string, value: Value) returns (c': Core, e: OpEntry)
    ensures c' == OpenOp(c, process, f, value)
    ensures c'.history == c.history + [e] && c'.tokens == c.tokens + [c.nextToken] && c'.log == c.log
    ensures c'.pending == c.pending[c.nextToken := PendingOp(process, f)] && c'.nextToken == c.nextToken + 1
    ensures e == OpEntry(|c.history|, Instant(c.now), Invoke, process, f, value) && c'.now == c.now
  {
    c' := OpenOp(c, process, f, value);
    e := c'.history[|c.history|];
  }

  lemma OpenAccounted(cfg: Config, c: Core, process: nat, f: string, value: Value, answers: seq<Answer>)
    requires Accounted(cfg, c, answers) && cfg.codec.Some?
    ensures Accounted(cfg, OpenOp(c, process, f, value), answers)
  {
    var c', e := OpenShape(c, process, f, value);
    OpenTokens(c, process, f, value);
    EntryAgrees(cfg, c, c', answers, e, c.nextToken);
  }

  lemma MalformedAgrees(cfg: Config, c: Core, c1: Core, c': Core, answers: seq<Answer>, e: OpEntry, e2: OpEntry,
      token: nat)
    requires Agree(cfg, c, answers) && c'.pending == c.pending
    requires c1.history == c.history + [e] && c1.tokens == c.tokens + [token] && c1.log == c.log
    requires c'.history == c1.history + [e2] && c'.tokens == c1.tokens + [token] && c'.log == c1.log
    requires e.kind.Invoke? && Undecodable(cfg, e.value) && e2.kind.Fail? && e2.value == Nil
    ensures Agree(cfg, c', answers)
  {
    AllRecordedStill(cfg, c.history, c.tokens, answers, e, token);
    AllRecordedStill(cfg, c1.history, c1.tokens, answers, e2, token);
    AllReasonedLonger(cfg, c, c1, answers, e, token);
    assert FailsMalformed(cfg, c'.history, c'.tokens, |c1.history|);
    AllReasonedLonger(cfg, c1, c', answers, e2, token);
  }

  lemma MalformedTokens(c: Core, process: nat, f: string, value: Value) returns (c1: Core, c': Core)
    requires TokensOk(c)
    ensures c1 == OpenOp(c, process, f, value) && c' == CloseOp(c1, c.nextToken, Fail, Nil)
    ensures TokensOk(c') && c'.pending == c.pending && c.nextToken in c1.pending
  {
    c1 := OpenOp(c, process, f, value);
    c' := CloseOp(c1, c.nextToken, Fail, Nil);
    OpenTokens(c, process, f, value);
    CloseTokens(c1, c.nextToken, Fail, Nil);
    PendingAreIssued(c);
    assert c.nextToken !in c.pending;
  }

  /** An op nobody can decode is failed on the spot. */
  lemma MalformedAccounted(cfg: Config, c: Core, process: nat, f: string, value: Value, answers: seq<Answer>)
    returns (c': Core)
    requires Accounted(cfg, c, answers) && Undecodable(cfg, value)
    ensures c' == CloseOp(OpenOp(c, process, f, value), c.nextToken, Fail, Nil)
    ensures Accounted(cfg, c', answers)
  {
    var c1;
    c1, c' := MalformedTokens(c, process, f, value);
    var d1, e := OpenShape(c, process, f, value);
    var d2, e2 := CloseShape(c1, c.nextToken, Fail, Nil);
    MalformedAgrees(cfg, c, c1, c', answers, e, e2, c.nextToken);
  }

  ghost predicate StillNamed(c: Core, token: nat, p: PendingOp) {
    token in c.pending ==> c.pending[token] == p
  }

  /** While a callback runs, a pending op keeps its name. */
  lemma OwnName<A>(cfg: Config, c: Core, me: nat, cb: Callback<A>, token: nat, p: PendingOp)
    requires StillNamed(c, token, p)
    ensures StillNamed(Exec(cfg, c, me, cb).0, token, p)
  {
    var inv := (d: Core) => StillNamed(d, token, p);
    forall d, m {:trigger Apply(cfg, d, m)} | inv(d) && Enabled(cfg, d, m) && IsEffect(m)
      ensures inv(Apply(cfg, d, m))
    {
    }
    ExecKeeps(cfg, c, me, cb, inv);
  }

  lemma DoneAccounted(cfg: Config, c: Core, answers: seq<Answer>, token: nat, p: PendingOp, response: Response)
    requires Accounted(cfg, c, answers) && StillNamed(c, token, p) && cfg.codec.Some?
    ensures Accounted(cfg, CloseOp(c, token, Ok, cfg.codec.value.encode(p.f, response)),
                      answers + [Answer(token, |c.history|, Succeeded(response))])
  {
    var a := Answer(token, |c.history|, Succeeded(response));
    if token in c.pending {
      var _ := AnswerCloses(cfg, c, answers, a, Ok, cfg.codec.value.encode(p.f, response));
    } else {
      AnswerIgnored(cfg, c, answers, a);
    }
  }

  lemma ClientOpAccounted(cfg: Config, w: World, process: nat, op: FrozenOp, answers: seq<Answer>)
    requires |w.nodes| > 0 && Accounted(cfg, w.core, answers)
    ensures Accounted(cfg, DispatchClientOp(cfg, w, process, op).core, answers + OpAnswers(cfg, w, process, op))
  {
    var target := Target(op, process, |w.nodes|);
    var token := w.core.nextToken;
    var decoded := if cfg.codec.Some? then cfg.codec.value.decode(op.op) else None;
    match decoded
    case None =>
      var _ := MalformedAccounted(cfg, w.core, process, OpFunction(op.op), op.op, answers);
      assert answers + [] == answers;
    case Some((f, clientOp)) =>
      var c := OpenOp(w.core, process, f, op.op);
      OpenAccounted(cfg, w.core, process, f, op.op, answers);
      var cb := cfg.def.onClientOp(target, c.now, clientOp, token, w.nodes[target]);
      ExecAccounted(cfg, c, target, cb, answers);
      var (c1, result) := Exec(cfg, c, target, cb);
      var said := ExecAnswers(cfg, c, target, cb);
      if result.1.Done? {
        OwnName(cfg, c, target, cb, token, PendingOp(process, f));
        DoneAccounted(cfg, c1, answers + said, token, PendingOp(process, f), result.1.response);
        assert answers + said + [Answer(token, |c1.history|, Succeeded(result.1.response))]
            == answers + (said + [Answer(token, |c1.history|, Succeeded(result.1.response))]);
      } else {
        assert said + [] == said;
      }
  }

  lemma StartAccounted(cfg: Config, w: World, id: nat, answers: seq<Answer>)
    requires Accounted(cfg, w.core, answers)
    ensures Accounted(cfg, DispatchStart(cfg, w, id).core, answers + StartAnswers(cfg, w, id))
  {
    if id < |w.nodes| {
      ExecAccounted(cfg, w.core, id, cfg.def.onStart(id, w.core.now, w.nodes[id]), answers);
    } else {
      assert answers + [] == answers;
    }
  }

  lemma EventAccounted(cfg: Config, w: World, kind: EventKind, answers: seq<Answer>)
    requires Accounted(cfg, w.core, answers)
    ensures Accounted(cfg, Dispatch(cfg, w, kind).core, answers + EventAnswers(cfg, w, kind))
  {
    assert answers + [] == answers;
    match kind
    case Deliver(from, to, msg) =>
      if to < |w.nodes| {
        ExecAccounted(cfg, w.core, to, cfg.def.onMsg(to, w.core.now, from, msg, w.nodes[to]), answers);
      }
    case Fire(node, timer, _) =>
      if node < |w.nodes| {
        ExecAccounted(cfg, w.core, node, cfg.def.onTimer(node, w.core.now, timer, w.nodes[node]), answers);
      }
    case Issue(process, index) =>
      if index < |cfg.ops| && |w.nodes| > 0 {
        ClientOpAccounted(cfg, w, process, cfg.ops[index], answers);
      }
    case Fault(action) =>
      if action.Restart? {
        StartAccounted(cfg, w, action.node, answers);
      }
  }

  // ----- Taking events -----

  /** A crash just happened. */
  ghost predicate JustCrashed(c: Core, n: nat) {
    exists i: nat :: CrashAt(c.log, i, n) && c.log[i].taken.at == c.now
  }

  lemma {:induction false} CrashAccounted(cfg: Config, c: Core, tokens: seq<nat>, n: nat, answers: seq<Answer>)
    requires Accounted(cfg, c, answers) && JustCrashed(c, n)
    requires forall t :: t in tokens && t in c.pending ==> c.pending[t].process == n
    ensures Accounted(cfg, CloseAll(c, tokens), answers)
    decreases |tokens|
  {
    if tokens == [] {
    } else if tokens[0] in c.pending {
      var c1, e := CloseShape(c, tokens[0], Info, Nil);
      CloseTokens(c, tokens[0], Info, Nil);
      assert c1.now == c.now && JustCrashed(c1, n);
      assert ClosedByCrash(c1.log, e);
      EntryAgrees(cfg, c, c1, answers, e, tokens[0]);
      CrashAccounted(cfg, c1, tokens[1..], n, answers);
    } else {
      CrashAccounted(cfg, c, tokens[1..], n, answers);
    }
  }

  lemma TakeAccounted(cfg: Config, c: Core, head: Scheduled, c': Core, answers: seq<Answer>)
    requires Accounted(cfg, c, answers)
    requires c.queue != [] && head == c.queue[MinIndex(c.queue)] && c' == TakeHead(cfg, c)
    ensures Accounted(cfg, c', answers)
    ensures head.at < cfg.horizon && head.kind.Fault? && head.kind.action.Crash? ==>
              JustCrashed(c', head.kind.action.node)
  {
    TakeShape(cfg, c, head, c');
    assert TokensOk(c');
    StillAgrees(cfg, c, c', answers);
    if head.at < cfg.horizon && head.kind.Fault? && head.kind.action.Crash? {
      assert CrashAt(c'.log, |c.log|, head.kind.action.node);
    }
  }

  lemma VictimsAreOfProcess(c: Core, kind: EventKind)
    requires kind.Fault? && kind.action.Crash?
    ensures forall t :: t in Victims(c, kind) && t in c.pending ==> c.pending[t].process == kind.action.node
  {
    VictimsExact(c.pending, c.nextToken, kind.action.node);
  }

  lemma {:induction false} PopAccounted(cfg: Config, c: Core, answers: seq<Answer>)
    requires Accounted(cfg, c, answers)
    ensures Accounted(cfg, Pop(cfg, c).0, answers)
    decreases |c.queue|
  {
    if c.queue == [] {
    } else {
      var head, c1 := c.queue[MinIndex(c.queue)], TakeHead(cfg, c);
      TakeAccounted(cfg, c, head, c1, answers);
      if head.at < cfg.horizon {
        if !Fires(cfg, c, head.kind) {
          PopAccounted(cfg, c1, answers);
        } else if head.kind.Fault? && head.kind.action.Crash? {
          VictimsAreOfProcess(c1, head.kind);
          CrashAccounted(cfg, c1, Victims(c1, head.kind), head.kind.action.node, answers);
        }
      }
    }
  }

  // ----- Whole runs -----

  lemma {:induction false} PumpAccounted(cfg: Config, w: World, upTo: nat, answers: seq<Answer>)
    requires Accounted(cfg, w.core, answers)
    ensures Accounted(cfg, Pump(w, upTo).core, answers)
  {
    if upTo == 0 {
    } else {
      PumpAccounted(cfg, w, upTo - 1, answers);
      var w1 := Pump(w, upTo - 1);
      assert SameBooks(w1.core, PumpOne(w1, upTo - 1).core);
      BooksAccounted(cfg, w1.core, PumpOne(w1, upTo - 1).core, answers);
    }
  }

  lemma StepAccounted(cfg: Config, w: World, answers: seq<Answer>)
    requires Accounted(cfg, w.core, answers)
    ensures Accounted(cfg, Step(cfg, w).0.core, answers + StepAnswers(cfg, w))
  {
    PopAccounted(cfg, w.core, answers);
    var (c, popped) := Pop(cfg, w.core);
    match popped
    case None => assert answers + [] == answers;
    case Some(kind) =>
      var w1 := w.(core := c);
      EventAccounted(cfg, w1, kind, answers);
      PumpAccounted(cfg, Dispatch(cfg, w1, kind), cfg.nodeCount, answers + EventAnswers(cfg, w1, kind));
  }

  lemma {:induction false} StartAllAccounted(cfg: Config, w: World, upTo: nat)
    requires Accounted(cfg, w.core, [])
    ensures Accounted(cfg, StartAll(cfg, w, upTo).core, StartingAnswers(cfg, w, upTo))
  {
    if upTo == 0 {
    } else {
      var w1, before := StartAll(cfg, w, upTo - 1), StartingAnswers(cfg, w, upTo - 1);
      StartAllAccounted(cfg, w, upTo - 1);
      StartAccounted(cfg, w1, upTo - 1, before);
    }
  }

  lemma {:induction false} RunAccounted(cfg: Config, faults: seq<(nat, FaultAction)>, n: nat)
    requires cfg.nodeCount > 0
    ensures Accounted(cfg, Run(cfg, Init(cfg, faults), n).0.core, RunAnswers(cfg, faults, n))
  {
    if n == 0 {
      FaultsOnlyQueue(NewCore(), faults);
      StartAllAccounted(cfg, Boot(cfg, faults), cfg.nodeCount);
      PumpAccounted(cfg, Snapshot(StartAll(cfg, Boot(cfg, faults), cfg.nodeCount)), cfg.nodeCount,
          StartingAnswers(cfg, Boot(cfg, faults), cfg.nodeCount));
    } else {
      RunAccounted(cfg, faults, n - 1);
      var (w, more) := Run(cfg, Init(cfg, faults), n - 1);
      var before := RunAnswers(cfg, faults, n - 1);
      if more {
        StepAccounted(cfg, w, before);
      } else {
        assert before + [] == before;
      }
    }
  }

  // ----- After the last iteration -----

  /** The entry was added at the end of the run, for want of an answer. */
  ghost predicate ForceClosed(c: Core, e: OpEntry) {
    e.kind.Info? && e.value == Nil && e.time == Instant(c.now)
  }

  /** The answers are recorded, and terminal entries have a reason, the end of the run being one from the `m`-th
      entry on. */
  ghost predicate Settled(cfg: Config, c: Core, answers: seq<Answer>, m: nat) {
    && |c.tokens| == |c.history|
    && AllRecorded(cfg, c.history, c.tokens, answers)
    && forall j: nat :: j < |c.history| ==>
         HasReason(cfg, c, answers, j) || (j >= m && ForceClosed(c, c.history[j]))
  }

  lemma EntrySettled(cfg: Config, c: Core, c': Core, answers: seq<Answer>, m: nat, e: OpEntry, t: nat)
    requires Settled(cfg, c, answers, m) && m <= |c.history| && ForceClosed(c, e) && c'.now == c.now
    requires c'.history == c.history + [e] && c'.tokens == c.tokens + [t] && c'.log == c.log
    ensures Settled(cfg, c', answers, m)
  {
    AllRecordedStill(cfg, c.history, c.tokens, answers, e, t);
    forall j: nat | j < |c'.history|
      ensures HasReason(cfg, c', answers, j) || (j >= m && ForceClosed(c', c'.history[j]))
    {
      if j < |c.history| && HasReason(cfg, c, answers, j) {
        ReasonLonger(cfg, c, c', answers, e, t, j);
      }
    }
  }

  lemma {:induction false} AllSettled(cfg: Config, c: Core, tokens: seq<nat>, answers: seq<Answer>, m: nat)
    requires Settled(cfg, c, answers, m) && m <= |c.history|
    ensures Settled(cfg, CloseAll(c, tokens), answers, m)
    decreases |tokens|
  {
    if tokens == [] {
    } else if tokens[0] in c.pending {
      var c1, e := CloseShape(c, tokens[0], Info, Nil);
      assert c1.now == c.now;
      EntrySettled(cfg, c, c1, answers, m, e, tokens[0]);
      AllSettled(cfg, c1, tokens[1..], answers, m);
    } else {
      AllSettled(cfg, c, tokens[1..], answers, m);
    }
  }

  lemma {:induction false} ClosingOnlyAdds(c: Core, tokens: seq<nat>)
    ensures c.history <= CloseAll(c, tokens).history
    decreases |tokens|
  {
    if tokens == [] {
    } else {
      ClosingOnlyAdds(CloseOp(c, tokens[0], Info, Nil), tokens[1..]);
    }
  }

  /** In the history a run leaves behind, every answer to an open op is the entry that closes it, with the kind and
      the value the answer calls for; and every terminal entry is such an answer, or fails an op that could not be
      decoded, or was left by a crash of its process, or closes at the end what nobody answered. */
  lemma AnswersAreHistory(cfg: Config, faults: seq<(nat, FaultAction)>, n: nat)
    returns (c: Core, answers: seq<Answer>, m: nat)
    requires cfg.nodeCount > 0
    ensures c == Finish(Run(cfg, Init(cfg, faults), n).0).core && answers == RunAnswers(cfg, faults, n)
    ensures m == |Run(cfg, Init(cfg, faults), n).0.core.history| <= |c.history|
    ensures forall a :: a in answers ==> IsRecorded(cfg, c.history, c.tokens, a)
    ensures forall j: nat :: j < |c.history| ==>
              || c.history[j].kind.Invoke?
              || Answered(cfg, c.history, c.tokens, answers, j)
              || FailsMalformed(cfg, c.history, c.tokens, j)
              || ClosedByCrash(c.log, c.history[j])
              || (j >= m && ForceClosed(c, c.history[j]))
  {
    RunAccounted(cfg, faults, n);
    var w := Run(cfg, Init(cfg, faults), n).0;
    c, answers, m := Finish(w).core, RunAnswers(cfg, faults, n), |w.core.history|;
    AllSettled(cfg, w.core, PendingTokens(w.core.pending, w.core.nextToken, None), answers, m);
    ClosingOnlyAdds(w.core, PendingTokens(w.core.pending, w.core.nextToken, None));
  }
}
