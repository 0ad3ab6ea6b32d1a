# Verified model of propsim

propsim drives a distributed protocol through a deterministic discrete-event simulation, records a
Jepsen-style operation history, and checks that history. This project models its three hard parts and
proves what they promise, for every node behaviour, every random draw and every input:

- **the engine**: event queue, virtual clock, network, timers, faults, client operations and their
  gate, the driver loop, replay and shrinking, fault lowering, bounded-liveness properties, and the
  SplitMix64 generator;
- **the history codec**: EDN and JSON printers and parsers, line framing, format sniffing and the
  integer casts;
- **the checker**: span pairing and the memoised, real-time-filtered linearizability search.

`RunVerdicts` and `Transport` join them: what the checker searches on a run's history is what the engine
performed, and a run's history carried through the codec gets the verdict it would have had.

## How the model is built

The engine exists twice. `Engine.dfy` is a state machine of functions: a node is any finite tree of
effects and random draws (`Callback`), the random source is any tape of 64-bit words, and `Run(cfg,
Init(cfg, faults), n)` is the world after at most `n` rounds of the main loop. `Scheduler.dfy` and
`Driver.dfy` are the same thing as written in the source: classes whose methods update their fields, each
proved to turn its abstract state `View()` into what the function says. Everything proved of the
functions therefore holds of the methods. Two history variables help to state properties: `tokens`
(the token behind each history entry) and `log` (sends, timer settings and events taken); nothing reads
them back.

`Runs.dfy` reduces the engine to eight kinds of atomic moves; whatever every move keeps holds in every
run. The invariants live in `Clock`, `Links`, `Timers`, `Tokens`, `Gate` and `Progress`. `OpFlow`, `Views`,
`Doomed`, `Earliest` and `Replay` prove the replay theorem as a simulation that ignores sequence numbers
and op indices, and `Misrouted` that its condition is exact. `Rng.dfy` shows that a seeded generator is a tape.

What the functions compute is held against something they do not define. `Sending` reads the fate of every
message off the log and the draws; `Answers` and `Invocations` account for every history entry by what nodes
answered and which ops came up; `Behaviour` accounts for every node state by the node's own callbacks;
`RunEvents` gives the verdict on a property as a statement about the log and the frames; `Happenings` says that
what is scheduled happens, and `Lowered` what every plan comes to.

The codec also exists twice: printing and reading functions on strings (`Edn`, `Json`, `History`), and
the writers and readers with a buffer and a position (`EdnCodec`, `JsonCodec`, `HistoryCodec`), proved
equal to them. `EdnGrammar`, `JsonGrammar` and `HistoryGrammar` define which texts say what, and prove that the
readers accept exactly those; `Numerals` does the same for digits and `Columns` for the names in an entry, and
`Printed` says what the printers write.

`Spans.dfy` and `Linearizability.dfy` hold the checker, and `RunVerdicts.dfy` compares what it searches with
the operations a run actually performed. `Explanations.dfy` defines the textbook notions: an operation that
is indeterminate may or may not have taken effect, one never answered may besides have had any result, and
what is definite must be explained in real time (linearizability) or in the order of each process
(sequential consistency). `Indeterminate.dfy`, `Sequential.dfy` and `Turns.dfy` say exactly when the checker
decides them. `Completions.dfy` is what the conditions are stated in: the completions of a history under a
codec that decodes everything. `Counting.dfy` is the model that goes wrong wherever they fail.

`Shrink.dfy` builds on replay and fault lowering. Failing is what the source means by it: the pinned plan
is set up and run, and the property or oracle of the failed name judges the outcome. `Reproducing.dfy` says
exactly when its promise holds, with nodes from `Misrouted.dfy` and `LateTimer.dfy` where it does not.
`Rerouted.dfy`, `Serial.dfy` and `ShrinkInputs.dfy` hold concrete runs.

Times are nanoseconds. Text is a sequence of characters.

## Where the code and its comments differ

The model follows the code in each case.

- An indeterminate (`Info`) completion is not dropped by span parsing: it becomes a span whenever it
  decodes. And an operation never answered is dropped, though it may have taken effect. So a history can be
  rejected although it is linearizable (`Indeterminate.RejectsExplainable`, `Indeterminate.RejectsPending`);
  a valid verdict is never wrong (`Indeterminate.AcceptedIsExplainable`). On a given history every model gets
  the right verdict if and only if no `Info` entry answers an open invoke and every completion finishes
  before any invoke left open (`Indeterminate.VerdictsAreExact`).
- The sequential-consistency oracle drops program order together with real time
  (`Sequential.AcceptsInconsistent`), and treats indeterminate and unanswered operations in the same way
  (`Sequential.RejectsLostRead`, `Sequential.RejectsPending`). On a given history every model gets the right
  verdict if and only if no `Info` entry answers an open invoke, all non-failed completions of each process
  have the same function, argument and result, and every completion is of the process of, and was invoked
  before, each invoke left open (`Sequential.VerdictsAreExact`).
- On the history of a finished run, where every invoke is answered, the first condition says that no op
  was cut short, and the last conditions drop out (`Turns.RunVerdictsAreExact`).
- A crash closes the pending operations of the *process* with the node's number, not those the node was
  serving (`Tokens.CrashClosesByProcess`).
- Partitions and loss act when a message is sent; what is in flight still arrives
  (`Links.DeliveryProvenance`).
- The horizon alone does not end a run, although the comment on it says that it does: time must pass, and
  neither a bound on delays nor one on timers is enough by itself (`Termination.SpinnerNeverEnds`,
  `Echoes.EchoNeverEnds`). Nodes whose timers take time end on a network if and only if it delays every
  message or loses every one (`Echoes.NetworksThatEnd`).
- Recovering ops from a history forgets their routes (`Rerouted.RoutedOpIsMisplaced`): replay reproduces
  every completed run of given ops and faults, whatever the nodes, if and only if no op that has a chance to
  be issued before the horizon is routed to another node than its process's (`Misrouted.ReplayIsExact`).
  Pinning ops drops a replayed scenario's faults from the horizon: it stays the same if and only if no such
  fault is scripted later than five seconds (`FaultPlan.HorizonPreserved`, `FaultPlan.PinningShortens`).
- The shrunk scenario reproduces the failure of every completed run of a plan, whatever the nodes and judges,
  if and only if both conditions hold (`Reproducing.ShrinkingIsExact`); `ShrinkInputs.KeptScenarioPasses` is a
  run for which it does not.
- Shrinking stops at the first prefix that passes. What it keeps is the shortest failing prefix if and only
  if the whole stream or the first cut fails and no failing prefix is followed by a passing one
  (`Shrink.ShortestIffOnward`); it need not be (`ShrinkInputs.KeepsMoreThanNeeded`).
- JSON loses integer and other non-string keys and strings led by a colon (`Json.JsonRoundTrip` says what
  they come back as). It leaves every model's verdict as it was if and only if no completion carries such a
  value (`Transport.JsonVerdictsAreExact`).

## Model

| member | source | states |
|---|---|---|
| Spans.PairIsWellFormed | crates/propsim-oracle/src/linearizability.rs:86-119 | on every history, spans run forward from an invoke to a non-failed completion of the same process, come out strictly in order of finish, and the open list holds invokes in order |
| Linearizability.PathIsOrder | crates/propsim-oracle/src/linearizability.rs:146-176 | the paths of the search tree, filtered by the minimal open finish, are exactly the orders of what is left that respect real time and replay every response |
| Linearizability.LinearizabilityOracle.ParseSpans | crates/propsim-oracle/src/linearizability.rs:86-119 | the scanning loop computes the pairing function whose properties are proved |
| Linearizability.LinearizabilityOracle.MinFinish | crates/propsim-oracle/src/linearizability.rs:146-155 | the least finish among open spans, attained by one of them, or the largest word if none is open |
| Linearizability.LinearizabilityOracle.Recurse | crates/propsim-oracle/src/linearizability.rs:132-177 | pruning on visited nodes loses nothing: the result decides whether the node can be completed, and a failed call leaves only dead ends in the memo set at its depth and below |
| Linearizability.LinearizabilityOracle.Search | crates/propsim-oracle/src/linearizability.rs:122-130 | the search succeeds if and only if some permutation respects real time (in that mode) and replays every response from the initial state |
| Linearizability.LinearizabilityOracle.Check | crates/propsim-oracle/src/linearizability.rs:60-80 | the verdict on a recorded history is linearizability of its paired spans |
| Completions.PairDecodes | crates/propsim-oracle/src/linearizability.rs:86-119 | the spans of any model are the completions of the history its codec decodes, in order: which invoke a completion answers does not depend on the model |
| Completions.StartsDiffer | crates/propsim-oracle/src/linearizability.rs:97-101 | no invoke is answered twice, and an answered one is no longer open |
| Explanations.ResolvedSpans | crates/propsim-oracle/src/linearizability.rs:93-112 | answering invokes left open adds operations that are indeterminate and begin with one of those invokes, and changes nothing before |
| Explanations.AnswersComplete | crates/propsim-oracle/src/linearizability.rs:97-112 | an indeterminate entry answers an open invoke if and only if some completion is indeterminate |
| Explanations.ExplainedWithout | crates/propsim-oracle/src/linearizability.rs:86-119 | where nothing is indeterminate and every completion precedes what is left open, operations never answered are not needed: a history is explainable if and only if it is so as it stands |
| Counting.IndefiniteFails | crates/propsim-oracle/src/linearizability.rs:97-112 | wherever an indeterminate entry answers an invoke, a counting model is explainable and rejected, with real time and without |
| Counting.PendingFails | crates/propsim-oracle/src/linearizability.rs:90-119 | wherever a completion does not precede an invoke left open, a model that waits for a marker is explainable, the open invoke answered with the marker, and rejected |
| Indeterminate.AcceptedIsExplainable | crates/propsim-oracle/src/linearizability.rs:110-112 | a valid verdict implies linearizability with indeterminate and unanswered operations optional |
| Indeterminate.DefiniteHistories | crates/propsim-oracle/src/linearizability.rs:86-119 | where no indeterminate entry answers an invoke and every completion finishes before any invoke left open, the verdict is the textbook one, for models of any type |
| Indeterminate.SomeVerdictIsWrong | crates/propsim-oracle/src/linearizability.rs:86-119 | where either fails, there is a model whose verdict on that history is wrong: explainable, and rejected |
| Indeterminate.VerdictsAreExact | crates/propsim-oracle/src/linearizability.rs:86-119 | for every history: all models over integers and values get the textbook verdict in real time if and only if no indeterminate entry answers an open invoke and every completion finishes before any invoke left open |
| Indeterminate.RejectsExplainable | crates/propsim-oracle/src/linearizability.rs:101-112 | a concrete history with a lost write that is linearizable and yet rejected |
| Indeterminate.RejectsPending | crates/propsim-oracle/src/linearizability.rs:90-96 | a concrete history with a write never answered, and read, that is linearizable and yet rejected |
| Sequential.InProgramOrder | crates/propsim-oracle/src/linearizability.rs:25-32 | any order of spans alike within each process can be sorted into program order with the same operation and response at every position |
| Sequential.MonotonousHistories | crates/propsim-oracle/src/linearizability.rs:25-32 | where nothing is indeterminate, all completions of each process look the same and every completion precedes what is left open, the verdict without real time is sequential consistency, for models of any type |
| Sequential.DifferenceFails | crates/propsim-oracle/src/linearizability.rs:25-32 | where two definite completions of a process differ, there is a model that is accepted on that history and not sequentially consistent, however open invokes are answered |
| Sequential.VerdictsAreExact | crates/propsim-oracle/src/linearizability.rs:25-32 | for every history: all models over integers and values get the right verdict without real time if and only if no indeterminate entry answers an open invoke, the completions of each process carry the same function, argument and result, and each completion is of the process of, and invoked before, every invoke left open |
| Sequential.AcceptsInconsistent | crates/propsim-oracle/src/linearizability.rs:25-32 | a concrete history accepted without real time although it is not sequentially consistent |
| Sequential.RejectsLostRead | crates/propsim-oracle/src/linearizability.rs:97-112 | a concrete history, a read cut short, rejected without real time although leaving the read out explains it |
| Sequential.RejectsPending | crates/propsim-oracle/src/linearizability.rs:90-96 | a concrete history with a write never answered, and read, rejected without real time although it is sequentially consistent |
| Turns.LinearizableIsSequential | crates/propsim-oracle/src/linearizability.rs:17-23 | on every history in which tokens pair entries and processes alternate, every real-time linearization respects program order, so a valid verdict implies sequential consistency |
| Turns.LinearizableRunsAreSequential | crates/propsim-oracle/src/linearizability.rs:17-23 | on the history of any engine run a valid real-time verdict implies sequential consistency |
| Turns.RunVerdictsAreExact | crates/propsim-sim/src/lib.rs:169-180 | on the history of a finished run all models get the right verdict in real time if and only if no op was cut short, and without it if and only if besides each process repeats one completion |
| RunVerdicts.PairsByToken | crates/propsim-oracle/src/linearizability.rs:93-113 | where tokens pair entries and processes alternate, pairing by process is pairing by token, and at most one invoke per process is open |
| RunVerdicts.RunSpansAreOperations | crates/propsim-sim/src/scheduler.rs:150-181 | on every run, during it and after force-closing, the spans the checker searches are the token-level operations the engine performed |
| Scheduler.SchedCore.Chance | crates/propsim-sim/src/rng.rs:31-41 | probabilities 0 and 1 draw nothing, others compare one draw |
| Scheduler.SchedCore.RangeU64 | crates/propsim-sim/src/rng.rs:44-49 | one draw for a non-empty range, none for an empty one |
| Scheduler.SchedCore.OpenOp | crates/propsim-sim/src/scheduler.rs:150-164 | records the invoke at the current time, registers the pending op and returns a new token |
| Scheduler.SchedCore.CloseOp | crates/propsim-sim/src/scheduler.rs:169-181 | records one terminal entry for a pending token and nothing for any other |
| Scheduler.SchedCore.ForceClosePending | crates/propsim-sim/src/scheduler.rs:406-411 | closes every pending op as indeterminate in token order |
| Scheduler.SchedCore.Enqueue | crates/propsim-sim/src/scheduler.rs:201-210 | appends the event with the next sequence number |
| Scheduler.SchedCore.Connected | crates/propsim-sim/src/scheduler.rs:213-225 | the check on the scheduler's own fields is the function that `Sending.WhoHearsWhom` reads off the log: neither end is down and, under a partition, some group holds both |
| Scheduler.SchedCore.ScheduleDelivery | crates/propsim-sim/src/scheduler.rs:228-260 | drop by connection, drop by loss, delay, link floor, duplication, in that order of draws: the function of `Sending.SendIsFate` |
| Scheduler.SchedCore.ArmTimer | crates/propsim-sim/src/scheduler.rs:274-280 | bumps the generation and queues a firing that carries it |
| Scheduler.SchedCore.CancelTimer | crates/propsim-sim/src/scheduler.rs:282-286 | bumps the generation only |
| Scheduler.SchedCore.ApplyFault | crates/propsim-sim/src/scheduler.rs:303-337 | the network, crash list, run events and closed ops after each fault |
| Scheduler.SchedCore.Pop | crates/propsim-sim/src/scheduler.rs:370-400 | takes events in heap order, skips stale timers and events for crashed nodes, stops at the horizon |
| Scheduler.SchedCore.SendAll | crates/propsim-sim/src/ctx.rs:37-44 | a broadcast is a send to every other node in ascending order |
| Sending.WhoHearsWhom | crates/propsim-sim/src/scheduler.rs:213-225 | in every run two nodes can exchange messages if and only if by the log neither is down and no partition is in force or some side of it holds both |
| Sending.SendIsFate | crates/propsim-sim/src/scheduler.rs:228-266 | performing a send in any state a run can be in appends one send entry with that sender, receiver and message if and only if the log connects them and the loss roll spares it; it arrives after the delay of the next draw, or not before the last arrival the log has for the link if the network keeps order, in two copies if and only if the duplicate roll hits; otherwise only draws are used |
| Sending.KnownThroughout | crates/propsim-sim/src/ctx.rs:33-44 | every state in the course of a callback is such a state, if the callback starts in one |
| Sending.BroadcastIsSends | crates/propsim-sim/src/ctx.rs:37-44 | a broadcast is a send to every other node in turn, in ascending order |
| Scheduler.SchedCore.CompleteOp | crates/propsim-sim/src/ctx.rs:66-81 | closes the op as the function does that `Answers.AnswersAreHistory` accounts for: with the response as the codec writes it for the pending op's own function, as a failure, or as indeterminate, and not at all for unknown tokens |
| Scheduler.SchedCore.RunCallback | crates/propsim-sim/src/ctx.rs:18-64 | a callback's effects and draws, performed one by one, are its execution |
| Driver.Deterministic.GroupOps | crates/propsim-sim/src/lib.rs:123-131 | each process's queue holds its op indices in order |
| Driver.Deterministic.DispatchClientOp | crates/propsim-sim/src/lib.rs:345-398 | route, decode, open, run, and close when done or malformed |
| Driver.Deterministic.Dispatch | crates/propsim-sim/src/lib.rs:147-163 | each popped event reaches the node it is for |
| Driver.Deterministic.Pump | crates/propsim-sim/src/lib.rs:190-213 | the loop schedules the next op of every process none of whose ops is in flight |
| Driver.Deterministic.Turn | crates/propsim-sim/src/lib.rs:146-167 | one round of the main loop is one step of the state machine |
| Driver.Deterministic.Loop | crates/propsim-sim/src/lib.rs:146-167 | the loop for a bounded number of rounds is the run function |
| Driver.RunDeterministic | crates/propsim-sim/src/lib.rs:78-180 | the recorded history, frames and run events are those of the run and its finish |
| Behaviour.ExecFollows | crates/propsim-sim/src/ctx.rs:26-83 | a callback runs along one of its paths, with draws taken in order from the tape, and nothing is put on the log meanwhile that is not its node's doing |
| Behaviour.NodesDoWhatTheySay | crates/propsim-sim/src/lib.rs:276-407 | in every run the frames are the states after the start and after each event that reached the driver, at its time: every node starts with its start callback from the default state, an event changes no node but the one it is for, and that one becomes what its own callback for the event, on its own state, can come to; whatever is sent, armed or cancelled in between is that node's doing |
| Runs.RunKeeps | crates/propsim-sim/src/lib.rs:133-171 | what every atomic move keeps holds after any number of rounds |
| Runs.FinishKeeps | crates/propsim-sim/src/lib.rs:169-171 | and after force-closing |
| Clock.ClockHolds | crates/propsim-sim/src/scheduler.rs:370-400 | in every run the events taken strictly increase by (time, sequence number), every queued event comes after them and is not in the past, the clock never passes the horizon, and history times never decrease |
| Links.LogIsSound | crates/propsim-sim/src/scheduler.rs:213-260 | in every run a message goes on the wire only between nodes connected at that moment, and an event reaches a node only if it is up |
| Links.CrashSilences | crates/propsim-sim/src/scheduler.rs:314-335 | between a crash and the restart the node gets no message or timer callback and nothing is sent from or to it |
| Links.DeliveryProvenance | crates/propsim-sim/src/scheduler.rs:228-260 | every message taken was put on the wire exactly once, earlier, with that payload and instant, while the two nodes were connected |
| Links.FifoPerLink | crates/propsim-sim/src/scheduler.rs:238-248 | on an ordered network, messages of a link are taken in the order they were sent |
| Links.AtMostTwice | crates/propsim-sim/src/scheduler.rs:249-259 | no send is taken more than twice |
| Happenings.MessagesArrive | crates/propsim-sim/src/scheduler.rs:228-260 | once a run is over, every copy of every message put on the wire that was due before the horizon has been taken |
| Timers.TimersHold | crates/propsim-sim/src/scheduler.rs:270-291 | lazy cancellation by generation represents an eager table from timers to deadlines, and a firing reaches its node, exactly when due, if and only if the table still holds it and the node is up |
| Timers.SettingArms | crates/propsim-sim/src/scheduler.rs:270-280 | setting a timer arms it, under its node and the text of its tag, with a firing due that much later, and leaves all others as they were |
| Timers.CancellingDisarms | crates/propsim-sim/src/scheduler.rs:282-286 | cancelling a timer leaves nothing armed for it, and leaves all others as they were |
| Timers.FiresOnce | crates/propsim-sim/src/scheduler.rs:370-384 | a firing surfaces at most once |
| Timers.NothingLeftArmed | crates/propsim-sim/src/scheduler.rs:370-384 | when the loop is over, whatever is still armed was due at the horizon or later |
| Tokens.TokensHold | crates/propsim-sim/src/scheduler.rs:150-181 | in every run tokens are issued once and closed at most once, pending ops are the unanswered invokes, and nothing is pending after force-closing |
| Tokens.EveryInvokeIsClosed | crates/propsim-sim/src/scheduler.rs:402-411 | a finished history pairs invokes and terminal entries one to one, each terminal later and with the same process and function |
| Tokens.CrashClosesByProcess | crates/propsim-sim/src/scheduler.rs:314-330 | a crash closes, once each and as indeterminate, exactly the pending ops issued by the process of that number |
| Answers.AnswersAreHistory | crates/propsim-sim/src/ctx.rs:66-81 | on every finished run, with the answers collected from the callbacks: every answer to an open op is the entry that closes it, Ok with the response as the codec writes it for the invoked function, Fail, or Info; and every terminal entry is such an answer, or fails at once an op that could not be decoded, or was left by a crash of its process at that time, or closes at the end an op nobody answered |
| Invocations.InvokesAreIssues | crates/propsim-sim/src/lib.rs:345-398 | in every run the invokes are exactly the ops whose turn came, in that order, with tokens counted from zero, each under its process with its payload and time; every entry has the virtual time of an event; an invoke goes by the name the codec gives, or the keyword the op leads with, or "op"; and one that cannot be decoded is failed by the next entry |
| Invocations.IssuesAreNext | crates/propsim-sim/src/lib.rs:190-213 | an op is issued one millisecond after the start or after an earlier event |
| Gate.RunGate | crates/propsim-sim/src/lib.rs:182-213 | closed <= opened <= scheduled <= closed + 1 for every process, kept by pump, dispatch, completions and crashes |
| Gate.ProcessesAlternate | crates/propsim-sim/src/lib.rs:182-213 | every process's history is invoke, terminal, invoke, terminal, and so on, and ends with a terminal |
| Gate.HistoriesGated | crates/propsim-sim/src/lib.rs:190-213 | a process has at most one pending op, exactly when its last invoke is unanswered, during the run and after it |
| Progress.NobodyIdles | crates/propsim-sim/src/lib.rs:200-213 | while the main loop goes on, a process with ops left to issue has exactly one in flight: the gate never stalls |
| Progress.StreamIsConserved | crates/propsim-sim/src/lib.rs:123-131 | at every moment what a process has issued, has in flight and has left is its part of the op stream, in order: no op is lost, repeated or overtaken |
| Progress.OpsAreShared | crates/propsim-sim/src/lib.rs:125-131 | each op belongs to the process its number comes to among the nodes, and every process has its ops in the order of the stream |
| Rerouted.RoutedOpIsMisplaced | crates/propsim-sim/src/lib.rs:569-577 | a concrete completed run with one routed op, answered Ok, whose own replay ends indeterminate, for every horizon and draws |
| Earliest.RunPunctual | crates/propsim-sim/src/lib.rs:190-213 | in every run an op is never queued for a time before its rank in its process allows, and what is left of a process's queue is its ops from that rank on |
| Replay.ReplayReproduces | crates/propsim-sim/src/lib.rs:580-616 | if no op that can be issued before the horizon is routed to another node than its process's, replaying the ops of a completed run gives the same frames, states, run events and history; only times of the final force-closed entries may differ |
| Misrouted.OriginalFails | crates/propsim-sim/src/lib.rs:345-398 | with nodes that answer at once, a badly routed op within reach of the horizon is issued and fails, and the run ends, under any faults |
| Misrouted.CleanRun | crates/propsim-sim/src/lib.rs:580-616 | without routes no op of another process than the failing node's ever fails, in any round of any run of those nodes |
| Misrouted.RouteMatters | crates/propsim-sim/src/lib.rs:569-577 | for every op routed elsewhere that has time to be issued there are nodes whose run its replay does not reproduce |
| Misrouted.ReplayIsExact | crates/propsim-sim/src/lib.rs:569-577 | for given ops, horizon, network and faults: replay reproduces every completed run, whatever the nodes, codec and draws, if and only if no op that can be issued before the horizon is routed elsewhere |
| Replay.SpansIgnoreTimes | crates/propsim-oracle/src/linearizability.rs:86-119 | times play no part in span parsing |
| Replay.ReplayKeepsSpans | crates/propsim-sim/src/lib.rs:580-616 | the oracle searches the same spans on the replay as on the original |
| FaultPlan.HorizonPreserved | crates/propsim-sim/src/lib.rs:241-258 | pinning ops keeps the horizon if and only if no fault of a replayed scenario the plan does not override is scripted later than five seconds |
| FaultPlan.PinningShortens | crates/propsim-sim/src/lib.rs:619-632 | a concrete scenario with a late heal whose horizon pinning cuts by a second |
| FaultPlan.PinnedPlanReproduces | crates/propsim-sim/src/lib.rs:619-632 | at plan level, with no op within reach of the horizon routed elsewhere and no such late fault, the pinned plan reproduces the completed run |
| FaultPlan.SwarmLowering.LowerOne | crates/propsim-sim/src/faults.rs:68-97 | one fault kind, lowered in place, is the lowering function that `Lowered.LoweredModel` and `Lowered.LoweredTimeline` are about |
| FaultPlan.SwarmLowering.Run | crates/propsim-sim/src/faults.rs:53-104 | the loop over surviving kinds and the final heal are the lowering function |
| Lowered.LoweredModel | crates/propsim-sim/src/faults.rs:53-82 | for all kinds and draws in both modes: the lowered loss, duplication and delay bounds are those of the last surviving kind that states them, or the network's own, it keeps order if and only if it did and no reordering survived, and a kind survives if and only if its draw is below 2^63 |
| Lowered.LoweredTimeline | crates/propsim-sim/src/faults.rs:53-104 | for all kinds and draws in both modes: the timeline has one partition, cut and timed by the next draws, for each surviving kind of partitions among two nodes or more, one crash of a drawn node for each surviving crash kind, its restart in liveness mode only, and there one heal at the end if any partition survived |
| Lowered.PlanIs | crates/propsim-sim/src/lib.rs:78-125 | what a run is set up with, for every plan: node count, ops, network and faults, a swarm lowered as described |
| Lowered.HorizonIsTenPast | crates/propsim-sim/src/lib.rs:241-258 | the horizon is ten seconds after the last scripted fault of the plan, or else of the scenario it replays, or after the first five seconds |
| Healing.LivenessSwarmHeals | crates/propsim-sim/src/faults.rs:53-104 | for every list of kinds and all draws, each partition splits all nodes into two non-empty disjoint groups and every injury is undone before four seconds |
| Healing.HealedFromFourSeconds | crates/propsim-sim/src/scheduler.rs:303-337 | on a timeline that heals, at every event taken from four seconds on no node is down and no partition is in force |
| Healing.LivenessPlansHeal | crates/propsim-sim/src/faults.rs:99-103 | the same for every plan with a liveness swarm, within its own horizon |
| Properties.ScanIsDense | crates/propsim-sim/src/properties.rs:66-96 | for predicates over node states, scanning the frames of a window equals asking for an instant of the window, if a frame lies at its start |
| Properties.RunFrames | crates/propsim-sim/src/lib.rs:400-407 | frames are in time order, end at the current state, and one exists at every anchor a run event can give |
| RunEvents.EventsAreLogged | crates/propsim-sim/src/scheduler.rs:303-337 | in every run, the recorded run events are the heals and restarts of the log, in order and each at its time |
| Happenings.FaultsHappen | crates/propsim-sim/src/scheduler.rs:359-404 | in every run the faults that happen are faults of the timeline, each at its time and at most once, and when the run is over every fault due before the horizon has happened |
| RunEvents.VerdictMeans | crates/propsim-sim/src/properties.rs:29-113 | on every run, an always property is valid if and only if its claim holds of every frame, a sometimes property of some frame, an eventually-within property of some frame from t0 to t0 plus the deadline, where t0 is the time at which the log has the first heal (or restart) if one is named and taken, and zero otherwise |
| RunEvents.VerdictIsDense | crates/propsim-sim/src/properties.rs:29-113 | for claims about node states, the same in continuous time: at every instant, at some instant, or at some instant from the first event named to the deadline |
| Termination.PacedRunsEnd | crates/propsim-sim/src/lib.rs:146-167 | if every timer is at least d > 0, every message takes d or is lost, and every callback has at most k effects, the main loop ends within a number of rounds given by the initial queue |
| Termination.SpinnerNeverEnds | crates/propsim-sim/src/scheduler.rs:372-377 | a node that re-arms a zero-length timer never ends, for any horizon and draws |
| Echoes.EchoNeverEnds | crates/propsim-core/src/transport.rs:49-56 | on the default network, reliable and without delay, a node that answers itself never ends, for any horizon and draws |
| Echoes.NetworksThatEnd | crates/propsim-sim/src/scheduler.rs:228-260 | for every network: all runs of nodes with positive timers and bounded callbacks end, whatever the draws, ops, faults and horizon, if and only if every message is delayed or every message is lost |
| Shrink.RunStillFails | crates/propsim-sim/src/lib.rs:580-616 | sets up the pinned plan, runs it and asks the judges of the failed name, properties and oracles alike |
| Shrink.Truncate | crates/propsim-sim/src/lib.rs:536-559 | the loop keeps a prefix that is the whole stream or all of whose longer proper prefixes fail, and that cannot be cut by one more op |
| Shrink.ShrinkScenario | crates/propsim-sim/src/lib.rs:515-567 | the same from the ops recovered from one more run of the plan; the scenario kept has that prefix and the faults of the plan, or an empty swarm if it has none |
| Shrink.StopsOnce | crates/propsim-sim/src/lib.rs:536-559 | there is only one such prefix |
| Shrink.RejectedAgain | crates/propsim-sim/src/lib.rs:580-616 | an oracle, or a property blind to the times of force-closed entries, that rejects a completed run rejects the replay of its ops too, with no op within reach routed elsewhere and the horizon kept |
| Shrink.KeptFails | crates/propsim-sim/src/lib.rs:536-559 | what the loop keeps fails if and only if the whole stream fails or something was cut |
| Shrink.KeptScenarioFails | crates/propsim-sim/src/lib.rs:515-518 | the promise of shrinking: for all nodes, draws and faults, the scenario kept of a failing completed run still fails, with no op within reach routed elsewhere and the horizon kept |
| LateTimer.RingsLate | crates/propsim-sim/src/scheduler.rs:370-400 | a run whose only timer is due before the horizon ends, and has a frame as late as the timer |
| LateTimer.RunsEarly | crates/propsim-sim/src/lib.rs:400-407 | no frame of any run is as late as its horizon |
| Reproducing.RoutedIsLost | crates/propsim-sim/src/lib.rs:569-577 | for every plan with an op within reach routed elsewhere there are nodes and a property for which the scenario kept passes |
| Reproducing.LateIsLost | crates/propsim-sim/src/lib.rs:619-632 | for every plan that loses a late script there are nodes and a property for which the scenario kept passes |
| Reproducing.ShrinkingIsExact | crates/propsim-sim/src/lib.rs:515-567 | for every plan and op stream: whatever the nodes, codec, draws, rounds and judges, the scenario kept of a failing completed run still fails, if and only if no op that can be issued before the horizon is routed elsewhere and no script later than five seconds is lost |
| Shrink.ShortestIffOnward | crates/propsim-sim/src/lib.rs:536-559 | the kept prefix is the shortest failing one if and only if the whole stream or the first cut fails and no failing prefix is followed by a passing one |
| ShrinkInputs.KeptScenarioPasses | crates/propsim-sim/src/lib.rs:515-577 | a concrete failing run with one routed op whose kept scenario passes |
| ShrinkInputs.KeepsMoreThanNeeded | crates/propsim-sim/src/lib.rs:536-559 | a concrete failing run of which two ops are kept although none would do |
| Transport.RunsFit | crates/propsim-history/src/history.rs:138-178 | positions and processes of a run's history fit the 64-bit fields when the cluster and the history do |
| Transport.EdnCarriesRuns | crates/propsim-history/src/history.rs:31-91 | a run's history comes back from EDN, and so gets the same verdict, if and only if its functions are keyword names and its payloads can be printed |
| Transport.JsonCarriesRuns | crates/propsim-history/src/history.rs:41-91 | a run's history comes back from JSON with its payloads as JSON shows them, and a model that decodes those alike gives the same verdict |
| Transport.JsonVerdictsAreExact | crates/propsim-history/src/history.rs:41-91 | for every history: carrying it through JSON leaves the verdict of all models over two states and operations as it was, in either mode, if and only if the argument and result of every completion survive JSON |
| Transport.SurvivingVerdicts | crates/propsim-history/src/edn.rs:100-121 | one direction, for models of any type |
| Rng.MixIsPermutation | crates/propsim-sim/src/rng.rs:22-28 | the output mix is a permutation of the 64-bit words, with its inverse |
| Rng.FullPeriod | crates/propsim-sim/src/rng.rs:22-28 | two states agree if and only if their step counts agree modulo 2^64 |
| Rng.SimRng.Next | crates/propsim-sim/src/rng.rs:22-28 | each draw is the next cell of the tape the engine is proved for |
| Rng.SimRng.RangeU64 | crates/propsim-sim/src/rng.rs:44-49 | a draw in range, and how many outputs it uses |
| Rng.SeedsDistinct | crates/propsim-sim/src/lib.rs:509-513 | distinct run indices get distinct seeds |
| Edn.ValueReads | crates/propsim-history/src/edn.rs:214-340 | reading a printed value followed by anything that ends it yields the value and leaves what follows, at any depth |
| Edn.EdnRoundTrip | crates/propsim-history/src/edn.rs:163-175 | an EDN round trip succeeds if and only if every keyword in the value is non-empty and free of delimiters |
| Edn.ReadIsPrintable | crates/propsim-history/src/edn.rs:214-340 | whatever the reader returns could have been printed |
| Edn.ReadPrintRead | crates/propsim-history/src/edn.rs:163-175 | reading, printing and reading again is reading once |
| Edn.ReadValue | crates/propsim-history/src/edn.rs:214-224 | every successful read strictly shortens the input, which ends the nested loops |
| Numerals.IntegersAreNumerals | crates/propsim-history/src/edn.rs:299-330 | a token parses as an integer if and only if it is a numeral of it: digits by place value, perhaps after a sign, within 64 bits |
| Numerals.PrintedShortest | crates/propsim-history/src/edn.rs:20-54 | what is printed for an integer is its shortest numeral |
| EdnGrammar.ReaderIsGrammar | crates/propsim-history/src/edn.rs:163-349 | for every text and value: the EDN reader returns the value if and only if the text is a form that says it with layout around it, over a grammar with comments, commas as blanks, both kinds of brackets, words kept apart, and escapes |
| Printed.EdnIs | crates/propsim-history/src/edn.rs:20-54 | the EDN text of any value from the texts of its parts: brackets, separators, words, and five characters spelled with a backslash |
| EdnCodec.PushEscaped | crates/propsim-history/src/edn.rs:144-155 | appends the escaped string |
| EdnCodec.WriteEdn | crates/propsim-history/src/edn.rs:20-54 | appends the printed form the round trip is proved for |
| EdnCodec.Parser.SkipWs | crates/propsim-history/src/edn.rs:196-212 | moves past whitespace, commas and comments, and nothing else |
| EdnCodec.Parser.ParseValue | crates/propsim-history/src/edn.rs:214-224 | returns and leaves exactly what the reading function says, errors included |
| EdnCodec.Parser.ParseMap | crates/propsim-history/src/edn.rs:226-244 | the same for maps |
| EdnCodec.Parser.ParseSeq | crates/propsim-history/src/edn.rs:246-265 | the same for vectors and lists |
| EdnCodec.Parser.ParseString | crates/propsim-history/src/edn.rs:267-297 | the same for strings and their escapes |
| EdnCodec.ParseWhole | crates/propsim-history/src/edn.rs:163-175 | one value and nothing after it |
| Json.JsonReads | crates/propsim-history/src/edn.rs:409-548 | reading printed JSON followed by anything but a number character yields the value as JSON shows it and leaves what follows |
| Json.JsonStringReads | crates/propsim-history/src/edn.rs:466-502 | the string escapes written are undone for every string |
| Json.SeenUnchanged | crates/propsim-history/src/edn.rs:100-121 | JSON shows a value unchanged if and only if no string in it starts with a colon and every key is a keyword or such a string |
| Json.JsonRoundTrip | crates/propsim-history/src/edn.rs:366-378 | what every value comes back as, and that it is the value itself exactly in that case |
| Json.ReadIsJsonOk | crates/propsim-history/src/edn.rs:409-447 | whatever the JSON reader returns survives JSON |
| Json.JsonReadPrintRead | crates/propsim-history/src/edn.rs:366-378 | reading, printing and reading again is reading once |
| Json.ReadJson | crates/propsim-history/src/edn.rs:409-419 | every successful read strictly shortens the input |
| Numerals.EscapesAreCodes | crates/propsim-history/src/edn.rs:504-514 | four characters after a backslash and a u are read as a character if and only if they are hexadecimal digits of its code, in either case, the first perhaps a plus, and it is no surrogate |
| JsonGrammar.ReaderIsGrammar | crates/propsim-history/src/edn.rs:366-548 | for every text and value: the JSON reader returns the value if and only if the text is a form that says it with blanks around it, over a grammar in which commas may be missing or repeated and a string led by a colon is a keyword |
| Printed.JsonIs | crates/propsim-history/src/edn.rs:61-98 | the JSON text of any value from the texts of its parts |
| JsonCodec.WriteJson | crates/propsim-history/src/edn.rs:61-98 | appends the printed form the round trip is proved for |
| JsonCodec.WriteJsonKey | crates/propsim-history/src/edn.rs:100-121 | a key of any kind comes out as the quoted string of its text |
| JsonCodec.JsonParser.ParseValue | crates/propsim-history/src/edn.rs:409-419 | returns and leaves exactly what the reading function says, errors included |
| JsonCodec.JsonParser.ParseObject | crates/propsim-history/src/edn.rs:421-447 | the same for objects |
| JsonCodec.JsonParser.ParseArray | crates/propsim-history/src/edn.rs:449-464 | the same for arrays, with missing or repeated commas |
| JsonCodec.JsonParser.ParseString | crates/propsim-history/src/edn.rs:466-502 | the same for strings |
| JsonCodec.JsonParser.ParseEscape | crates/propsim-history/src/edn.rs:475-514 | the same for escapes, with four hexadecimal digits and no surrogates |
| JsonCodec.JsonParser.ParseNumber | crates/propsim-history/src/edn.rs:530-546 | the same for integers |
| JsonCodec.ParseWholeJson | crates/propsim-history/src/edn.rs:366-378 | one value and nothing after it |
| History.EntryReads | crates/propsim-history/src/history.rs:138-178 | an entry is recovered from the map written for it, whatever the payload, index, process and time |
| Columns.WrittenAs | crates/propsim-history/src/history.rs:106-128 | every entry is written as seven pairs, in order: "index", "time", "clock", "type", "process", "f" and "value", with the names of clocks and kinds |
| Columns.LineIs | crates/propsim-history/src/history.rs:30-38 | the text of an entry's line, character by character up to the payload |
| Columns.ReadAs | crates/propsim-history/src/history.rs:138-191 | for every list of pairs, in any order, with any keys and repetitions: an entry is read from it if and only if it is the one described, each field by what the first pair of its name says, a name or number given in either way, a missing clock being wall time and a missing value nil |
| HistoryRoundTrip.EdnHistoryRoundTrip | crates/propsim-history/src/history.rs:31-38 | an EDN history comes back if and only if every function is a keyword name and every payload can be printed; the empty history does |
| HistoryRoundTrip.IllegibleFirst | crates/propsim-history/src/history.rs:58-91 | an entry whose function is no keyword name never comes back, however its text cuts the line |
| HistoryRoundTrip.JsonHistoryRoundTrip | crates/propsim-history/src/history.rs:41-52 | every history comes back from JSON with its payloads as JSON shows them, hence unchanged if and only if all payloads survive JSON |
| HistoryRoundTrip.JsonIsSniffed | crates/propsim-history/src/history.rs:98-103 | a non-empty JSON history is recognised as JSON |
| HistoryGrammar.ReaderIsGrammar | crates/propsim-history/src/history.rs:54-103 | for every text and history: the reader returns the history if and only if the text says it: one described entry to each line that is not blank, lines ending in either way, or one sequence of described entries in EDN or JSON, told apart by whether the first object's first key is quoted |
| HistoryCodec.ToJepsenEdn | crates/propsim-history/src/history.rs:31-38 | the loop writes one line per entry |
| HistoryCodec.ToJepsenJson | crates/propsim-history/src/history.rs:41-52 | the loop writes the array of all entries |
| HistoryCodec.FromJepsenText | crates/propsim-history/src/history.rs:58-91 | sniffing, framing and reading give what the reading function says, errors included |

## Left out

- Floats: values have no float case, a numeric token that is no 64-bit integer reads as an error, and a
  probability is any test on one draw.
- EdnGrammar.ReaderIsGrammar: a text with a float in it says nothing, where the source reads the float; the
  same goes for `JsonGrammar.ReaderIsGrammar` and, for payloads, `HistoryGrammar.ReaderIsGrammar`.
- Error values carry no message or position: every parse error is the same error.
- Character encoding: text is a sequence of characters, so byte offsets are not modelled, and a
  backslash before a non-ASCII character reads as an error.
- Counter overflow: sequence numbers, tokens and timer generations are unbounded, and so are durations.
- Node ids outside the cluster: an event or a restart for one does nothing, where the source panics.
- The heap: the queue is a sequence from which the least event is taken; the order of the heap is
  modelled, its layout is not.
- Empty node slots: a node is always in its slot between callbacks, so the branch for an empty one is
  not modelled.
- Node behaviour: a callback is a finite tree that chooses among finitely many continuations of a draw and a
  default; callbacks that never return are not modelled.
- Driver.RunDeterministic: takes a bound on the rounds of the main loop, because a run need not end; the
  theorems quantify over every bound, and `Termination.PacedRunsEnd` says when the loop ends by itself.
- Termination.PacedRunsEnd: states a sufficient condition for given nodes; whether an arbitrary node ends is
  not decidable from a bound on its delays. Over all nodes `Echoes.NetworksThatEnd` is exact about the
  network, and `Termination.SpinnerNeverEnds` shows that the bound on timers cannot be dropped.
- Healing.LivenessPlansHeal: scripted faults are taken as they are; nothing is promised about them.
- Workload sampling, the seed override from the environment, and saving or loading of plans and
  scenarios: the op stream is an input.
- Shrink.RunStillFails: bounds the rounds of each run, like every run here, and takes the judges of the
  failed name as a list; finding them by name, and a setup that cannot run at all, are not modelled.
- Reproducing.ShrinkingIsExact: is about oracles and about properties that do not read the times of
  force-closed entries; another property may tell a replay from the original.
- Plan building, capability negotiation, verdict and anomaly texts, artifacts and the type-erased
  executor: each is settled by reading one branch.
- The real-network executor and the external checkers.
