# A verified model of the ktsu orchestrator

ktsu runs workflows: an orchestrator walks the steps of a pipeline in dependency order, an agent
runtime lets a language model call tools, and a gateway picks the model. This project models the
four parts of the system that carry real algorithmic or protocol content and proves what they
guarantee, for every input, every run and every interleaving of their steps.

`dafny verify dfyconfig.toml` checks everything.

## What is modelled

**Suspend, approve, resume.** `AgentLoop` is the reasoning loop: tool discovery, the prelude that
makes pre-approved calls, the turn loop, reflection, the free correction. `Approvals` holds the
records the orchestrator's handlers keep of it, and `Protocol` is the transition system of one step:
legs in the runtime, handlers part-way through, timers, the approval record, the step record, the
one-slot channel. Every access to shared state is an action of its own, so a handler that has
checked an approval and not yet updated it is a state of the system and any number of handlers can
be in that state at once. One action makes two accesses: a redispatch reads the saved transcript and
posts it; `Redispatch` proves that what happens in between makes no difference. Which results need
the check and the update of an approval to be one atomic step is part of each theorem: those that do
ask for an `Exclusive` run, the others hold of all runs, and `ApprovalRaces` shows runs in which the
stronger ones fail. `ApprovalServer` gives the handlers as methods over the shared maps, each proved
equal to its actions taken without another handler in between. `ApprovalRules` says which calls need
approval in terms of the servers' rules alone, `ApprovalRecords` follows a rule into the approval, its
timer and what a decision leads to, and `Reflections` says what becomes of an answer of the model.

**Layers and cycles.** `CycleDetection` is the coloured depth-first search, `Dag` the layering by
counters with its sentinel, `WorkflowCycles` the same search over workflow files. `Layering` and
`LayerOrder` say what layers are without mentioning counters.

**The runner.** `RunnerSpec` says what a run does to the store, recursively over nested workflows;
`Runner` is the runner itself, a class over the `MemStore` class, proved equal to it. `RunTree`
states what holds of the tree of runs that is left behind, `RunnerProperties` proves it by induction
over nested workflows, and `RunnerGuarantees` draws the conclusions. `RunnerFlows` says what flows
through a run, step by step, without speaking of how the runner goes about it: what each step was
given, what its body answered, what became of the answer; `DataFlow` says what follows. `Fanout`
treats the goroutines of a fanout as a transition system under an arbitrary scheduler, and `Items`
says what a fanout returns for each item.

**Smaller pieces.** `Copies` (how deep the store's copies go, with references), `Merge` (deep merge
of step outputs), `Expr`, `ExprLiterals` and `ExprIdempotence` (the quoting scanner for expressions),
`Reserved` (reserved output fields and the air-lock), `RoundRobin` (model choice).

The model runtime, the gateway, the tools, the dispatcher, expression evaluation and JSON parsing
are functions of the model's `World` types. Every theorem quantifies over all worlds. The answer to
a tool call is a function of the call, its id included, so calls whose ids differ, as those of one
leg do, can be answered differently.

Where the code differs from what its comments say, the model follows the code:

- The runner means to keep a step's metrics whether it succeeds or fails (runner.go:195-196), but a
  failed sub-workflow hands up none. `RunnerGuarantees.TotalsExact` says exactly when totals are
  complete, and `RunnerGuarantees.FailedSubRunIsNotCounted` gives a workflow that loses them.
- The free JSON correction is described as following an invalid last answer (loop.go:398-401). It is
  made exactly when the leg runs out of turns and its last invalid answer, however many tool calls
  came after it, was not empty: `Corrections.CorrectedExactly`. `Corrections.CorrectedAfterToolCall`
  and `Corrections.EmptyAnswerIsNotCorrected` are legs that go against the comment either way.
- Approving and resuming restarts the turn counter and also forgets the last invalid answer
  (loop.go:264). `Corrections.ResumeForgetsExactly` says when the resumed leg differs for it, and
  `Corrections.ApprovalLosesCorrection` is a step that loses a correction by being approved.
- A decision is refused once an approval is decided (server.go:578-581), but the check is not locked
  against another decision or the timeout; `ApprovalRaces` shows two legs resumed for one step, and
  `Protocol.TokenConservation` counts one leg too many for each decision written too late.
- A finished step is not meant to change again; after a cancelled dispatch it can.
  `ApprovalAccounting.OverwrittenExactly` says by what.
- The copies the store keeps and hands out are called deep (mem_store.go:60, 78), but maps and lists
  inside an output or inside arguments are shared. `Copies.EditOriginal` and `Copies.EditCopy` say
  exactly when a change on one side shows on the other, and `Copies.NestedWriteShows` is one.
- An envelope's entries are said to keep pipeline order (pkg/types/envelope.go:16); they come in the
  order in which a map is walked. `MemStore.Describes` allows any.
- A rejection with `recover` sends the saved transcript back with the rejection appended
  (server.go:651-682). When the step was cancelled and stored as failed in between, there is no saved
  transcript: `ApprovalRaces.RejectionAfterCancelIsForgotten`. An approval then starts the step over,
  without the approved call. `ApprovalTranscripts.ResumesExactly` and `StartsOver` say when and how.
- Step ids with slashes are accepted. Two of them can get one approval key, or one nested run id, in
  some runs exactly when one ends in a slash and the other: `MemStore.KeysCollideExactly`.
- Merging is associative only on some triples of values; `Merge.AssociativeExactly` says which.
- Quoting an expression twice can differ from quoting it once after an unclosed quote;
  `Expr.UnclosedQuoteBreaksIdempotence` is such an expression, and
  `ExprIdempotence.IdempotentExactly` says on which expressions it does not.

## Model

| member | source | states |
|---|---|---|
| AgentLoop.FindRule | internal/runtime/agent/loop.go:531-551 | no rule is found exactly when no pattern matches; a found rule matches. What matching means is `ApprovalRules.MatchesExactly` |
| AgentLoop.FindRuleFirst | internal/runtime/agent/loop.go:544-551 | the rule found is the first that matches, in the order of the rules |
| ApprovalRules.PrefixPattern | internal/runtime/agent/loop.go:531-540 | a pattern that is a prefix followed by a star matches exactly the names that start with the prefix |
| ApprovalRules.ExactPattern | internal/runtime/agent/loop.go:531-540 | a pattern that does not end in a star matches exactly its own name |
| ApprovalRules.MatchesExactly | internal/runtime/agent/loop.go:531-540 | a pattern matches a name exactly when it is the name, or a beginning of it followed by a star |
| ApprovalRules.FoundRule | internal/runtime/agent/loop.go:544-551 | the rule found is the first whose pattern is the name or a beginning of it followed by a star; none is found exactly when there is no such rule |
| AgentLoop.RunDiscovery | internal/runtime/agent/loop.go:154-188 | merging the discovery results in server order gives the routing: the last server that offers a name gets it |
| AgentLoop.DiscoverFails | internal/runtime/agent/loop.go:174-178 | one server that cannot be discovered fails the whole discovery |
| ApprovalRules.RoutedToLast | internal/runtime/agent/loop.go:154-188 | a tool is routed to the last server that offers it, and is not routed exactly when none does |
| AgentLoop.RunPrelude | internal/runtime/agent/loop.go:215-262 | the loop over stored messages and their blocks makes exactly the approved calls of `Resume`, in order, up to the first failure |
| AgentLoop.RunBatch | internal/runtime/agent/loop.go:282-337 | the batch loop computes `ToolBatch`: calls up to the first that is gated, unknown or fails |
| AgentLoop.RunTurns | internal/runtime/agent/loop.go:264-415 | the turn loop with forced conclusion, reflection and free correction computes `Turns` |
| AgentLoop.Run | internal/runtime/agent/loop.go:142-415 | one leg from discovery to its outcome is `RunLeg`, the function the properties below are about |
| LoopProperties.LegIsGood | internal/runtime/agent/loop.go:142-425 | in every leg the counters are what its calls cost, all tool calls were permitted, and the call budget and the shape of a suspension hold |
| LoopProperties.CallBound | internal/runtime/agent/loop.go:210-414 | with T turns a leg makes at most T+2 gateway calls, T+1 without reflection, T when suspended; at most two reflect, none when suspended; the counters are exactly the successful calls |
| LoopProperties.ApprovalGate | internal/runtime/agent/loop.go:215-311 | every tool call needs no approval on the server it is routed to, or is a stored call with an approved id; a suspension names the first matching rule of a call that was not made |
| ApprovalRules.UnaskedCallsAreUngoverned | internal/runtime/agent/loop.go:282-311 | a call made without pre-approval goes to the last server that offers the tool, and no rule of that server has the name, or a beginning of it followed by a star, as its pattern |
| ApprovalRules.SuspendedByFirstRule | internal/runtime/agent/loop.go:282-308 | a leg suspends only on a call that a rule of its server speaks of, and reports what the first such rule says |
| ApprovalRules.TurnsAllowed | internal/runtime/agent/loop.go:210-267 | a leg takes at most as many turns as it is allowed, ten where the request sets none, and makes at most two gateway calls more |
| Reflections.DraftsEndRightly | internal/runtime/agent/loop.go:344-396 | an answer that is an object ends the leg: as it is when no reflection is asked for or the answer states enough confidence, with an error when a fatal field is set, and otherwise with what one reflection on it, retried once, makes of it |
| Reflections.RunsOutAfterAllTurns | internal/runtime/agent/loop.go:266-414 | a leg that goes through its turns without an end has asked exactly as often as it is allowed turns |
| Transcript.PartStands | internal/runtime/agent/loop.go:312-337 | every part of a transcript stands in it as a whole: a tool use is immediately followed by the tool result with its id |
| Transcript.TurnsTold | internal/runtime/agent/loop.go:266-396 | the turn loop appends exactly what happened: for each answered call its tool use and result, for each answer that is no object the request to correct it, the prompt to conclude, and the call a suspended leg waits for |
| Transcript.ResumeExactly | internal/runtime/agent/loop.go:215-262 | with the one approved id at the end of the checkpoint, the prelude makes that call and no other |
| Transcript.LegTold | internal/runtime/agent/loop.go:199-414 | a leg's transcript is what it started with, the results of the approved calls in order, then exactly what its turns did, then the waiting call |
| Transcript.MadeOnceExactly | internal/runtime/agent/loop.go:215-262 | a prelude that runs through makes the waiting call and no other exactly when no earlier tool use has its id |
| Transcript.FirstLegTurns | internal/runtime/agent/loop.go:199-264 | without approved calls a leg goes straight into its turn loop |
| Transcript.ResumedLegTurns | internal/runtime/agent/loop.go:215-264 | a resumed leg makes the approved call once and enters its turn loop with the result appended |
| Transcript.TurnsLifted | internal/runtime/agent/loop.go:266-338 | a turn loop that suspends is the start of the same loop with the rule lifted and the batch cut after the waiting call |
| Transcript.ApproveAndResume | internal/runtime/agent/loop.go:199-338 | approving and resuming is transparent but for two things: same messages, counters of the two legs adding up; the turn counter restarts, and so does the memory of invalid answers, which in the continued loop is the last invalid answer of the suspended leg |
| Corrections.CorrectedExactly | internal/runtime/agent/loop.go:264-414 | a leg asks for the free correction exactly when no turn ended it and its last invalid answer, whenever it came, was not empty |
| Corrections.CorrectedAfterToolCall | internal/runtime/agent/loop.go:398-411 | a leg whose last answer is a tool call that was made, and which is corrected |
| Corrections.EmptyAnswerIsNotCorrected | internal/runtime/agent/loop.go:402-414 | a leg whose last answer is invalid and empty, and which is not corrected |
| Corrections.ForgettingExactly | internal/runtime/agent/loop.go:264-414 | starting a turn loop without its memory of invalid answers changes the leg exactly when the memory is not empty, no turn ends the leg and no turn has an invalid answer of its own |
| Corrections.ResumeForgetsExactly | internal/runtime/agent/loop.go:215-414 | a resumed leg goes as if it had kept the suspended leg's last invalid answer, unless that was not empty and the resumed leg runs out of turns without an invalid answer of its own |
| Corrections.ApprovalLosesCorrection | internal/runtime/agent/loop.go:215-414 | a suspended leg with an invalid answer whose resumed leg runs out of turns and is not corrected |
| Reserved.AirlockAfterReserved | internal/orchestrator/runner/runner.go:1179-1260 | after the reserved fields are processed the air-lock passes exactly when every required field came under an unreserved name; unreserved fields are kept as they were |
| Reserved.VerdictExactly | internal/orchestrator/runner/runner.go:1179-1260 | an output is rejected exactly when one of the four flags is true or a positive threshold is above the stated confidence, 0 when none is stated; skipped exactly when it is not rejected and gives a reason; what is passed on is the output without its reserved fields |
| Reserved.WarningExactly | internal/orchestrator/runner/runner.go:1196-1222 | the error of a rejected output names the first flag that is true, or the confidence if none is |
| Protocol.TokenConservation | internal/orchestrator/server.go:397-755 | in every run, however interleaved: legs and handlers in progress, undecided approval, channel content and received payload, plus losses, equal accepted posts plus stale decisions |
| ApprovalGating.GatedCallsAreGranted | internal/orchestrator/server.go:583-682 | in every run, a tool call that is gated where it is routed carries the id of a call an earlier leg suspended on and a human decided to approve |
| ApprovalGating.DecidedForGood | internal/orchestrator/server.go:573-603 | in every run, an approval that left pending is never pending again, and there is one record whose call never changes |
| ApprovalRecords.AllKept | internal/orchestrator/server.go:397-755 | in every run the approval is that of a suspended leg, timers are those of the approval, and every payload on its way reports how a leg ended or why none goes on |
| ApprovalRecords.ApprovalFollowsRule | internal/orchestrator/server.go:484-511 | in every run the approval's call, reject policy, timeout and timeout behaviour are those of the first rule that speaks of the suspended call on the server it goes to; a timer has that behaviour, and there is one while the approval is pending and can expire |
| ApprovalRecords.NoTimerWithoutApproval | internal/orchestrator/server.go:508-511 | in every run there is no timer without an approval |
| ApprovalRecords.DecisionFollowsRule | internal/orchestrator/server.go:583-755 | in every run an approved call is resumed; a rejected one, or one that expires under a rule with the behaviour "reject", goes back to the agent if the rule says "recover" and fails the step otherwise; expiry under any other behaviour fails the step |
| ApprovalRecords.ResumedWith | internal/orchestrator/server.go:609-682 | in every run the request a decided approval is resumed with is that of its leg with the saved transcript, and the approved id or the rejection as the call's answer |
| ApprovalRecords.CheckpointSaves | internal/orchestrator/server.go:463-482 | in every run a checkpoint marks the step as waiting and saves the whole transcript and the usage of the leg that suspended, over an earlier one |
| ApprovalRecords.ReceivedAnswer | internal/orchestrator/server.go:412-458 | in every run the waiting dispatch is told how a leg ended, reserved fields processed, or that the approval was decided and the step has failed |
| ApprovalRecords.GovernedCallsAreGranted | internal/runtime/agent/loop.go:282-308 | in every run a call that a rule speaks of, on the last server to offer its tool, carries the id of a call a leg suspended on and a human approved |
| ApprovalAccounting.NoStaleDecision | internal/orchestrator/server.go:573-603 | in an exclusive run at most one handler is between check and update, and then the approval is still pending |
| ApprovalAccounting.SingleToken | internal/orchestrator/server.go:397-517 | in an exclusive run there is at most one of leg or handler, undecided approval, payload in the channel, payload received; the one-slot send never waits, cancelled or not |
| ApprovalAccounting.BooksBalance | internal/orchestrator/server.go:434-502 | at every point of an exclusive run what is recorded for the step and what is under way account for all that its legs used |
| ApprovalAccounting.SpentIsTotal | internal/runtime/agent/loop.go:417-425 | what a step has used is the sum over its finished legs |
| ApprovalAccounting.ReceivedIsTotal | internal/orchestrator/server.go:434-443 | the metrics a dispatch receives are the sum over all legs, however the step ended, with at most 2T+2 gateway calls; leaving reflections out of the partial sum loses nothing |
| ApprovalAccounting.ResumeIsFaithful | internal/orchestrator/server.go:609-682 | the request a redispatch posts is the original one with the suspended leg's whole transcript, and the approved id or the rejection as the call's result |
| ApprovalAccounting.FinishedStepStays | internal/orchestrator/server.go:460-517 | once a dispatch has returned without being cancelled, no callback, decision or timeout changes the step record |
| ApprovalAccounting.OverwrittenExactly | internal/orchestrator/server.go:460-481 | in an exclusive run an action other than the runner's changes a finished step exactly when the dispatch was cancelled and a suspended leg's callback writes the checkpoint of a record it has read |
| ApprovalTranscripts.EveryLegStarts | internal/orchestrator/server.go:609-682 | every leg of an exclusive run starts from a fresh request, from a checkpoint whose waiting call a human granted, from a checkpoint answered by the rejection, or from the bare rejection when no transcript was saved |
| ApprovalTranscripts.TranscriptsArePaired | internal/orchestrator/server.go:609-682 | across all legs of a run every tool use stands immediately before its own result, which is what a leg that made the call got or the rejection of a call a leg suspended on; left over are only the waiting call of a suspended leg, a resumed call that failed at once, and the legs that start from a bare rejection, which never are such a conversation |
| ApprovalTranscripts.ExecutedAsGranted | internal/orchestrator/server.go:583-635 | a call made without asking is the call a human granted, name and input, when its id is used once |
| ApprovalTranscripts.ResumesExactly | internal/orchestrator/server.go:609-682 | in an exclusive run an approval resumes from a checkpoint, and a rejection continues a conversation, exactly when the step record has a transcript |
| ApprovalTranscripts.StartsOver | internal/runtime/agent/loop.go:199-262 | a resumed leg without a transcript makes no approved call |
| ApprovalTranscripts.ResumedLegTakesOver | internal/orchestrator/server.go:609-635 | every leg of an exclusive run that resumes a transcript, its id used once, resumes a first leg of that run and starts its turn loop where that leg's loop would have gone on |
| Redispatch.LatePostIsRepost | internal/orchestrator/server.go:609-635 | a post that comes after another handler's or the runner's action, of a request built before it, has the same effect as one made at once |
| Redispatch.PostPasses | internal/orchestrator/server.go:632-704 | an accepted post and any action on another activity can be exchanged |
| ApprovalRaces.UnlockedDecisionsDuplicate | internal/orchestrator/server.go:573-595 | a reachable state in which two decisions interleaved and two legs of one step are in flight |
| ApprovalRaces.CancelledStepIsOverwritten | internal/orchestrator/server.go:460-481 | a reachable state in which the callback of a cancelled dispatch overwrites a finished step |
| ApprovalRaces.RejectionAfterCancelIsForgotten | internal/orchestrator/server.go:651-682 | a reachable state of an exclusive run in which a recovering leg starts with the rejection alone, its transcript overwritten when the cancelled step was stored as failed |
| ApprovalServer.Server.HandleStepComplete | internal/orchestrator/server.go:397-458 | the callback handler alone does what its protocol actions do, to its own step only |
| ApprovalServer.Server.HandlePendingApproval | internal/orchestrator/server.go:460-517 | checkpointing alone does what its protocol actions do: step record, approval, timer. What those hold is `ApprovalRecords.ApprovalFollowsRule` and `CheckpointSaves` |
| ApprovalServer.Server.RedispatchRejected | internal/orchestrator/server.go:637-682 | a rejection either starts the recovering leg or signals the failed payload, never both |
| ApprovalServer.Server.HandleDecideApproval | internal/orchestrator/server.go:555-607 | 404, 409 and 500 exactly when the approval is missing, decided, or its resume refused; refusals change nothing, decisions do what their protocol actions do |
| ApprovalServer.Server.RunApprovalTimeout | internal/orchestrator/server.go:733-755 | a timeout does what its protocol actions do, and nothing once the approval is decided |
| CycleDetection.Search.Visit | internal/orchestrator/dag/dag.go:77-94 | visiting keeps the black vertices closed and off cycles, and an error names a vertex on a cycle |
| CycleDetection.DetectCycle | internal/orchestrator/dag/dag.go:69-102 | reports an error exactly when the dependency graph has a cycle, and then a vertex on one |
| Dag.CountDependencies | internal/orchestrator/dag/dag.go:22-32 | each counter is the number of dependencies declared for the id |
| Dag.Collect | internal/orchestrator/dag/dag.go:36-42 | with the lower levels placed, the zero counters are exactly the next level, in input order |
| Dag.Remove | internal/orchestrator/dag/dag.go:48-63 | after a layer is removed each counter is the number of dependencies not yet placed, or the sentinel |
| Dag.Peel | internal/orchestrator/dag/dag.go:34-66 | the loop terminates with exactly the layers |
| Dag.Resolve | internal/orchestrator/dag/dag.go:13-67 | an error exactly when there is a cycle; otherwise exactly `Layers` |
| Layering.UniqueGraph | internal/orchestrator/dag/dag.go:72-75 | with unique ids the graph searched for cycles is the dependency graph |
| Layering.LevelByChains | internal/orchestrator/dag/dag.go:22-64 | the fixed-point levels are longest chain lengths over declared closures |
| Layering.LayerCharacterisation | internal/orchestrator/dag/dag.go:13-67 | a node is in layer k exactly when its whole dependency closure is declared and its longest chain has length k; the layer is in input order |
| Layering.LeftOut | internal/orchestrator/dag/dag.go:34-64 | a node that transitively depends on an undeclared id, or on a cycle, is in no layer |
| Layering.EveryOtherPlaced | internal/orchestrator/dag/dag.go:34-64 | a node is in some layer exactly when its dependency closure is declared and free of cycles |
| LayerOrder.OrderDistinct | internal/orchestrator/runner/runner.go:126-128 | with unique ids the runner meets no step twice |
| LayerOrder.DependenciesFirst | internal/orchestrator/runner/runner.go:126-128 | every dependency of a step comes before it in the order the runner walks |
| LayerOrder.OrderIsComplete | internal/orchestrator/dag/dag.go:13-67 | with unique ids and no cycle, the order has exactly the nodes with a declared closure, once each |
| WorkflowCycles.Checker.Check | cmd/ktsu/main.go:1020-1058 | a ref whose check finds nothing is finished off every cycle; a message means a cycle reachable from the ref |
| WorkflowCycles.CheckWorkflow | cmd/ktsu/main.go:1020-1058 | a message exactly when a cycle of resolvable refs is reachable from the root, naming a ref on it |
| WorkflowCycles.RefersExactly | cmd/ktsu/main.go:1036-1056 | a workflow refers to the absolute paths its steps name and to the relative ones joined to its own; shipped workflows and empty fields are not followed, and a ref that does not resolve refers to nothing |
| Fanout.Collect | internal/orchestrator/runner/runner.go:383-421 | the collecting loop computes output, summed metrics and error as one function of the item results |
| Fanout.SucceedsWithinLimit | internal/orchestrator/runner/runner.go:411-421 | success exactly when the failures are within the limit, a negative limit tolerating all; then each item has its entry in order |
| Fanout.ScheduleIndependent | internal/orchestrator/runner/runner.go:346-381 | under every interleaving no more dispatches are in progress than a positive concurrency allows, each index is dispatched once, and the outcome does not depend on the schedule |
| Fanout.StartsExactly | internal/orchestrator/runner/runner.go:340-363 | an item can start exactly when it still waits and fewer are in progress than a positive concurrency allows |
| Items.FanoutExactly | internal/orchestrator/runner/runner.go:310-422 | a for-each step takes its items in order up to a positive max_items; it succeeds exactly when the failures are within max_failures, entry i is then the object answered for item i or its error with index i, otherwise the error is that of the first item that failed; it costs what its items cost |
| Items.ItemsDispatchedOnce | internal/orchestrator/runner/runner.go:357-379 | each item taken is dispatched exactly once, and nothing else is |
| Fanout.AlwaysFinishes | internal/orchestrator/runner/runner.go:357-381 | no interleaving gets stuck, and all goroutines are done after two moves each |
| MemStore.MemStore.constructor | internal/orchestrator/state/mem_store.go:31-38 | a new store is empty |
| MemStore.MemStore.CreateRun | internal/orchestrator/state/mem_store.go:93-103 | stores the run exactly when its id is new |
| MemStore.MemStore.UpdateRun | internal/orchestrator/state/mem_store.go:105-116 | replaces the run exactly when its id is known |
| MemStore.MemStore.GetRun | internal/orchestrator/state/mem_store.go:118-128 | returns a fresh copy of the stored run |
| MemStore.MemStore.CreateStep | internal/orchestrator/state/mem_store.go:160-174 | stores the step exactly when its run has none of that id |
| MemStore.MemStore.UpdateStep | internal/orchestrator/state/mem_store.go:176-191 | replaces the step exactly when it exists |
| MemStore.MemStore.GetStep | internal/orchestrator/state/mem_store.go:193-207 | returns a fresh copy of the stored step |
| MemStore.MemStore.CreateApproval | internal/orchestrator/state/mem_store.go:293-304 | stores the approval exactly when its key is new |
| MemStore.MemStore.UpdateApproval | internal/orchestrator/state/mem_store.go:333-345 | replaces the approval exactly when its key is known |
| MemStore.MemStore.GetApproval | internal/orchestrator/state/mem_store.go:306-317 | returns a fresh copy of the approval under the key |
| MemStore.MemStore.GetEnvelope | internal/orchestrator/state/mem_store.go:225-291 | the envelope has the run's fields, an entry for each step that is neither pending nor running, exactly once, in some order, and totals that are the sum over exactly those steps |
| MemStore.TotalTakeOut | internal/orchestrator/state/mem_store.go:246-288 | the totals do not depend on the order in which steps are visited |
| MemStore.TotalPut | internal/orchestrator/state/mem_store.go:176-191 | storing a step replaces what it counted for in the totals |
| MemStore.StoredIsACopy | internal/orchestrator/state/mem_store.go:60-75 | changing the fields or top-level keys of a record after storing it leaves the store as it was |
| MemStore.GivenIsACopy | internal/orchestrator/state/mem_store.go:193-207 | changing the fields or top-level keys of a record the store returned leaves the store as it was |
| Copies.Copy | internal/orchestrator/state/mem_store.go:60-92 | the copying loop gives a new map with the same values under the same keys, nested maps included |
| Copies.SeenExactly | internal/orchestrator/state/mem_store.go:60-92 | an edit through one of two maps that share their nested maps shows in the other exactly when it changes a nested map |
| Copies.EditOriginal | internal/orchestrator/state/mem_store.go:60-75 | after a record was stored, an edit of the original changes what the store holds exactly when it changes a nested map |
| Copies.EditCopy | internal/orchestrator/state/mem_store.go:193-207 | an edit of a record the store returned changes what the store holds exactly when it changes a nested map |
| Copies.NestedWriteShows | internal/orchestrator/state/mem_store.go:64-68 | one nested write to a record already stored, and the store holds the new value |
| MemStore.ApprovalKeyInjective | internal/orchestrator/state/mem_store.go:298-298 | with no slash in step ids, approvals of different steps never share a key |
| MemStore.KeysCollideExactly | internal/orchestrator/state/mem_store.go:298-298 | two step ids get one key in some runs exactly when one of them ends in a slash and the other |
| MemStore.ApprovalKeyCollides | internal/orchestrator/state/mem_store.go:298-298 | one such pair of ids |
| Merge.MergeAt | internal/orchestrator/runner/runner.go:622-651 | what a merge holds at any path: keys of both objects, items of both arrays in a row, otherwise the later value, unless that has nothing there |
| Merge.AbsorbedExactly | internal/orchestrator/runner/runner.go:622-651 | when merging over a value leaves nothing of it |
| Merge.AssociativeExactly | internal/orchestrator/runner/runner.go:622-651 | exactly the triples of values on which merging is associative |
| Merge.NotAssociative | internal/orchestrator/runner/runner.go:622-651 | a list, a null and a list: the two groupings give different lists |
| Merge.EmptyObjectIsIdentity | internal/orchestrator/runner/runner.go:622-637 | the empty object is a two-sided identity on objects |
| Merge.MergesInARow | internal/orchestrator/runner/runner.go:604-618 | merging two lists of steps one after the other is merging the concatenated list |
| Merge.NextOutput | internal/orchestrator/runner/runner.go:604-618 | the next entry of a merge list merges the output of the step it names over what is there; an entry that is not a string names the empty id, and a step without output is passed over |
| Merge.ApplyMerge | internal/orchestrator/runner/runner.go:604-618 | the loop merges the listed outputs in turn, passing over steps without one |
| Merge.LastOutputWins | internal/orchestrator/runner/runner.go:604-651 | at a path where the last output that has anything has a scalar, that scalar is the result |
| Expr.TokensSpellInput | internal/orchestrator/runner/expr.go:18-39 | taking away the inserted quotes gives the input back, on every input |
| Expr.ScanOfSanitized | internal/orchestrator/runner/expr.go:30-39 | scanning the rewritten text finds the same tokens, identifiers now inside quotes |
| Expr.SanitizeTheorem | internal/orchestrator/runner/expr.go:11-40 | with closed quotes the rewriting is idempotent, leaves no bare hyphenated identifier and every literal as it was |
| ExprLiterals.NameQuoted | internal/orchestrator/runner/expr.go:18-39 | words of letters and digits joined by single hyphens, the first starting with a letter, are put in quotes as a whole |
| ExprLiterals.OnlyNamesQuoted | internal/orchestrator/runner/expr.go:18-39 | nothing else is put in quotes |
| ExprLiterals.NoHyphenUnchanged | internal/orchestrator/runner/expr.go:18-39 | an expression without a hyphen is left as it is |
| ExprLiterals.QuotedLiteralKept | internal/orchestrator/runner/expr.go:18-37 | a closed quoted literal is kept, escaped quotes included |
| ExprLiterals.TickedLiteralKept | internal/orchestrator/runner/expr.go:18-37 | a closed backtick literal is kept |
| Expr.UnclosedQuoteBreaksIdempotence | internal/orchestrator/runner/expr.go:18-39 | an expression with an unclosed quote on which a second pass changes the text again |
| ExprIdempotence.IdempotentExactly | internal/orchestrator/runner/expr.go:18-39 | on every input: a second pass changes nothing exactly when, after each quote that is never closed, the text up to the next identifier, read in escape pairs, ends inside an escape or has an escaped newline |
| ExprIdempotence.ClosedIsSteady | internal/orchestrator/runner/expr.go:18-39 | closed quotes meet that condition |
| RunnerSpec.StepByID | internal/orchestrator/runner/runner.go:83-87 | the step map has every id, each with a step of that id |
| RunnerSpec.OrderDeclared | internal/orchestrator/runner/runner.go:126-128 | every id in the layers has a step in the map |
| Runner.Runner.ExecuteAgent | internal/orchestrator/runner/runner.go:267-308 | dispatches once, with errors and stub as specified |
| Runner.Runner.DispatchItems | internal/orchestrator/runner/runner.go:357-379 | fills the results array with the reply for each index; what a fanout makes of it is `Items.FanoutExactly` |
| Runner.Runner.ExecuteFanout | internal/orchestrator/runner/runner.go:310-422 | truncates, dispatches every item once and collects |
| Runner.Runner.ExecuteWorkflow | internal/orchestrator/runner/runner.go:841-949 | runs the nested workflow under its own run id and suppression, and drops the metrics of a failed one |
| Runner.Runner.ExecuteBody | internal/orchestrator/runner/runner.go:180-193 | executes the body for the kind of the step |
| Runner.Runner.FailRun | internal/orchestrator/runner/runner.go:111-124 | stores the step and the run as failed |
| Runner.Runner.Deliver | internal/orchestrator/runner/runner.go:215-256 | reserved fields and air-lock decide between failed, skipped and complete; what later steps see of it is `RunnerFlows.PipelineWalks` |
| Runner.Runner.Conclude | internal/orchestrator/runner/runner.go:199-256 | from the outcome of the body to the stored record, outputs and halt |
| Runner.Runner.ExecuteStep | internal/orchestrator/runner/runner.go:1074-1148 | adds the body's metrics up and settles the step |
| Runner.Runner.TakeStep | internal/orchestrator/runner/runner.go:158-173 | skips a step whose condition is false, else executes it |
| Runner.Runner.RunStep | internal/orchestrator/runner/runner.go:1027-1057 | creates the record, suppressed webhooks as skipped; an existing record stops the run |
| Runner.Runner.RunLayer | internal/orchestrator/runner/runner.go:126-127 | the steps of a layer in turn, until one halts the run |
| Runner.Runner.RunLayers | internal/orchestrator/runner/runner.go:126-258 | the nested loops take the steps in the flattened order |
| Runner.Runner.Finish | internal/orchestrator/runner/runner.go:1152-1176 | the run is stored complete and returns its mapped or last output, unless it was halted |
| Runner.Runner.RunPipeline | internal/orchestrator/runner/runner.go:956-1177 | one run over the store is `RunnerSpec.RunPipeline` |
| Runner.Runner.Execute | internal/orchestrator/runner/runner.go:52-265 | a root run over the store is `RunnerSpec.RunPipeline` for a root |
| Runner.PipelineKeeps | internal/orchestrator/runner/runner.go:956-1177 | no run and no step record is ever removed, so updates always find their record |
| RunTree.NestedIdsInjective | internal/orchestrator/runner/runner.go:942-942 | with no slash in step ids, different steps never share a nested run id, whatever their runs |
| RunTree.SiblingsApart | internal/orchestrator/runner/runner.go:942-942 | the runs nested in two steps of a run, at any depth, are disjoint if neither id starts with the other and a slash |
| RunTree.SiblingsMeetExactly | internal/orchestrator/runner/runner.go:942-942 | two steps of a run can have a nested run in common exactly when they are one step or one id starts with the other and a slash |
| RunTree.TreeFrame | internal/orchestrator/runner/runner.go:956-1177 | what happens outside a run and the runs nested in it does not change what holds of them |
| RunTree.CompleteThroughout | internal/orchestrator/runner/runner.go:944-948 | a run is complete only if every run nested in it is |
| RunnerProperties.StepKeepsInv | internal/orchestrator/runner/runner.go:1011-1149 | a step keeps records, totals, branches and untouched siblings in order |
| RunnerProperties.PipelineEffect | internal/orchestrator/runner/runner.go:956-1177 | every run on a fresh id leaves a tree in order, touches nothing else, and hands up exactly what was spent or an error |
| RunnerFlows.KindExactly | internal/orchestrator/runner/runner.go:129-143 | which steps are nested workflows, transforms, webhooks and agents, in a root and in a nested run |
| RunnerFlows.StepWalks | internal/orchestrator/runner/runner.go:126-258 | a step's record and the entry later steps see are what becomes of its body's answer to the outputs of the steps before it, or of its condition or suppression |
| RunnerFlows.PipelineWalks | internal/orchestrator/runner/runner.go:52-265 | every run on a fresh id is opened under its name with its payload, and each of its steps was given the outputs of those before it and left what its body's answer calls for; nested runs likewise, on the input made for them; a complete run reports its mapped or last output, another the error of its last step |
| RunnerGuarantees.FailFast | internal/orchestrator/runner/runner.go:78-265 | at every nesting level the records are a prefix of the order and only the last may have failed; a run is complete when the whole order has succeeded, failed when its last step failed, and left running when there is no order; an error exactly when not complete |
| RunnerGuarantees.CompleteRunHasEveryStep | internal/orchestrator/runner/runner.go:126-258 | at every nesting level a complete run has the record of a pipeline step exactly when everything the step transitively depends on is declared |
| RunnerGuarantees.CompleteMeansAllComplete | internal/orchestrator/runner/runner.go:944-948 | a complete run means every run created under it is complete |
| RunnerGuarantees.DependenciesSettled | internal/orchestrator/runner/runner.go:126-156 | when a step starts, each of its dependencies has a record that is complete or skipped; the outputs it is given are those of exactly the steps before it, and a complete dependency's is its stored output |
| DataFlow.DependenciesGiven | internal/orchestrator/runner/runner.go:300-306 | at every nesting level a step that has started was given what each of its dependencies left, a complete one's stored output, and outputs of earlier steps only |
| DataFlow.CompleteMeansAnswered | internal/orchestrator/runner/runner.go:199-256 | at every nesting level a complete step's stored output is its body's answer, made from what earlier steps left, without the reserved fields; the answer had no error, no flag, enough confidence and every required field |
| DataFlow.AgentCompletesExactly | internal/orchestrator/runner/runner.go:267-308 | at every nesting level an agent step without items is complete exactly when the dispatcher's answer is clean, and then stores that answer |
| DataFlow.MappedFromStored | internal/orchestrator/runner/runner.go:1152-1165 | what a run's output map is given has an entry for each step that did not fail, a complete one's stored output |
| DataFlow.NestedWalks | internal/orchestrator/runner/runner.go:916-948 | a nested run was started on the input made from what its step was given, and walked through its own order in the same way |
| DataFlow.EveryNewRunWalks | internal/orchestrator/runner/runner.go:52-265 | all of this holds of every run that is created, the one started and those nested in it at any depth |
| RunnerGuarantees.ReturnsLastCompleteOutput | internal/orchestrator/runner/runner.go:951-955 | without an output map a run returns the output of its last complete step |
| RunnerGuarantees.CompleteOutputsAreAirLocked | internal/orchestrator/runner/runner.go:238-256 | at every nesting level a complete step's stored output has no reserved field and every required one; other steps store none |
| RunnerGuarantees.SuppressedWebhooksAreSkipped | internal/orchestrator/runner/runner.go:937-940 | at every nesting level the webhook steps of a nested run are skipped, without cost or output, unless both the nested workflow and the step that starts it execute webhooks |
| DataFlow.WebhooksFireExactly | internal/orchestrator/runner/runner.go:937-940 | at every nesting level a webhook step of a nested run fires, if its condition allows, exactly when both the nested workflow and the step that starts it execute webhooks |
| RunnerGuarantees.Conservation | internal/orchestrator/state/mem_store.go:246-288 | the totals of a complete run are the sum over every dispatcher call made for it, fanout items and nested workflows included |
| RunnerGuarantees.TotalsHandedUp | internal/orchestrator/runner/runner.go:1094-1103 | the totals of each sub-run of a complete run are the metrics of the step that started it |
| RunnerGuarantees.TotalsExact | internal/orchestrator/runner/runner.go:944-948 | a run's totals are all that was spent for it exactly when no sub-run failed after spending something |
| RunnerGuarantees.FailedSubRunIsNotCounted | internal/orchestrator/runner/runner.go:195-197 | a well-named root on an empty store whose totals are zero although its nested agent spent something before it failed |
| Envelope.ExecuteAndReport | internal/orchestrator/runner/runner.go:52-265 | after a run without an error the envelope is that of a complete run and reports what every dispatcher call made for it cost; with or without an error the store holds what the steps made of their inputs |
| RoundRobin.Dispatcher.constructor | internal/gateway/dispatcher.go:34-42 | every group has its own counter, at zero |
| RoundRobin.Dispatcher.FindGroup | internal/gateway/dispatcher.go:46-60 | finds the first group of that name |
| RoundRobin.NamedFirst | internal/gateway/dispatcher.go:46-60 | of several groups with one name the first is meant |
| RoundRobin.Dispatcher.SelectModel | internal/gateway/dispatcher.go:129-135 | takes the model at the counter's position and advances the counter, wrapping around |
| RoundRobin.Dispatcher.Choose | internal/gateway/dispatcher.go:44-70 | unknown groups and groups without models are errors that move no counter |
| RoundRobin.InRange | internal/gateway/dispatcher.go:133-134 | the index is in range exactly for the lower half of the counter's range, and above it where the number of models divides the distance to the wrap |
| RoundRobin.Fairness | internal/gateway/dispatcher.go:129-135 | after n selections up to 2^63 each position was chosen floor(n/k) times, and once more if the round under way has reached it |
| RoundRobin.ChosenOrDue | internal/gateway/dispatcher.go:131-134 | in every interleaving, the positions chosen and those of values taken but not yet used are those of the first selections in turn |
| RoundRobin.FairWhenConcurrent | internal/gateway/dispatcher.go:131-134 | once all concurrent selections are done, each position was chosen as often as if they had run one after the other |

## Left out

- HTTP, JSON and YAML decoding, file loading, the SQLite store, provider adapters, MCP transport, secret scrubbing, terminal output.
- JMESPath evaluation, webhooks, transforms other than `merge`, parameter resolution: functions of the world the runner is given. `sort`, `filter`, `map`, `flatten` and `deduplicate` are not modelled.
- `stripTemplate`, `interpolateTemplates` and `buildExprContext`: they only prepare what the world's functions are given.
- Durations, time stamps, the `Reflected` flag and `model_resolved`: they take no part in any decision. Wall-clock timeouts of a run are errors a dispatch returns.
- Error texts keep their fixed part and, where there is one, the error they pass on; item indices, counts and quoted names in them are left out.
- Integer counters do not wrap and cost is an exact real; only the round-robin counter is modelled with its 64-bit width.
- The runtime's table of active invocations: nothing reads it. That an accepted invocation calls back at most once is built into `Protocol`: a leg ends once, and its callback is delivered or lost.
- A POST that reports an error is taken as not accepted by the runtime.
- Approvals inside fanout items. A second suspension of one step finds the approval record taken and its token is lost; the model has this, the accounting theorems count it as a loss.
- The dispatcher the runner calls is a function that leaves the store alone. The step record's intermediate `pending_approval` status, which the orchestrator's handlers write, is in `Protocol`.
- Sub-workflow execution on cyclic references: nested workflows are finite trees.
- The goroutines of a fanout run one after the other in `Runner.DispatchItems`; their interleavings are in `Fanout`.
- The records the runner keeps of the current run and step are local values in `Runner`, copied into the store on every update; that a record shared with the store would behave the same is `MemStore.StoredIsACopy`.
- Runner theorems ask for unique step ids of which none starts with another and a slash, in nested workflows too, and for a run id under which the store has nothing yet: the runner itself relies on both for the runs it creates not to collide (`RunTree.SiblingsMeetExactly`).
- ApprovalTranscripts.TranscriptsArePaired: a resumed leg is covered when the id of its waiting call is not used by an earlier message; `MadeOnceExactly` shows that otherwise the prelude makes other calls too, and `LegTold` still says what its transcript is.
- ApprovalTranscripts.ExecutedAsGranted: asks the same of the id.
- MemStore.StoredIsACopy: outputs are values here, so it speaks of record fields and top-level keys; shared nested values are in `Copies`.
- MemStore.GivenIsACopy: the same. That `GetEnvelope` hands out the run's payload without a copy is not modelled either.
- Copies.Copy: nested values are one level of maps; lists and deeper maps inside them are values.
- Transcript.ApproveAndResume: compares the resumed leg with the loop it continues only when the approved tool call succeeds; otherwise the leg fails with its transcript as it was (`ApprovalTranscripts.TranscriptsArePaired`).
- Expr.SanitizeTheorem: closed quotes are sufficient for idempotence, not necessary; the exact condition is in `ExprIdempotence.IdempotentExactly`.
