# The multi-agent turn and its surroundings, in Dafny

This project models the agent framework `plnt` and its booking example, and
proves what their protocols keep. The centre is one turn of a session: the
parent decides on a plan, the agents of the plan run wave by wave in a thread
pool, each in a model/tool loop with a guardrail, a token budget, a loop
detector and a shared stop reason; every step is appended to the session's log;
the log is folded back into turns by the server (Python) and again by the
console (TypeScript). Around it are the two other schedulers of the repository,
the booking saga over at-least-once activities, the long-lived conversation,
the skill cache, resumable event cursors, the rate limiter and the chunker.

How the parts hang together:

- `Graph`, `CycleCheck`, `Schedulers`, `DagExecutor`, `ScheduleAgreement`:
  dependency graphs, the depth-first cycle check, `layers()`, the in-degree
  executor, and when all schedules are the same one.
- `Events`, `Transcript`, `TranscriptLaws`, `Console`, `TokenLaws`: the log, the
  two folds, their confluence, conservation of tokens and agreement.
- `AgentLoop`, `AgentLaws`, `AgentCards`, `AgentRuns`, `ToolLaws`, `RunState`,
  `RunAgent`: one agent as a machine whose every step logs at most one event;
  what every step and every run keeps; what becomes of its tool calls; and the
  nested loops of the source, proved to do step for step what the machine does.
- `PlanParser`, `Plans`, `AgentPool`, `TurnCards`, `TurnWaves`, `TurnEnds`,
  `Executor`, `SoloTurn`, `WholeTurn`: the plan, the pool with every
  interleaving of its agents and an operator who may kill the run between any
  two steps, the loop over waves, and the whole turn. `WholeTurn.TakeTurn`
  gathers the results.
- `Bookings`, `SagaKeys`, `Delivery`, `Saga`, `Conversation`: the ledger and the
  feed, their keys, activities whose attempts may be lost, late or repeated, one
  saga, any number of sagas, and the conversation that starts them.
- `Outbound`, `SkillCache`, `EventLog`, `RateLimiter`, `Chunks`: the smaller
  systems.

Everything a run cannot control is a parameter or an arbitrary choice: model
replies, tool results, clocks and answers that do not parse are functions in
`AgentLoop.World`; interleavings, kills, lost acknowledgements, signals and the
steps of other writers are nondeterministic choices, so the theorems hold for
all of them.

Where the code and its promises part, the code is kept and the exact condition
is proved:

- A kill with an empty reason stops nobody and blocks the budget from stopping
  the run. All runs under kills with a reason are contained exactly when that
  reason is not empty (`EmptyKill.ContainedIffReasonGiven`).
- A saga that returns "confirmed" leaves a confirmed row, whatever lands later,
  exactly when the row was not already cancelled, no cancel for it was still in
  flight, and nobody else works on the key (`Saga.ConfirmedHoldsIff`). For a key
  without a row the first two hold by themselves. A cancel that an earlier saga
  gave up on can undo a later one (`Saga.LateCancelUndoes`), and a slot that was
  compensated can be confirmed again and reported as booked while its row stays
  cancelled (`Conversation.CompensatedCanBeReconfirmed`).
- A booking shares its idempotency key with another one exactly when there is a
  colon in its session, business or slot, and then one of the two has it in its
  session or business (`SagaKeys.KeyIsSharedIff`).
- The in-degree executor takes repeated ids. It runs an acyclic plan in the
  rounds of its dependencies exactly when no repeated id has dependencies;
  otherwise the plan gets stuck, or such a spec starts before what it depends on
  (`DagExecutor.Run`).
- Plan ids are unique exactly when no renamed id is already in use
  (`PlanParser.UniqueIffNoClash`, `PlanParser.IdsCanClash`). The executor keeps
  specs in a dict, so a repeated id runs once, with its last plan.
- The two folds agree on a complete event exactly when no agent that used tokens
  reports a total of zero (`Console.StepsAgreeIff`); no run does that, so both
  show the same session (`WholeTurn.Session`).

## Model

| member | source | states |
|---|---|---|
| `Graph.DoneByWalks` | plnt/executors/local.py:465-485 | a node is finished within k rounds iff every dependency walk from it stays in the plan and has at most k nodes |
| `Graph.WaveIsLevel` | plnt/control/dag.py:87-123 | round k holds exactly the nodes whose longest dependency chain has k links (closed plans) |
| `Graph.FinishedIffNotBlocked` | plnt/executors/local.py:467-472 | the nodes ever finished are exactly those from which no cycle and no missing dependency is reachable |
| `Graph.AcyclicFinishes` | plnt/control/dag.py:69-91 | a plan without dangling dependencies finishes completely iff it has no cycle |
| `Graph.LeftIsBlocked` | plnt/executors/local.py:467-472 | once nothing is ready, what remains is exactly what is blocked |
| `CycleCheck.CycleSearch.Visit` | plnt/control/dag.py:149-160 | the three-colour visit terminates on any finite graph, reports a cycle only if there is one, and otherwise finishes the node after its dependencies |
| `CycleCheck.HasDependencyCycle` | plnt/control/dag.py:145-161 | true iff some non-empty dependency walk leads from a node back to itself |
| `CycleCheck.OrderedMeansAcyclic` | plnt/control/dag.py:145-161 | a finishing order in which every node follows its dependencies rules out any cycle |
| `Schedulers.Layers` | console/src/lib/transcript.ts:249-261 | any list is drawn completely, every item as early as its dependencies allow, what cannot be placed in one last layer; with distinct ids the layers are the rounds of the plan, in plan order |
| `DagExecutor.ZeroIsReady` | plnt/control/dag.py:86-91 | the remaining specs of in-degree zero are exactly the next round, when no repeated id has dependencies |
| `DagExecutor.UniqueIsExact` | plnt/control/dag.py:74-82 | with distinct ids no dependency is taken off more than once |
| `DagExecutor.ZeroIsEarly` | plnt/control/dag.py:86-91 | a repeated id with dependencies reaches zero, if at all, while one of them is open |
| `DagExecutor.FinishingCounts` | plnt/control/dag.py:116-123 | decrementing the dependents of a finished spec keeps every in-degree equal to its length less its finished entries, taken off once for every copy of the spec |
| `DagExecutor.ReverseEdges` | plnt/control/dag.py:78-82 | the reversed lists name each dependent as often as it names the dependency, once for every copy of it |
| `DagExecutor.KnownOften` | plnt/control/dag.py:135-143 | a collected list keeps every known dependency as often as the spec names it, and nothing else |
| `DagExecutor.RunWave` | plnt/control/dag.py:93-123 | a round runs every ready spec once, handing it for each dependency exactly the output that dependency left |
| `DagExecutor.RunRounds` | plnt/control/dag.py:84-123 | the loop over rounds ends with everything run, in the rounds of the simple rule or with a repeated spec started early, or stuck |
| `DagExecutor.Run` | plnt/control/dag.py:63-131 | refuses exactly the cyclic plans; any other runs completely, in rounds, each output computed from the outputs of all dependencies and of nothing else, iff no repeated id has dependencies |
| `ScheduleAgreement.ThreeSchedulersAgree` | plnt/control/dag.py:69-123 | on an acyclic, closed plan with distinct ids the executor's rounds, the turn's waves and the drawn layers are the same sets, one per chain length, covering the plan |
| `ScheduleAgreement.CollectsWholePlan` | plnt/control/dag.py:135-143 | with no dangling dependency the executor works on the plan as written |
| `ScheduleAgreement.SameGraph` | console/src/lib/transcript.ts:249-261 | the plan as drawn and the plan as run have the same dependency graph |
| `Transcript.ResolveStep` | plnt/tenancy/transcript.py:111-115 | the backward search gives the result to the last unanswered call of that tool, and to none if there is none |
| `Transcript.FoldEvent` | plnt/tenancy/transcript.py:85-151 | one round of the loop with its dict of cards is one step of the fold |
| `Transcript.BuildTranscript` | plnt/tenancy/transcript.py:55-161 | the loop over the log computes the fold of the log into turns |
| `TranscriptLaws.TurnsAppendTurn` | plnt/tenancy/transcript.py:72-84 | a further turn in the log adds one folded turn and leaves the earlier ones alone |
| `TranscriptLaws.AgentsFoldAlone` | plnt/tenancy/transcript.py:103-132 | folding any interleaving of agents' events folds each agent's own events on its own card |
| `TranscriptLaws.Confluence` | plnt/tenancy/transcript.py:60-132 | two logs in which every agent did the same fold to the same turn |
| `TranscriptLaws.NeighboursCommute` | plnt/tenancy/transcript.py:103-132 | neighbouring events of different agents may be swapped |
| `TranscriptLaws.ReplyCloses` | plnt/tenancy/transcript.py:133-139 | a reply is shown with its source; cards still running are done, with the reply as answer unless they had one; other cards stay |
| `TranscriptLaws.ErrorCloses` | plnt/tenancy/transcript.py:140-147 | an error is shown with hint and cause; cards still running have failed, with the error unless they had one; other cards stay |
| `TranscriptLaws.JoinSplits` | plnt/tenancy/transcript.py:48-51 | a command is its words with one space between them |
| `Console.FoldTurns` | console/src/lib/transcript.ts:115-220 | the loop over the log, with its dict of cards, computes the console's fold of the log into turns |
| `Console.FoldTsEvent` | console/src/lib/transcript.ts:140-218 | one round of that loop is one step of the console's fold |
| `Console.TsTurnsAppendTurn` | console/src/lib/transcript.ts:132-142 | a further turn in the log adds one turn to the view and leaves the earlier ones alone |
| `Console.StepsAgreeIff` | console/src/lib/transcript.ts:132-218 | on a complete event the two folds take the same step iff no agent with tokens reports a total of zero |
| `Console.SameCard` | console/src/lib/transcript.ts:166-195 | the same for one card and one of its agent's events |
| `Console.SameFile` | console/src/lib/transcript.ts:98-113 | for plain arguments both languages derive the same file from a tool call |
| `Console.MissingIsEmpty` | console/src/lib/transcript.ts:206-213 | a field an error lacks is empty in the console and missing on the server; with both fields the two end the turn alike |
| `TokenLaws.CardTokens` | plnt/tenancy/transcript.py:116-131 | with honest totals a card shows exactly the tokens of its agent's model results |
| `TokenLaws.CardsHoldAllTokens` | plnt/tenancy/transcript.py:116-131 | the cards, the parent and events without an agent account for every token in the log |
| `TokenLaws.FoldsAgree` | console/src/lib/transcript.ts:115-221 | on complete events with honest totals the console shows the same turn as the server |
| `AgentLoop.RankDrops` | plnt/agent/loop.py:118-228 | every step of an agent uses up a bounded number of steps, whatever the others do in between |
| `AgentLoop.OneEventAStep` | plnt/executors/local.py:546-556 | a step logs at most one event, one of the kinds an agent logs |
| `AgentLaws.BudgetStep` | plnt/executors/local.py:546-556 | every step keeps the tokens of all calls but the last within the budget and identical tool calls within the threshold |
| `AgentLaws.CountedCall` | plnt/control/acc.py:87-98 | the call that makes a signature too frequent is the one that sets the stop reason |
| `AgentLaws.StopStays` | plnt/executors/local.py:603-607 | a step never lifts a stop reason |
| `AgentLaws.AnswersInOrder` | plnt/agent/loop.py:194-223 | in a list that follows the protocol, the k calls of an assistant turn are followed by exactly their k tool messages, in order |
| `AgentLaws.NoStrayToolMessage` | plnt/agent/loop.py:194-223 | and every tool message is one of those |
| `AgentLaws.HistoryFollows` | plnt/tenancy/db.py:168-176 | the prompt, the history of any session and a new request make a list without tool messages that follows the protocol |
| `AgentLaws.SpokenConcat` | plnt/tenancy/db.py:168-176 | the history of a log is the history of any front of it and then that of the rest |
| `AgentLaws.SpokenOne` | plnt/tenancy/db.py:168-176 | a user message and a reply are one message each, anything else is none |
| `AgentLaws.ProtocolStep` | plnt/agent/loop.py:118-223 | every step keeps the message list owing exactly the calls not yet answered |
| `AgentLaws.PromptStep` | plnt/agent/loop.py:118-142 | every list passed to the model follows the protocol, and there are at most max(1, max_steps) of them |
| `AgentLaws.RequiredStep` | plnt/agent/loop.py:166-200 | a run that ends "final" has called the required tool and has its result in the messages |
| `AgentLaws.RepromptStep` | plnt/agent/loop.py:166-184 | there is at most one reprompt, at most one refusal, and a refusal only after the reprompt, as an error |
| `AgentLaws.ExplainStep` | plnt/agent/loop.py:110-228 | a run that does not end "final" carries an error |
| `AgentCards.CardStep` | plnt/tenancy/transcript.py:103-132 | after every step the card lists exactly the calls made, answered except the one running, their files, tokens, and how the run ended |
| `AgentCards.FilesAreTouched` | plnt/tenancy/transcript.py:108-110 | a card lists exactly the files its calls touch, each once |
| `AgentCards.EmittedStep` | plnt/agent/loop.py:118-228 | events carry every field the folds read; agent_finished comes once, at the end, with the tokens spent |
| `AgentRuns.EveryRun` | plnt/agent/loop.py:77-228 | every run, under any stop reasons, keeps the protocol, the guardrail, its accounts and its card |
| `AgentRuns.HeedingRunIsContained` | plnt/executors/local.py:540-556 | every run that sees a stop reason once it is set is contained |
| `AgentRuns.EveryRunEmits` | plnt/executors/local.py:546-556 | all it logs is well formed, and books as usage what it reports as tokens |
| `AgentRuns.DeadRun` | plnt/agent/loop.py:105-106 | an agent's thread dies only of a missing provider or tool, or an unforeseen exception of the model or a tool result |
| `ToolLaws.CallsAreAnswered` | plnt/agent/loop.py:201-223 | in every run, a call to a tool the agent has, with readable arguments, is answered with what that tool run returned; any other is answered as an error, runs nothing and never ends the run |
| `ToolLaws.StepLimit` | plnt/agent/loop.py:118-228 | the model is called at most max(1, max_steps) times, and exactly so often when "max_steps" is reported |
| `ToolLaws.EndsBecause` | plnt/agent/loop.py:118-228 | in every run the model is called in time only; "final" answers what the model said last, an error says what the model failed with unless the guardrail refused, and "wall_budget" comes only after the deadline |
| `ToolLaws.StoppedForReason` | plnt/agent/loop.py:110-119 | at the head of a step or before a tool call an agent is stopped iff the run has a reason that is not empty; log and error give that reason |
| `ToolLaws.StartsFrom` | plnt/executors/local.py:560-571 | an agent starts from the history and one user message: the request, and for every upstream agent its id and what it came to |
| `ToolLaws.EveryPromptRecalls` | plnt/agent/loop.py:118-142 | every list passed to the model begins with the one the agent started from |
| `ToolLaws.RepromptNames` | plnt/agent/loop.py:180-183 | the reprompt is a user message that names the required tool |
| `EmptyKill.EmptyReasonDefeatsTheBudget` | plnt/executors/local.py:238-243 | after a kill with an empty reason, any agent that answers too long without its required tool exceeds its budget before its last call |
| `EmptyKill.ContainedIffReasonGiven` | plnt/executors/local.py:238-243 | all runs of all agents under kills with a reason are contained iff the reason is not empty |
| `RunState.ACCMonitor.Observe` | plnt/control/acc.py:80-98 | a loop is reported iff the signature has been seen the threshold number of times |
| `RunState.State.Stop` | plnt/executors/local.py:603-607 | the first reason is kept |
| `RunState.State.Kill` | plnt/executors/local.py:238-243 | replaces any other reason iff the turn's thread is alive, and says so |
| `RunState.Emit` | plnt/executors/local.py:512-531 | logs one event, books a model_result's two token counts as one usage row of the given key and its tokens once in the run's count, and books nothing else |
| `RunAgent.Emitter.Log` | plnt/executors/local.py:546-556 | emit() of one agent: log, book, then budget and loop detector set the stop reason |
| `RunAgent.CheckKilled` | plnt/agent/loop.py:110-116 | stops the agent iff a reason that is not empty is set, and logs it |
| `RunAgent.RunTool` | plnt/agent/loop.py:201-223 | one call: the tool is run if the agent has it and the arguments can be read, and its result logged and returned to the model; or an error is, and nothing is run |
| `RunAgent.CallTools` | plnt/agent/loop.py:194-223 | the loop over tool calls is the machine's, one call, one result and one message at a time |
| `RunAgent.TakeStep` | plnt/agent/loop.py:118-223 | one round of the step loop, guardrail included, takes the machine from the head of one step to the next |
| `RunAgent.RunMicro` | plnt/executors/local.py:533-601 | whatever other agents log and whoever stops the run in between, the nested loops log, book and return exactly what a run of the machine does, heeding the shared stop reason |
| `AgentPool.PoolMoves` | plnt/executors/local.py:475-485 | a step of one agent in the pool extends that agent's run and no other's |
| `AgentPool.EmitAll` | plnt/executors/local.py:512-531 | a step's model_result is booked once, to the agent's bundle, or to its role if it has none |
| `AgentPool.RunPool` | plnt/executors/local.py:473-485 | whatever the interleaving and the kills, the wave ends, each agent's log is a run of its own machine, totals stay honest and books stay balanced |
| `PlanParser.Normalise` | plnt/agent/parent.py:202-236 | at most four agents; dependencies name planned agents only, never the agent itself, and lose nothing else |
| `PlanParser.ListedKeeps` | plnt/agent/parent.py:205-231 | the plan is made of the first four entries that may run, in order, each as written and under its own id, or that id with its place when it is taken |
| `PlanParser.DigitsRead` | plnt/agent/parent.py:219-220 | the number in a new id reads as the place of the entry |
| `PlanParser.CleanConcat` | plnt/agent/parent.py:233-236 | cleaning dependencies keeps their order and drops entries one by one |
| `PlanParser.UniqueIffNoClash` | plnt/agent/parent.py:218-221 | the ids are unique iff no renamed id is already in use |
| `PlanParser.IdsCanClash` | plnt/agent/parent.py:218-221 | the ids `a-3`, `a`, `a` clash |
| `PlanParser.StuckIffCyclic` | plnt/agent/parent.py:233-236 | a normalised plan holds somebody up iff it has a cycle |
| `Plans.SpecDictIsPlan` | plnt/executors/local.py:453-460 | the dict of specs has unique ids and, for each, the dependencies of its last plan |
| `Plans.SpecsFollowPlan` | plnt/executors/local.py:453-460 | with distinct ids the dict is the plan in its order, each agent its entry's spec, id and dependencies |
| `Plans.ReadyIsWave` | plnt/executors/local.py:469 | after k waves the ready agents are exactly round k of the plan |
| `Plans.ReadyInOrder` | plnt/executors/local.py:469 | the ready agents of a round come in plan order |
| `TurnCards.SpawningOpensCards` | plnt/executors/local.py:461-463 | announcing a plan opens one fresh card for each agent, in order |
| `TurnCards.FreshSays` | plnt/tenancy/transcript.py:90-97 | a new card names its agent, role, bundle, request, dependencies and tools, and nothing has happened on it |
| `TurnCards.CardsAfterPool` | plnt/tenancy/transcript.py:103-132 | a wave changes exactly the cards of its agents, each to show its run |
| `TurnWaves.Collect` | plnt/executors/local.py:483-485 | results are taken in order; the first thread that died ends the turn |
| `TurnWaves.HandedOnce` | plnt/executors/local.py:475-482 | an agent is handed exactly one note for each agent it depends on: its answer, or else its error |
| `TurnWaves.WaveOver` | plnt/executors/local.py:473-485 | what holds between two waves: honest log, cards, own runs, notes handed over, containment, dependencies finished first |
| `TurnWaves.RunWaves` | plnt/executors/local.py:465-485 | the loop over waves terminates; the waves are the rounds of the plan, results come in plan order within each, and nothing else has run |
| `TurnWaves.LoopOver` | plnt/executors/local.py:467-472 | it ends with everything run and nothing blocked, or stuck with exactly the blocked agents left, or stopped |
| `TurnEnds.SkipsEnd` | plnt/executors/local.py:486-488 | an agent that was not run ends as a failed card with the reason, no steps and no tokens |
| `TurnEnds.FinishedOnceNow` | plnt/executors/local.py:486-488 | every agent of the plan has exactly one agent_finished in the log |
| `TurnEnds.QuietTold` | plnt/executors/local.py:490-510 | replies, errors and run_finished change nothing about the agents' cards |
| `TurnEnds.CloseTurn` | plnt/tenancy/transcript.py:133-151 | a reply or an error followed by run_finished settles any turn: it has an outcome, nobody runs, every tool call has its result |
| `TurnEnds.PlanOver` | plnt/executors/local.py:453-488 | once the plan is over, log and cards tell for every agent how it ran or why it did not |
| `TurnEnds.DependentsAreTold` | plnt/executors/local.py:560-566 | in a plan that was run, every prompt of an agent holds, for each agent it depends on, that agent's id and answer, or its error |
| `Executor.Decide` | plnt/executors/local.py:425-446 | the decision, or the single specialist when the parent gave no usable plan, or neither; and exactly the call, tokens and decision in the log |
| `Executor.HeadSays` | plnt/executors/local.py:421-446 | a parent turn opens with run_started, the call, its tokens if it answered, and the decision that is acted on, with the plan entry for entry |
| `Executor.FallsBack` | plnt/executors/local.py:430-442 | a parent without a usable decision is overruled iff it is an error of the parent and exactly one specialist is installed, which is then run |
| `Executor.RunPlan` | plnt/executors/local.py:453-488 | announces, runs the waves, reports a stuck plan and, with the stop reason or "not run", the skipped agents; fails only if some agent's thread may die |
| `Executor.Merge` | plnt/executors/local.py:490-510 | the outcome is "ok" iff some agent ended "final"; then the last entry is the only agent's answer, or the parent's merge of several; or else it is the error of the first agent, or that none ran |
| `Executor.JoinedHolds` | plnt/agent/parent.py:287-293 | what stands in for an empty merge holds the answer or the error of every agent, in order |
| `Executor.TurnParent` | plnt/executors/local.py:406-510 | a parent turn ends in an exception only for a listed cause; otherwise it is the parent's own reply, or it has run its plan and ends on the last word that Merge states |
| `SoloTurn.TurnAgent` | plnt/executors/local.py:390-404 | a single agent's turn logs run_started, a run of the agent, contained, and the reply or error it came to; or what it raised |
| `SoloTurn.SoloEnds` | plnt/executors/local.py:390-404 | its turn shows how the run ended: the answer as the reply on a card that is done, or the error on a card that failed or was killed, with the tokens spent and the calls made |
| `WholeTurn.TakeTurn` | plnt/executors/local.py:349-388 | every turn adds one settled turn to the transcript; run_finished reports what was booked, which the cards and the parent account for; the console shows the same; a plan ran exactly the agents it should, in order, each reported once; the outcome is "ok" iff some agent answered, and the last word is theirs, as Merge states |
| `WholeTurn.LastWordIsShown` | plnt/executors/local.py:377-379 | the reply or the error that ends the log is what the turn shows, with the outcome of run_finished and the user's message |
| `WholeTurn.RaisedIsShown` | plnt/executors/local.py:369-376 | an exception is shown as the turn's error, with its hint, as "error" or, if nothing of the executor's raised it, as "crash" |
| `WholeTurn.Session` | plnt/executors/local.py:349-388 | any session from its start is one settled turn after the other, and with plain tool arguments both folds show the same turns |
| `WholeTurn.StuckOnlyOnCycles` | plnt/executors/local.py:467-472 | on a normalised plan that was not stopped, "cannot be resolved" is reported iff the plan has a cycle |
| `Bookings.BookingsStore.UpsertConfirmed` | examples/booking/workflows/bookings_store.py:72-99 | inserts a confirmed row for a new key, and leaves an existing one alone, cancelled or not |
| `Bookings.BookingsStore.Cancel` | examples/booking/workflows/bookings_store.py:103-124 | cancels a confirmed row, and says so; anything else is left as it is |
| `Bookings.BookingsStore.CountByStatus` | examples/booking/workflows/bookings_store.py:172-177 | counts the rows of each status that occurs |
| `Bookings.UpsertedRow` | examples/booking/workflows/bookings_store.py:86-99 | a create keeps one row per key and changes no other key's row |
| `Bookings.CancelChangesOne` | examples/booking/workflows/bookings_store.py:110-124 | a cancel changes at most the row it names, only from confirmed to cancelled |
| `Bookings.Feed.Append` | examples/booking/tenancy/notifications.py:41-76 | at most one entry per booking and kind; reports whether it was created |
| `Bookings.EntriesByTime` | examples/booking/tenancy/notifications.py:57-59 | entries of one kind without a booking are one entry iff written at the same time; with a booking the time does not matter |
| `Bookings.Feed.MarkRead` | examples/booking/tenancy/notifications.py:113-130 | marks exactly the named entries; returns by how much the unread count drops |
| `Bookings.MarkedAt` | examples/booking/tenancy/notifications.py:113-130 | marking changes the named entries and no others |
| `Bookings.Feed.UnreadCount` | examples/booking/tenancy/notifications.py:109-110 | counts the unread entries |
| `SagaKeys.KeysAreUnique` | examples/booking/workflows/saga_booking.py:56-58 | without colons in session and business, equal keys mean the same booking |
| `SagaKeys.ColonCollides` | examples/booking/workflows/saga_booking.py:56-58 | from any booking with a colon in a part, another one with the same key |
| `SagaKeys.KeyIsSharedIff` | examples/booking/workflows/saga_booking.py:56-58 | another booking has the same key iff there is a colon in session, business or slot; one of the two then has it in session or business |
| `SagaKeys.NotificationsAreUnique` | examples/booking/tenancy/notifications.py:36-38 | feed ids are equal iff booking and kind are |
| `Delivery.Landing` | examples/booking/workflows/stub_activities.py:229-266 | what one landing of any attempt does to any row: a create makes a missing one, a cancel cancels one, nothing brings one back |
| `Delivery.RowIffCreated` | examples/booking/workflows/bookings_store.py:72-99 | after any landings a row is there iff it was or a create for its key landed |
| `Delivery.CancelledIff` | examples/booking/workflows/bookings_store.py:103-124 | and it is cancelled iff it was or a cancel for its key found it |
| `Delivery.Activities.Execute` | examples/booking/workflows/saga_booking.py:113-137 | after any pattern of lost, late and repeated attempts, an acknowledged request has landed, and nothing else of the sender's has |
| `Saga.RunBookingSaga` | examples/booking/workflows/saga_booking.py:107-165 | confirmed: one row, notified, confirmed iff it was not cancelled and no cancel found it, and so for good if none was in flight; compensated: one row, cancelled |
| `Saga.BookedForInput` | examples/booking/workflows/saga_booking.py:107-125 | a row a saga is the first to make is for its business, its slot and its contact |
| `Saga.CompensatedForReason` | examples/booking/workflows/saga_booking.py:138-155 | a row that a saga was the only one to cancel gives the compensation as the reason |
| `Saga.InputsShareKey` | examples/booking/workflows/saga_booking.py:56-58 | without colons in session and business, two inputs share a key iff session, business and slot are the same |
| `Saga.SagaAndAfter` | examples/booking/workflows/saga_booking.py:107-165 | and nothing that lands later changes that |
| `Saga.ConfirmedHoldsIff` | examples/booking/workflows/saga_booking.py:107-165 | every run that reports "confirmed" leaves a confirmed row iff the row was not cancelled, no cancel was in flight, and the key is nobody else's |
| `Saga.LateCancelUndoes` | examples/booking/workflows/saga_booking.py:138-155 | a saga that failed with its cancel unheard of, and a later one for the key that reports "confirmed" and is then undone |
| `Saga.RunSagas` | examples/booking/workflows/saga_booking.py:107-165 | any number of sagas on any keys, with anything landing in between, land nothing but what they and others sent |
| `Saga.SagasLeave` | examples/booking/workflows/bookings_store.py:72-124 | for a key new to the ledger: cancelled if some saga reported "compensated", confirmed if some reported "confirmed" and none sent a cancel, and as somebody asked |
| `Saga.SettleAll` | examples/booking/workflows/saga_booking.py:107-165 | the same for every key of a new ledger |
| `Conversation.PickSlot` | examples/booking/workflows/session.py:538-553 | the slot is the first offered one that the requested time begins with or that begins with it, and the first of all when there is none |
| `Conversation.NoSecondBooking` | examples/booking/workflows/session.py:312-346 | between a confirmed saga and the next one started there is a new offer |
| `Conversation.ConversationWorkflow.UserMessage` | examples/booking/workflows/session.py:95-104 | a message is recorded and queued unless the conversation is closed |
| `Conversation.ConversationWorkflow.HandleConfirm` | examples/booking/workflows/session.py:312-346 | without an open offer nothing happens; with one, exactly one saga is run, for its business and the slot picked for the text; the offer is cleared iff it reports "confirmed", and the outcome is shown |
| `Conversation.ConversationWorkflow.Classify` | examples/booking/workflows/session.py:178-197 | the intent is what the classifier says, except that naming a time while an offer is open confirms |
| `Conversation.ConversationWorkflow.ByIntent` | examples/booking/workflows/session.py:202-216 | a confirmation runs the saga as HandleConfirm states; no other intent runs one; a cancel leaves no offer; a question leaves the offer alone; the agent asked is the one the intent calls for |
| `Conversation.ToldAndBooked` | examples/booking/workflows/session.py:312-346 | how the ledger stands for a booking the conversation was told about |
| `Conversation.ReconfirmedStaysCancelled` | examples/booking/workflows/session.py:345-346 | a booking once compensated stays cancelled, whatever the user is told after confirming again |
| `Conversation.CompensatedCanBeReconfirmed` | examples/booking/workflows/session.py:345-346 | and that happens: the offer stays open, and a second saga for its slot reports "confirmed" on the cancelled row |
| `Conversation.ConversationWorkflow.HandleMessage` | examples/booking/workflows/session.py:154-219 | a handled message gets exactly one say; unless an earlier activity raised, it runs the saga for the picked slot iff it was classified "confirm" or names a time while an offer is open, a "cancel" drops the offer, and the message and its reply are remembered among the last twelve |
| `Conversation.ConversationWorkflow.Run` | examples/booking/workflows/session.py:130-150 | messages are handled in the order received, and none once the conversation is closed; those handled, the one that raised and those queued are all there were |
| `Outbound.ForwardReplies` | examples/booking/channels/web_ws.py:154-176 | what was forwarded is always a prefix of the replies, and everything up to the last successful query |
| `Outbound.SinceIsSuffix` | examples/booking/workflows/session.py:110-116 | replies after a number are the replies behind it |
| `SkillCache.TenantBundleDir` | examples/booking/microagents/loader.py:95-108 | the chosen bundle is enabled, for the role and has a readable version, above which no other such bundle has one and which none listed earlier has; none is chosen iff there is none |
| `SkillCache.NewerIff` | examples/booking/microagents/loader.py:106 | a version is newer iff it agrees with the other up to some place and is higher there, or goes on where the other ends |
| `SkillCache.UncachedIsFresh` | examples/booking/microagents/loader.py:111-155 | an uncached read returns the two files of the chosen bundle, nothing if one is missing, and the shipped skill when no bundle is chosen |
| `SkillCache.Loader.TouchReload` | examples/booking/surface/admin_v2.py:331-332 | a writer's touch keeps every stale entry announced |
| `SkillCache.Loader.ReadSkill` | examples/booking/microagents/loader.py:145-153 | a read in several steps is what one undisturbed read returns, or a change is still announced |
| `SkillCache.Loader.LoadSkill` | examples/booking/microagents/loader.py:123-155 | a load with no writer under way returns the chosen bundle as it is on disk; always, a stale entry is announced by the marker or a writer that will touch it |
| `EventLog.AppendKeepsNumbers` | plnt/tenancy/db.py:126-139 | whoever appends next, every session is numbered 1 to n |
| `EventLog.TenantDb.EventsSince` | plnt/tenancy/db.py:141-158 | a page is the next stretch of the session's log, as long as the limit allows |
| `EventLog.Stream` | plnt/server/app.py:397-407 | what a stream sends is the log from its start on, gap-free, catching up a page a poll; with until_idle it ends behind the first run_finished |
| `EventLog.Follow` | plnt/server/app.py:384-409 | a client that reconnects with its last number always holds exactly a prefix of the log |
| `RateLimiter.Limiter.Allow` | plnt/server/playground.py:139-148 | decides and prunes as the history of calls says, for any limits, windows and clock readings |
| `RateLimiter.AcceptedSnoc` | plnt/server/playground.py:139-148 | what counts against a key are exactly its calls that were let through |
| `RateLimiter.LetsInIff` | plnt/server/playground.py:139-148 | with one limit and window and a clock that does not go back, a call is let through iff fewer than the limit were in the window that ends with it |
| `RateLimiter.NeverTooMany` | plnt/server/playground.py:139-148 | and every closed interval as long as the window holds at most the limit of accepted hits |
| `Chunks.ChunkText` | examples/booking/services/doc_chunk.py:63-76 | 1 + ceil((n - 384) / 346) chunks, all but the last of 384 words, each starting 346 words after the one before, which rejoined are the text |
| `Chunks.CountOf` | examples/booking/services/doc_chunk.py:63-76 | no chunk of no words, one of up to 384, and then one more for every 346 words or part of them |

## Left out

- RunState.Emit: logging an event, booking its usage and adding its tokens is one atomic step; `state.tokens +=` from several threads is not modelled as a race.
- RunState.State.Kill: whether the thread is alive is an input; sessions that have no run are not modelled.
- AgentPool.RunPool: the limit on parallel workers only removes interleavings, so it is not modelled.
- AgentLoop.RankDrops: the machine's `World` answers with functions of the step; real models and tools are any such functions.
- RunAgent.RunMicro: the `except ModelError` around the loop is not modelled, because the loop already turns model errors into results.
- Executor.RunPlan: the operator cannot change the stop reason while the skipped agents are being reported.
- Executor.JoinedHolds: the roles, blank lines and the word "failed" that the joined fallback puts between answers and errors are not modelled.
- TurnCards.CardsAfterPool: an agent named "parent" (or with an empty name) has its events dropped by the fold, so what is said of cards is said of all other names; closure and the books hold for every name.
- Console.SameFile: arguments that are not strings (or, for `argv`, lists of strings) print differently in the two languages; agreement is for plain arguments.
- TokenLaws.FoldsAgree: the console's object lookup finds inherited properties for ids such as "constructor", and clips text by UTF-16 units; strings here are sequences of characters and lookups find only what was stored.
- DagExecutor.Run: spawns that raise are left out, because the code retries them forever; the check of budgets before a spawn only logs, so it is too.
- Saga.RunBookingSaga: what a cancel that keeps failing leaves behind; the code catches the wrong exception there, and both exits are modelled without a claim.
- Saga.RunBookingSaga: "compensated" does not rule out a booking_confirmed entry, because the notification may have landed without an acknowledgement.
- Saga.SagasLeave: sagas for one key run one after the other; two users of a tenant with the same session id count as somebody else working on the key.
- Conversation.ConversationWorkflow.HandleMessage: location markers, ordinals, classification and synthesis are arbitrary; `_last_candidates` and the business profile only shape prompts.
- Conversation.ConversationWorkflow.Run: any number of rounds, not that the next message ever arrives.
- SkillCache.Loader.LoadSkill: one loader at a time, and writers that do not crash between a change and their touch.
- RateLimiter.LetsInIff: nothing is said of windows that change, or of clock readings that two threads take in one order and use in the other.
- PlanParser.Normalise: JSON, kebab-casing and the choice of role and bundle are done before it; an empty plan is an error of the parent.
- Timestamps, wall-clock seconds, model profiles, prices and latencies in events; JSON and hashes, which are kept as the text they are taken of; texts written for people, which are shortened.
- ACC's spawn depth and ping-pong detection, which the executor never feeds.
- `LocalExecutor.send` and its lock: one turn per session at a time.
- The multi-service saga, whose order row and items are written separately; `orders_store` is not part of this model.
- HTTP, authentication, sandboxes, workspaces, the user interfaces, retrieval and installers.
