# CodeValdAI: agent runs, verified

CodeValdAI executes *agent runs*: it asks a language model to work on a task, streams the answer into
a store, publishes the actions the model asked for, and, when a session runs out of its budget, hands
the work to a successor run that replays the whole chain to the model. Rollbacks, restarts and file
confirmations act on the same stored runs. This project models that behaviour and proves what it
promises.

## How the model is laid out

| file | what it models |
|---|---|
| `protocol.dfy`, `chains.dfy`, `runs.dfy` | the life of runs as a state machine over single store writes: executions, rollbacks and the boot sweep interleave in any order, a crash may fall between any two writes; the inductive invariant, the shape of chains, what stays frozen, what a rollback makes final |
| `manager.dfy` | the manager as a class over its store (runs, their fields and inputs, agents, providers, edges, events, messages sent): catalogue, intake, execution with its real recursion, rollback, boot sweep, file confirmations. Every write to a run is one step of the protocol and the schedule only grows, so what holds for all schedules and their continuations holds for the class over any calls |
| `outcomes.dfy`, `events.dfy`, `history.dfy`, `planner.dfy`, `budget.dfy`, `edges.dfy` | one session's verdict and stored record, the event grammar, history replay, the fallback plan, session limits with token estimate and flush counters, relationship edges |
| `rollback.dfy` | a rollback call on stored values: partition, frame, retry |
| `dispatch.dfy`, `debrief.dfy` | publishing the model's actions with in-place payload edits, the debrief of them, and the string edit that later confirms files |
| `stream.dfy`, `think.dfy`, `actions.dfy`, `jsonarray.dfy`, `intake.dfy`, `text.dfy` | the text pipeline: printing reasoning and content as one stream and reading it back |
| `listing.dfy` | the budgeted recursive file listing |

Main results, each over all inputs, runs or schedules:

* **Chains keep their shape under every interleaving** (`Protocol.InvAlways`, `Chains.ReachableChains`):
  segment numbers are 1..k without repeats, all but the last segment are yielded or cancelled, task,
  workflow, instructions and session overrides are shared.
* **One execution with all its successors** (`Manager.Manager.ExecuteRunStreaming`): it terminates by
  sessions left; a run of segment n starts at most max - n further segments and makes at most one model
  call more than it has sessions; a session yields exactly on a deadline or a cancellation with sessions
  left (`Manager.Manager.YieldsAt`); each call replays exactly the earlier segments; every event carries
  what is stored: the starts and yields, the actions of the last answer, the plan of the planning call,
  or the stored error; the ending agrees with the last stored record and with whether an error is
  returned; no other run changes. It is refused exactly when the run is missing, not startable, or
  unresolvable.
* **Rollback** (`Rollback.RetryConverges`, `Chains.RollbackIsFinal`): an interrupted rollback that is
  repeated equals one that was not, with one event for each transitioned run that agrees with what is
  stored (`Rollback.EventsFitOutcome`); once a workflow is
  withdrawn, every continuation leaves its chains alone if and only if they are quiet, that is, nothing
  in flight will write a status or add a segment.
* **Stream and parser undo each other** (`Stream.StreamReadsBack`, `Actions.StreamedBlockParses`).
* **The debrief edit refines a structured update** exactly when the text is clear, for any lines and any
  names (`Debrief.EditIsUpdate`, `Debrief.EditIsUpdateByLine`), and so always for plain names
  (`Debrief.EditRefinesUpdate`, `Debrief.DeliveriesRefine`).

Properties found to fail, each with its exact condition or a schedule:

* Stripping think blocks in a loop is not the same as dropping the inside pieces of one scan: removing a
  block can join two halves of a new opening tag. `Think.StripIsOutside` gives the condition,
  `Think.GluedExample` a text.
* A block cut directly after its opening fence is treated as no block (trimming eats the newline of the
  fence), so neither the error nor the in-think fallback of actions.go:63-69 applies:
  `Actions.CutAtFenceIsNoBlock`. With anything visible after the fence one of them does:
  `Actions.CutBlockFallsBack`, `Actions.CutBlockIsMalformed`.
* A cancelled run whose model call is still in flight is overwritten, the open issue recorded in
  FEAT-20260602-004: `Chains.CancelledIsOverwritten`; `Chains.WithdrawnHolds` and
  `Chains.ThreatenedCanMove` together give the exact condition for one run.
* A rollback that lists the workflow while a run is frozen for its successor misses the successor, which
  stays active in the rolled-back workflow: `Chains.SuccessorEscapes`. The exact condition is
  `Chains.Quiet`: by `Chains.QuietStep` quiet chains stay as they are under every step, and by
  `Chains.UnquietCanMove` some enabled step disturbs any others.
* The confirmation edit can change a line that is no file-write, when a topic spells the marker:
  `Debrief.TickedTopicIsEdited`. For any names the edit is right if and only if a search from the left
  finds the marker first at the lines confirmed (`Debrief.EditIsUpdate`); for names without line breaks,
  if and only if no other line spells it (`Debrief.EditIsUpdateByLine`).

Where comments and code disagree, the code is modelled. `DeleteAgent` (ai.go:490-511) is documented to
refuse when an active run references the agent, and refuses when any run at all is active.
`loadChainHistory` (chain.go:10-12) speaks of yielded runs, and returns cancelled ones of the chain as well.
The session-limit comment (execute.go:16-22) allows zero seconds as no limit, and zero resolves to 300.

Ids are natural numbers, with 0 as the empty chain id. Text is a sequence of code points (all search
strings are ASCII); bytes are counted by their UTF-8 width. The model is an arbitrary function from the
number of a call to chunks, token counts and an error; the wording of the user's message is an arbitrary
function of instructions, stored fields and inputs, that of the planner's message one of instructions and
partial output. Timestamps are parameters. Store writes are assumed
to succeed in an execution; a rollback and the boot sweep take the set of runs whose store access fails.
In the protocol an execution may also be given up at any point. A run has at most one executor, and new
chain ids are fresh. Methods of the class run one after the other; what holds when their writes
interleave, with crashes in between, is stated of the protocol. Agents, providers and edges are outside
the protocol, so referential integrity is a statement about operations taken as atomic.

## Model

| member | source | states |
|---|---|---|
| Manager.Manager.ExecuteRunStreaming | execute.go:75-382 | refused exactly for a missing, non-startable or unresolvable run, then nothing is published or sent and at most inputs and pending_execution are written; otherwise inputs stored on a first session, at most 1 + (max - segment) sessions, each begun by its event and replaying its chain; a session yields exactly when its call ran into a deadline or was cancelled, more than one session is allowed and this is not the last; yielded ones are frozen with their partial output, told of with chain, segment and tokens, and followed by their successor; a finished one tells of exactly the actions of its last answer, a decomposed one of the plan of the planning call, a failed one of the stored error; ending, record and error agree, no other run changed, links kept |
| Manager.Manager.RunStartable | execute.go:89-124 | a startable run is refused only for want of agent or provider, and has been moved to pending_execution by then |
| Manager.Manager.RunSession | execute.go:121-246 | everything from the running session to the end of its last successor, for every reply the model may give |
| Manager.Manager.Conclude | execute.go:234-304 | yield exactly while a deadline or cancellation arrives with sessions left; otherwise the record, the events and the ending that the answer, the spent budget or the kind of error calls for |
| Manager.Manager.YieldsExactly | execute.go:234-246 | an execution goes past its first session if and only if that session's call ended in a deadline or a cancellation, more than one session is allowed and its segment is below the limit |
| Manager.Manager.YieldsAt | execute.go:234-246 | so for every session of an execution, and exactly those sessions are stored as yielded |
| Manager.Manager.YieldRun | execute.go:387-484 | the yielded session joined with all that follow it; recursion ends because one session less is left |
| Manager.Manager.SpawnSuccessor | execute.go:395-481 | the run is frozen with partial output and tokens in its chain (a fresh one on the first yield), the successor inherits lineage and overrides with the next segment number, one agent edge and one continues_from edge are added, one task.yielded |
| Manager.Manager.HandOver | execute.go:431-483 | the successor is startable, resolves to the same agent and limits, and has exactly one session less left |
| Manager.Manager.EndSession | execute.go:234-382 | a session that does not yield is finished exactly on an answer with actions, decomposed exactly when a task's spent budget meets a plan with items, and failed otherwise, with the record and the event tail that belong to it |
| Manager.Manager.FinishRun | execute.go:306-382 | completed first, then either dispatched and closed with the completion events carrying the real subtask flag and paths, an empty list of actions included, or failed after all for want of an actions block |
| Manager.Manager.EmptyListIsNoOp | actions.go:88-97 | an answer whose actions block holds an empty list ends its session as completed, with the two completion events and none on the model's behalf |
| Manager.Manager.FailRun | execute.go:274-304 | error kind, output and both failure events of a failed call |
| Manager.Manager.ExhaustRun | execute.go:243-272 | with the budget spent the run completes as decomposed exactly when it has a task and the one planning call yields a plan with items; otherwise it fails with the partial output kept |
| Manager.Manager.AutoDecompose | planner.go:69-133 | one more model call, whose result is the plan its answer determines |
| Manager.Manager.OnePlan | planner.go:69-133 | an answer determines at most one plan |
| Manager.Manager.CompleteAsDecomposed | planner.go:138-171 | completed with the partial output, todo.created and both completion events in order |
| Manager.Manager.StreamReply | execute.go:199-224 | the output is all chunks in order, and what is stored is the output at the last multiple of fifty chunks |
| Manager.Manager.LoadConversation | execute.go:157-166 | a session of a reachable store sends exactly its chain's history and the user's message |
| Manager.Manager.Begin | execute.go:130-186 | the user's message made of instructions, stored fields and inputs; running written and told of after the conversation has been fixed, which still matches the store |
| Manager.Manager.AcceptRun | execute.go:92-119 | inputs and the first write only for a first session, in that order, every link kept |
| Manager.Manager.Resolve | execute.go:634-664 | succeeds exactly when both first edges lead somewhere, and finds that agent |
| Manager.Manager.LinkedResolves | execute.go:634-664 | under referential integrity resolving an active run never fails |
| Manager.Manager.DispatchRun | execute.go:506-596 | every action published once in order, the debrief and the non-empty list of paths stored afterwards |
| Manager.Manager.IntakeRun | intake.go:43-160 | accepted exactly when instructions, agent, provider, call and field list are good, with the error of the first that is not; then a fresh pending run of segment 1, one edge to its agent, and its fields as asked, numbered in order |
| Manager.Manager.StoreFields | intake.go:128-158 | one stored field and one edge for each field asked for, in order; other runs' fields untouched |
| Manager.Manager.LoadFields | execute.go:132-144 | the fields that intake has stored, in order, missing ones skipped |
| Manager.Manager.CreateProvider | ai.go:178-214 | accepted exactly with name, key and a known type; then one new provider, links kept |
| Manager.Manager.CreateAgent | ai.go:301-351 | exactly when fields and provider are there: agent, one provider edge, one event; otherwise nothing changes |
| Manager.Manager.UpdateAgent | ai.go:385-471 | each given field replaces its stored one and each other stays, even when the new provider is missing; a switch leaves exactly one provider edge and touches no other agent's |
| Manager.Manager.DeleteProvider | ai.go:278-294 | exactly when no agent's edge points to it |
| Manager.Manager.DeleteAgent | ai.go:490-511 | exactly when no run at all is active |
| Manager.SwitchKeepsLinks | ai.go:437-464 | replacing one agent's provider edge keeps every agent linked |
| Manager.UnusedProvider | ai.go:278-294 | deleting a provider nobody points to keeps every agent linked |
| Manager.Manager.ListWorkflowRuns | ai.go:526-551 | exactly the runs of the workflow, each once |
| Manager.Manager.RollbackByWorkflowRun | workflow_run_rollback.go:24-84 | a call as `Rollback.RollsBack` describes, stopped only at a run whose store access fails; a complete one closes the workflow; links kept |
| Manager.Manager.RollOne | workflow_run_rollback.go:43-113 | one run patched as its status before asks for, and told of with that status, the reason and the outcome stored |
| Manager.Manager.ReconcileRunningRuns | internal/recovery/recovery.go:34-76 | after a crash at any moment exactly the running runs whose store access works are failed as interrupted, one run.failed each, nothing else changes, and nothing is in flight |
| Manager.Manager.HandleFileWritten | internal/server/event_receiver.go:100-136 | only the debrief of the named run is edited, at any moment, without disturbing what is in flight |
| Manager.ReplaysPersist | execute.go:157-166 | a conversation once sent stays what the chain has stored |
| Manager.Manager.FrozenOutputStays | execute.go:410-419 | over any calls a passed segment keeps its partial output |
| Manager.Manager.WithdrawnStays | workflow_run_rollback.go:37-81 | over any calls a closed workflow's runs keep their status and its chains get no new segment |
| Manager.Manager.YieldRan | execute.go:421-484 | a yielded session in front of a correct rest is a correct execution |
| Outcomes.ReportSettles | execute.go:569-596 | once every file a run asked for is confirmed, the debrief of its actions shows no file-write left dispatched |
| Protocol.StepKeepsInv | execute.go:89-484 | each single store write of any process keeps the invariant |
| Protocol.InvAlways | execute.go:89-484 | the invariant holds after every schedule of executions, intakes, rollbacks, crashes and sweeps |
| Protocol.KeepsOwn | execute.go:168-362 | an executor's own status writes keep the invariant, with any rollback in between |
| Protocol.KeepsBackFill | execute.go:395-408 | giving a lone run its chain keeps every chain in shape |
| Protocol.KeepsSpawn | execute.go:442-461 | adding the successor keeps segment numbers without gap or repeat |
| Protocol.SpawnKeepsKin | execute.go:442-457 | no other segment of the chain has the successor's number, and lineage is shared |
| Protocol.KeepsListing | workflow_run_rollback.go:29-46 | what a rollback's listing decides stays admissible although the runs go on |
| Protocol.KeepsRollbackWrite | workflow_run_rollback.go:49-66 | a rollback's write, however late, keeps the invariant |
| Protocol.KeepsSweep | internal/recovery/recovery.go:56-74 | failing an interrupted run keeps the invariant |
| Protocol.KeepsFileWritten | internal/server/event_receiver.go:131-135 | a confirmation at any moment keeps the invariant |
| Protocol.KeepsIntake | intake.go:100-115 | a new run disturbs no chain |
| Chains.ChainsAreShaped | execute.go:395-457 | the invariant means: a chain of k runs has segments 1..k once each, all but the last passed on, one lineage |
| Chains.ReachableChains | execute.go:387-484 | so in every reachable store, and a run without chain is segment 1 |
| Chains.PlacesStay | execute.go:395-457 | no step moves a run within its chain |
| Chains.PartialFrozen | execute.go:410-419 | once a successor exists a segment's partial output never changes, in any continuation |
| Chains.StatusesAreKnown | workflow_run_rollback.go:74-80 | no reachable run has an unknown status |
| Chains.WithdrawnHolds | workflow_run_rollback.go:37-81 | a withdrawn run keeps its status as long as nothing in flight threatens it |
| Chains.ThreatenedCanMove | execute.go:316-326 | and only then: every threatened one can lose it by an enabled step |
| Chains.QuietStep | execute.go:89-91 | quiet chains keep status, place and membership under every step, and stay quiet |
| Chains.UnquietCanMove | execute.go:421-457 | withdrawn chains that are not quiet can be disturbed by an enabled step: a status write, or the successor of a frozen run |
| Chains.QuietIsFinal | workflow_run_rollback.go:37-81 | for any whole chains of withdrawn runs, quiet means undisturbed by every continuation, in both directions |
| Chains.RollbackIsFinal | workflow_run_rollback.go:37-81 | once every run of a workflow is withdrawn, every continuation leaves their statuses and chains alone if and only if the workflow is closed: no pending write threatens a status and no executor but one about to leave is at work on them |
| Chains.CancelledIsOverwritten | execute.go:316-326 | a schedule that turns a cancelled run into a completed one |
| Chains.SuccessorEscapes | execute.go:410-457 | a schedule on which a complete rollback leaves an active successor in its workflow |
| History.LoadChainHistory | chain.go:13-33 | the earlier runs of the chain, each as listed, by segment number |
| History.BuildChainConversation | chain.go:39-51 | two turns for each run, instructions then partial output |
| History.BuildMessages | dispatch.go:367-374 | the history followed by the user's message |
| History.HistoryIsDense | chain.go:13-33 | sorted by number the earlier runs are segments 1, 2, ... in their places |
| History.Converse | execute.go:157-166 | 2(n-1)+1 alternating messages ending with the user, the i-th answer being segment i's partial output, for any listing order |
| History.ReplayIsUnique | chain.go:13-51 | there is only one such conversation, so the store's order is invisible |
| Events.LifecycleGrammar | execute.go:181-382 | the lifecycle events of an execution are (started yielded)* started and one of the three endings |
| Events.ModelActionsComeLast | execute.go:313-380 | the model's own events come only between the last start and a regular completion |
| Dispatch.DispatchActions | execute.go:506-564 | each action published once in order as promised to observers; the subtask flag exactly when work is handed on; emitted paths are the file-write lines' paths; the debrief has a heading and one line for each action with the words the model put into its payload, despite the edits in place |
| Dispatch.PublishOne | execute.go:528-561 | one turn of the loop: the payload's own words in the debrief survive the edit |
| Dispatch.WriteRunDebrief | execute.go:569-596 | the text is the rendering of the action lines |
| Dispatch.DebriefTells | execute.go:569-596 | the debrief is its heading and one line for each action in order, spelled out with the payload's path and branch, name and repository, or the topic alone |
| Dispatch.WritesAreAsked | execute.go:548-556 | the emitted writes are the non-empty paths of the file-write actions, in order |
| Dispatch.HandsOnTopics | execute.go:528-546 | work is handed on exactly when some action is a todo.created, a split request or a decompose request |
| Dispatch.TodosCarryOwnIds | execute.go:601-620 | every decodable todo.created of a task run carries the run's own task, run, agent and workflow ids |
| Planner.FillPlan | planner.go:109-132 | the first decodable todo.created with only its blanks filled, or none |
| Planner.PlanIsUnique | planner.go:109-132 | there is only one such plan |
| Rollback.OneFurther | workflow_run_rollback.go:37-81 | one run of the listing more, patched, told of and entered on the right list |
| Rollback.RollbackPartitions | workflow_run_rollback.go:37-81 | on success the three lists split exactly the workflow's runs: waiting, running and yielded ones cancelled, completed and failed ones rolled back, others left alone, each once |
| Rollback.RollbackFrames | workflow_run_rollback.go:90-113 | other runs are untouched; inside, a run left alone keeps all, and of any other only status, reason and an unset completion time change |
| Rollback.EventsFitOutcome | workflow_run_rollback.go:49-72 | the cancellation events of a call name exactly its list of cancelled runs in order, the rollback events exactly its list of rolled-back ones; each carries the run, the workflow, the status before and the reason, and agrees with the status stored |
| Rollback.PickInOrder | workflow_run_rollback.go:37-81 | both lists keep the order in which the runs were listed |
| Rollback.RetryOne | workflow_run_rollback.go:37-81 | what two calls did to one run against what one call does |
| Rollback.RetryConverges | workflow_run_rollback.go:24-84 | interrupted and repeated equals uninterrupted up to the time stamped, with exactly one event for each transitioned run over both calls |
| Rollback.FurtherCallIsIdle | workflow_run_rollback.go:37-47 | a further call changes no stored field and publishes nothing |
| Rollback.CompleteRollbackCloses | workflow_run_rollback.go:37-81 | a complete rollback with nothing in flight leaves every run of the workflow withdrawn for good |
| Stream.RelayFrames | dispatch.go:240-315 | the chunks spell the reasoning and content groups however they were cut; when no reasoning follows content that is one block of all the reasoning, then all the content; both readers get the groups back from the concatenated chunks when the groups are tag-free; usage is that of the last frame that reports one |
| Stream.RelayChoice | dispatch.go:271-292 | one choice appends exactly its deltas to the printed groups |
| Stream.PrintedPieces | dispatch.go:276-300 | the printed stream is a rebuilding of clean pieces |
| Stream.StreamReadsBack | dispatch.go:240-305 | reading back gives the reasoning groups and the trimmed content groups whenever no group holds a tag that would cut it |
| Stream.ReasoningComesFirst | dispatch.go:271-305 | a stream without reasoning after content prints one think block of all its reasoning, if any, and then all its content |
| Stream.AnswerComesBack | dispatch.go:271-305 | read back, its think content is that reasoning between two newlines, and its stripped text the trimmed content |
| Think.ScanRebuilds | actions.go:102-118 | the forward scan loses nothing and cuts exactly at the tags |
| Think.ScanInverts | actions.go:102-118 | scanning what was rebuilt from clean pieces gives those pieces |
| Think.ExtractThinkContents | actions.go:102-118 | the inside pieces of the scan, on every input |
| Think.StripThinkBlocks | intake.go:184-198 | terminates without an opening tag left, on every input |
| Think.StripIsOutside | intake.go:184-198 | it is the trimmed outside text of the scan exactly when that spells no new opening tag |
| Think.GluedTag | intake.go:184-198 | a whole family of texts on which it is not |
| Think.GluedExample | intake.go:184-198 | one concrete such text |
| Actions.StreamedBlockParses | actions.go:51-85 | a block printed after fence-free prose is parsed back from the stream, whatever the reasoning held and however it was cut: to the decoded list, the empty one included, to no block for null, or to an error for invalid JSON |
| Actions.BlankBlockIsMalformed | actions.go:88-92 | a streamed block with nothing visible in it is an error of its own |
| Actions.CutBlockAsksReasoning | actions.go:51-85 | a block cut after something visible is decided by the first fence of the streamed reasoning alone |
| Actions.FindsFirstBlock | actions.go:74-85 | the block found is the trimmed text between the first opening fence and the first closing one after it |
| Actions.CutBlockFallsBack | actions.go:62-69 | a cut block falls back to the first closed block of the reasoning, in whatever form that is written, and means what that block's JSON means |
| Actions.CutBlockIsMalformed | actions.go:62-70 | when the reasoning has no fence, or never closes its first, the cut block is an error |
| Actions.NoFenceIsNoBlock | actions.go:55-58 | without a fence in the content there is no block, whatever the reasoning held |
| Actions.CutAtFenceIsNoBlock | actions.go:51-70 | a block cut right after its fence is no block either |
| JsonArray.ExtractJSONArray | intake.go:203-222 | the shortest slice ending at the last closing bracket with as many of each, or empty exactly when there is none |
| JsonArray.ExtractedIsUnique | intake.go:203-222 | the text determines the result |
| JsonArray.ArrayComesBack | intake.go:203-222 | an array among prose comes back whole exactly when its inside is balanced |
| JsonArray.PrintedIsBalanced | intake.go:203-222 | every nested bracket structure prints as a balanced text |
| JsonArray.BalancedIsPrinted | intake.go:203-222 | and every balanced text is such a print |
| Intake.ParseIntakeFields | intake.go:170-180 | what is asked for is the decoded array of the answer without its reasoning, or nothing without such an array |
| Intake.AskedIsUnique | intake.go:170-180 | an answer asks for one thing only |
| Intake.ArrayAmongProse | intake.go:170-222 | a balanced array among prose and reasoning is what is asked for |
| Debrief.ConfirmLine | internal/server/event_receiver.go:119-127 | on one line of any content the edit is the structured update if and only if the line is the entry confirmed or does not spell it |
| Debrief.EditIsUpdate | internal/server/event_receiver.go:119-127 | on a whole debrief of any lines, for any names, the edit is the rendering of the structured update if and only if a search from the left finds the marker first at the lines confirmed |
| Debrief.EditIsUpdateByLine | internal/server/event_receiver.go:119-127 | for names without line breaks: if and only if no other line spells the marker |
| Debrief.EditRefinesUpdate | internal/server/event_receiver.go:119-127 | among names without backticks and line breaks the edit is always the update |
| Debrief.DeliveriesRefine | internal/server/event_receiver.go:100-136 | so for any sequence of confirmations |
| Debrief.ConfirmationsCommute | internal/server/event_receiver.go:119-127 | confirmations of different files commute |
| Debrief.RepeatChangesNothing | internal/server/event_receiver.go:128-130 | a repeated confirmation changes nothing, whatever its sha |
| Debrief.FinalDispatched | internal/server/event_receiver.go:119-127 | a line stays dispatched exactly when no confirmation names it |
| Debrief.AllConfirmed | internal/server/event_receiver.go:119-127 | once every file is confirmed no file-write line is dispatched |
| Debrief.TickedTopicIsEdited | execute.go:587-588 | a topic with backticks on which the edit is not the update |
| Budget.EstimateTokens | execute.go:49-55 | zero exactly for the empty text, one for one to seven bytes, and otherwise a quarter of the bytes, rounded down |
| Budget.WidthsOfUtf8 | execute.go:49-55 | a code point counts the bytes UTF-8 gives it |
| Budget.TokensNearQuarter | execute.go:49-55 | over chunks of four bytes or more the count is at most a quarter of the bytes, and short of it by less than one for each chunk |
| Budget.TokensAdd | execute.go:206-209 | counts of successive chunks add up |
| Budget.TokensBoundBytes | execute.go:49-55 | over any chunks the count is at most the bytes, and the bytes at most seven times the count |
| Budget.SevenBytesAToken | execute.go:49-55 | the bound of seven is met |
| Budget.BeforeTheTrip | execute.go:206-213 | before the limit trips at most seven bytes for each token short of it have come in, and it never untrips |
| Budget.BigChunkTrips | execute.go:210-213 | a chunk of four times the limit in bytes trips it, wherever it comes |
| Budget.StoredLagsBehind | execute.go:214-224 | what is stored is a prefix of the output that misses fewer than fifty chunks |
| Budget.Sink.OnChunk | execute.go:202-224 | output, flush every fifty chunks, token count and cancellation once the count reaches the limit agree with the chunks seen so far |
| Budget.ResolveSessionLimits | execute.go:28-46 | field by field an override wins, without one the agent's limit stands, without either the default; at least one session in any case |
| Listing.ListAllFiles | contexthydrate.go:536-574 | the result is the first maxFiles paths of an enumeration of all files reachable through listed directories, in the order in which their routes part, and is as long as budget and number of files allow |
| Listing.WalkEnumerates | contexthydrate.go:555-573 | the depth-first walk enumerates the files: each file entry behind listed directories once, in the order in which routes part |
| Listing.OneEnumeration | contexthydrate.go:555-573 | there is only one such enumeration |
| Listing.ListedExactly | contexthydrate.go:555-573 | a path is in it exactly when a file entry with that path is reached through listed directories; directories' own paths are not |

## Left out

- Prompt text: how the user's message is worded from instructions, fields and inputs, the system prompts, and the ids in the planner's message.
- The JSON spelling of a field's options in the store, and the belongs_to_run edges of fields and inputs, which are a component of the stored record here.
- The link from a tripped token limit, or from passing time, to the way a model call ends: a reply may end in any way at any point.
- Store errors inside an execution: writes succeed in the class; in the protocol an execution may be given up at any point, which loses later writes but not one in the middle.
- Manager.Manager.ReconcileRunningRuns: a failing query of the running runs, which changes nothing, is not modelled.
- Time stamps other than the completion time; the clock of an execution is one parameter for all its sessions.
- A missing publisher and publishing errors, which the source ignores.
- JSON: decoding is a parameter that tells invalid, null and a list apart; payload decoding tells decodable and not. The payload of a file confirmation comes decoded.
- Concurrency inside one call, and two confirmations of one run at once; confirmations are sequential.
- De-duplication of events, RACI dispatching and everything else of the event receiver.
- The Anthropic stream loop, HTTP, gRPC, storage, schema, configuration, bootstrap and the registrar.
- Writes through the generic entity service, which bypass the manager and void the invariants.
- Deletion of edges by the store when an entity is deleted: an agent's provider edge outlives it here.
- Filtering runs by agent, status or task: only the workflow filter is used by a rollback.
- sort.Slice is modelled as insertion into a sorted list; segment numbers are distinct, so stability does not matter.
- Context hydration other than the file listing.
- The agent id in the events of a rollback, which is always empty since stored runs carry none.
- Provider fields and UpdateProvider, which no other operation reads.
