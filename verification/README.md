# Verified model of the agent-os execution protocol and the teamly algorithms

This project models the part of the repository that decides whether work is done once, in order
and completely: the run lifecycle of `agent-os` (state machine, worker retries and dead letters,
in-memory repository, tool-use loop, token stream), the planner and orchestrator that run a plan as
child runs and retry without redoing finished work, the chat replies filled in from run outputs, the
PII masker, the JSONL reader of the Claude CLI adapter, the event bus, and from `teamly` the page
forest, the text chunker, unique slugs and course completion.

`dafny verify dfyconfig.toml` checks everything.

## How it is organised

- `Domain.dfy`, `Text.dfy`, `Decimal.dfy`: shared types, the status table, trimming, numerals.
- `Store.dfy`: run rows, steps, dead letters and jobs as a value (`World`) with every observable
  event and the rows right after it, and `Platform`, the in-memory adapters that do the same in place.
- `Runtime.dfy`, `Outcome.dfy`: one attempt at a run, and what it comes to in terms of the replies alone.
- `RuntimeTrace.dfy`, `Throttle.dfy`, `StepTrace.dfy`: its token stream; its step trace, and the step
  traces of whole system runs.
- `Planner.dfy`, `Orchestrator.dfy`, `Team.dfy`, `Family.dfy`, `Phase.dfy`: plan checks and Kahn's
  algorithm; one attempt at an orchestrated run; what every attempt keeps; the derived phase.
- `Worker.dfy`, `Accounts.dfy`, `Async.dfy`, `EventBus.dfy`: deliveries and control-plane calls as
  atomic steps; retry accounting; the parent's wait for queued children; the bus.
- `Routing.dfy`, `Burials.dfy`: which runs become a team's; what dead letters say.
- `Success.dfy`, `Retries.dfy`, `Reach.dfy`: when a team's attempt succeeds; histories of attempts, each
  cut off anywhere; every moment of every run of the system.
- `Chat.dfy`: send, read, clear and reply backfill beside the worker's steps.
- `Pii.dfy`, `PiiTheorems.dfy`, `PiiPasses.dfy`, `Masker.dfy`: mask and unmask, their laws, what each
  pass does to a text, the masker in place.
- `LineReader.dfy`, `CliMessages.dfy`: the line buffer; the CLI's messages and the answer they amount to.
- `PageTree.dfy`, `Chunk.dfy`, `Slug.dfy`, `Enrollment.dfy`: one algorithm each.

Code that changes state is a class or a loop, tied by its postcondition to a function of the old
state; the theorems say what those functions come to without naming them, so that each operation has
a description of its own beside the function that computes it. What the model answers, how its text arrives in time,
what tools return and what the planner says are parameters (`Script`, `Behaviour`, `Planning`), so
every theorem holds for all of them. An attempt may be cut off after any of its writes.

## What turned out not to hold as one might hope

Each with an input that shows it and the exact condition under which the code does as hoped.

- Unmasking restores the text exactly when no key of the map stands in it (`PiiTheorems.RoundTrip`);
  a text that spells `[EMAIL_1]` comes back as somebody's address (`PiiTheorems.SpelledTokenIsLost`).
- A parent that dispatches a child through the queue waits for ever if, and only if, the child is
  already terminal: a skipped run publishes no verdict (`Async.NoLostWakeUp`).
- Creating a run under an id that exists adds a second job for it; the books balance exactly when
  the id is fresh (`Accounts.CreateSettles`).
- Ending a subscription can silence somebody else: after its function was called twice
  (`EventBus.OffTwice`), and also with no function called twice, when two callers share one entry
  because they subscribed the same listener (`EventBus.OffShared`). As long as every set still in the
  map is non-empty and every set outside it empty, ending a subscription takes out its listener and
  nobody else exactly if its set is not empty or nobody else listens; that state is kept by subscribing
  and by ending a subscription whose listener is still there (`EventBus.InMemoryEventBus.Off`).
- A line that is the bare JSON value `null` makes the line handler throw. The line stays in the
  buffer, nothing behind it is read as a line of its own, and at close all that is left is handled as
  one text. The promise of the stream never settles exactly if the first `null` line is the last one
  that is not blank (`LineReader.HangsExactly`); `null` alone hangs (`LineReader.BareNullHangs`), and
  with another line behind it the stream settles with what came before
  (`LineReader.NullThenTextSettles`).
- The chunks cover every text exactly if the overlap is not negative (`Chunk.CoveredExactly`); for
  every limit and every negative overlap one text loses its end (`Chunk.NegativeOverlapSkips`).
- A history limit of 0 returns the whole thread (`slice(-0)`). Among limits that are not negative the
  window is within the limit exactly if the limit is positive or the thread empty
  (`Chat.WindowBounded`). The one caller in the repository, `agent-os/src/api/server.ts:99`, passes no
  limit.
- A course can show 100 percent and not be completed. With exact division it shows 100 exactly if at
  most one unit in 200 is open (`Enrollment.HundredExactly`), and a course of t units that shows
  100 uncompleted exists exactly if t is at least 200 (`Enrollment.MisleadsExactly`); rounding can
  only make that 201 (`Enrollment.MisleadsNearly`).

## Model

| member | source | states |
|---|---|---|
| Domain.Transition | agent-os/src/domain/runStateMachine.ts:9-51 | a transition succeeds exactly along an allowed edge, returns the target, and never leaves a terminal status |
| Domain.TransitionTable | agent-os/src/domain/runStateMachine.ts:9-35 | the allowed edges one by one; terminal are exactly the statuses without an outgoing edge |
| Store.Platform.CreateRun | agent-os/src/adapters/repo.inMemory.ts:137-144 | an existing row is never clobbered; a new one is stored |
| Store.Platform.UpdateRunStatus | agent-os/src/adapters/repo.inMemory.ts:160-168 | only the named row changes, by status and patch; an unknown id is an error |
| Store.Platform.IncrementRunAttempts | agent-os/src/adapters/repo.inMemory.ts:169-174 | counts one delivery on the row and returns the count |
| Store.Platform.AppendStep | agent-os/src/adapters/repo.inMemory.ts:177-181 | upserts by run and index |
| Store.Platform.MarkDeadLetterRequeued | agent-os/src/adapters/repo.inMemory.ts:205-207 | drops exactly the run's dead letters, keeping the others in order |
| Store.SucceededFrozen | agent-os/src/domain/runStateMachine.ts:9-22 | in a lawful history a succeeded run keeps status, output and input at every later moment |
| Worker.AsksOnlyRunning | agent-os/src/agent/runtime.ts:80-101 | over any creations, deliveries, retries and requeues the model is only ever called for a run that is running at that moment |
| Worker.NeverAsksAgain | agent-os/src/agent/runtime.ts:80-91 | over the same runs, the model is never called for a run that had succeeded at any earlier moment |
| Store.SucceededNeverAsks | agent-os/src/agent/runtime.ts:80-91 | in a lawful history the model is never called again for a run that has succeeded |
| Runtime.TokenStream.FlushTokens | agent-os/src/agent/runtime.ts:166-176 | publishes the buffer under the run, and through the bridge under the parent, unless it is empty or throttled |
| Runtime.RunTools | agent-os/src/agent/runtime.ts:262-301 | runs the calls in order, one step each, stopping at the first forbidden or failing one |
| Runtime.RunLoop | agent-os/src/agent/runtime.ts:184-306 | the bounded loop does exactly the rounds of the specification and ends with its answer or error |
| Runtime.Execute | agent-os/src/agent/runtime.ts:73-321 | one attempt in place is the specified attempt, writes, events and outcome |
| Outcome.AttemptOutcome | agent-os/src/agent/runtime.ts:184-320 | a live run with a known agent succeeds exactly if some reply within the limit answers and all before it ask for permitted tools that work; it stores that answer, and otherwise the error of the first thing that went wrong |
| Outcome.AttemptRecorded | agent-os/src/agent/runtime.ts:203-291 | a success has recorded an assistant step for every turn, a tool step for every call behind it, and the answer last |
| Outcome.BlankMeans | agent-os/src/domain/errors.ts:10-12 | no answer is a text without a character other than white space, dot, ellipsis and middle dot |
| Runtime.AttemptEvents | agent-os/src/agent/runtime.ts:73-321 | every write of an attempt is legal and touches only the run's own row; it returns normally exactly when the run is terminal, and a success stores an answer that is not blank |
| RuntimeTrace.AttemptStream | agent-os/src/agent/runtime.ts:166-199 | for any timing the published tokens are a prefix of the streamed deltas at every moment and all of them at every recorded turn; the bridged stream carries the same chunks in order |
| RuntimeTrace.StreamAt | agent-os/src/orchestrator/orchestrator.ts:337-352 | the same, read off at any single moment: a prefix, the whole at a recorded turn, and the parent's stream with the same chunks in order, at most one behind |
| Throttle.Throttled | agent-os/src/agent/runtime.ts:166-182 | between turns chunks come at least 90 milliseconds apart, and after the last delta nothing has waited 90 milliseconds |
| RuntimeTrace.AttemptSteps | agent-os/src/agent/runtime.ts:146-302 | an attempt of any length leaves the run's step indices at 0..n'-1 with n' not smaller, and other runs' steps alone |
| StepTrace.StepsNeverGap | agent-os/src/adapters/repo.inMemory.ts:177-186 | over any sequence of creations, deliveries, retries and requeues, teams included, every run's step indices are exactly 0..n-1 and n never drops |
| StepTrace.AttemptAssistants | agent-os/src/agent/runtime.ts:185-227 | an attempt writes at most maxIterations assistant steps |
| Planner.NormalizePlan | agent-os/src/orchestrator/planner.ts:88-117 | accepts exactly the non-empty arrays of well-typed subtasks with distinct ids and known dependencies, and returns them in order with ids, types, prompts and dependencies kept or filled in |
| Planner.TopoSort | agent-os/src/orchestrator/planner.ts:120-145 | terminates; succeeds exactly when the dependency graph is acyclic; the result is a permutation with every dependency first, in which every subtask stands behind those that were ready before it |
| Planner.TurnUnique | agent-os/src/orchestrator/planner.ts:131-140 | that fixes the order: two such permutations of a plan are equal |
| Planner.FreePlan | agent-os/src/orchestrator/planner.ts:131-140 | a plan without dependencies comes back as it is |
| Planner.OrderedIsAcyclic | agent-os/src/orchestrator/planner.ts:120-145 | any dependency-respecting permutation rules out a cycle |
| Planner.QueueEmpty | agent-os/src/orchestrator/planner.ts:141-143 | when the queue runs dry early, what is left contains a cycle |
| Planner.WalkFindsCycle | agent-os/src/orchestrator/planner.ts:120-145 | a set of ids that each depend on one of the set contains a cycle |
| Planner.EdgesRight | agent-os/src/orchestrator/planner.ts:122-130 | the edge lists hold an id once per dependency entry, repeated entries included |
| Phase.FirstActiveFound | agent-os/src/orchestrator/phase.ts:59-75 | with one active child the scan returns that child's phase wherever it is listed |
| Phase.PhaseSaysStatus | agent-os/src/orchestrator/phase.ts:59-75 | completed, failed, paused, new and analyzing say just which status the parent has, and working, reviewing and revising that it runs and has children |
| Orchestrator.RunPlanned | agent-os/src/orchestrator/orchestrator.ts:115-191 | the planned children in place are the specified ones, stopping at the first that does not succeed |
| Orchestrator.DependencyShown | agent-os/src/orchestrator/orchestrator.ts:390-399 | a child is asked its own prompt and shown, line by line, what every subtask it depends on has answered |
| Orchestrator.RunDebate | agent-os/src/orchestrator/orchestrator.ts:199-231 | the review and revision rounds in place are the specified ones |
| Orchestrator.RunChildContribution | agent-os/src/orchestrator/orchestrator.ts:281-324 | a debate child that fails is no error, and one that succeeds contributes its stored output |
| Orchestrator.Orchestrate | agent-os/src/orchestrator/orchestrator.ts:45-272 | one attempt in place is the specified attempt for the plan the planner gave, and its order is the one order the sort promises for that plan |
| Team.OrchestrationEvents | agent-os/src/orchestrator/orchestrator.ts:45-272 | every write of an orchestration attempt is legal; outside the parent's family no row moves, and no other run becomes failed |
| Team.RunChildEvents | agent-os/src/orchestrator/orchestrator.ts:355-368 | creating and running a child inline moves only that child's row, write by write |
| Family.SubInjective | agent-os/src/orchestrator/orchestrator.ts:209-221 | planned ids that do not look like debate ids never collide with review and revision ids |
| Family.AttemptKeepsChain | agent-os/src/orchestrator/orchestrator.ts:115-247 | at every write of an attempt the succeeded children form a front of the fixed order, at most the next child is open, each child is run by the agent of its place and asked what follows from the stored rows before it, debate children exist only where called for, and a success stores the whole truth about the children |
| Family.DebateExact | agent-os/src/orchestrator/orchestrator.ts:198-231 | when a team is finished the first review exists exactly if the team debates, a revision exactly if the review of its round succeeded, asks for rework and the last subtask's agent is there, and a later review exactly if the revision before it succeeded |
| Family.DebatingMeans | agent-os/src/orchestrator/orchestrator.ts:201-207 | a team debates exactly if the plan is the planner's, has more than one subtask and none for a reviewer, a reviewer is there, and there are rounds |
| Family.DebateStored | agent-os/src/orchestrator/orchestrator.ts:208-243 | stored are the planned contributions in order and those of all succeeded revisions, the last of them as summary, and the review that succeeded last |
| Success.TeamSucceeds | agent-os/src/orchestrator/orchestrator.ts:121-191 | an attempt at a live team run succeeds exactly if every planned child has succeeded before, or an agent of its type is there and its model answers |
| Success.ChildOutcome | agent-os/src/orchestrator/orchestrator.ts:355-368 | a finished child is left as it is; any other succeeds exactly if its model answers, and stores the answer |
| Family.SortedGoodFam | agent-os/src/orchestrator/orchestrator.ts:107-118 | an order the sort promises for a valid plan without debate-shaped ids is one the family theorems speak about |
| Retries.AttemptHonest | agent-os/src/orchestrator/orchestrator.ts:45-272 | after every write of an attempt the chain holds, and a parent that reads succeeded holds the aggregate of its finished children, so an attempt cut off right behind that write is covered |
| Retries.RetriesGoOn | agent-os/src/orchestrator/orchestrator.ts:45-272 | over any sequence of attempts, each failing or cut off anywhere, the succeeded front only grows, its outputs and prompts never change, and a succeeded parent keeps to hold the aggregate |
| Reach.StepElsewhere | agent-os/src/worker/worker.ts:19-68 | any step of the system but a delivery of the parent leaves the parent's children, and a team's result in the parent, alone at every moment |
| Reach.EveryMoment | agent-os/src/orchestrator/orchestrator.ts:45-272 | at every moment of every run of the system from before the first child: finished children are a front of the order, at most the next is open, prompts come from stored outputs, a parent with a team's result holds its aggregate, and no child that has succeeded is asked again |
| Retries.AggregateStays | agent-os/src/orchestrator/orchestrator.ts:232-247 | a stored aggregate maps each subtask to its child's stored output, its summary is the last contribution's output and its report the one written from the contributions and the review; this stays true whatever comes later |
| Family.DebateRun | agent-os/src/orchestrator/orchestrator.ts:199-231 | through every round the draft under discussion is the last contribution, and every contribution is the stored output of a succeeded child |
| Family.PromptFromStored | agent-os/src/orchestrator/orchestrator.ts:390-399 | composing from the outputs collected in the loop is composing from the stored rows |
| Family.PhaseTellsPlace | agent-os/src/orchestrator/phase.ts:59-75 | while the parent runs the derived phase is that of the one open place, in whatever order the children are listed |
| Family.FreshChain | agent-os/src/orchestrator/orchestrator.ts:129-143 | a run with no children yet starts the chain at its front |
| Worker.DispatchRun | agent-os/src/agent/dispatch.ts:21-43 | routes to orchestration exactly for an orchestrator agent and an input that is no chat, working off the caller's plan in a sorted order |
| Routing.TaskOfOrchestrator | agent-os/src/agent/dispatch.ts:36-42 | a live task of an orchestrator is planned, the model is never asked under its own id, and a success is a team's |
| Routing.OwnRun | agent-os/src/agent/dispatch.ts:36-42 | any other live run with a known agent, a chat with an orchestrator included, plans and creates nothing, moves no other row, and a success is a text |
| Worker.ProcessJob | agent-os/src/worker/worker.ts:19-68 | one delivery in place is the specified one for the caller's plan, sorted: count, dispatch, retry or bury |
| Worker.CreateRun | agent-os/src/api/controlPlane.ts:80-114 | stores a queued row with the caller's input and a job for a known agent, and nothing otherwise |
| Worker.Reopen | agent-os/src/api/controlPlane.ts:470-489 | reopens exactly failed runs, with a fresh budget, no dead letter and a job |
| Worker.StepsFlow | agent-os/src/worker/worker.ts:43-47 | in every run of the system, duplicates included, each status write is an allowed edge, running to running, or the operator's reopening |
| Worker.SucceededForever | agent-os/src/agent/runtime.ts:82-91 | whatever is delivered, requeued or redelivered, a succeeded run's status and output never change |
| Accounts.DeliverSettles | agent-os/src/worker/worker.ts:19-68 | a delivery spends one attempt and leaves one job exactly for open runs and one dead letter exactly for failed ones |
| Accounts.CreateSettles | agent-os/src/api/controlPlane.ts:96-112 | creating a run keeps the books exactly when its id is new |
| Accounts.RequeueSettles | agent-os/src/api/controlPlane.ts:470-489 | a requeue keeps the books |
| Accounts.StepsBalanced | agent-os/src/worker/worker.ts:19-68 | over any creations, deliveries and requeues: a run is open iff it has exactly one job, failed iff it has exactly one dead letter |
| Burials.StepsTell | agent-os/src/worker/worker.ts:45-55 | over the same runs every dead letter names a failed run, the reason it failed for and the attempts it took |
| Accounts.BudgetBounds | agent-os/src/worker/worker.ts:24-47 | a run with a fresh budget is succeeded or failed after at most maxAttempts of its deliveries |
| Accounts.NothingOutstanding | agent-os/src/adapters/repo.inMemory.ts:133-144 | the empty system is balanced, so every run of the system from it is |
| Async.NoLostWakeUp | agent-os/src/orchestrator/orchestrator.ts:369-387 | the parent's wait settles exactly when the child was not terminal at dispatch; then exactly one verdict is published, and it tells the child's end |
| EventBus.OffUndoes | agent-os/src/events/bus.ts:51-59 | unsubscribing undoes subscribing |
| EventBus.InMemoryEventBus.Subscribe | agent-os/src/events/bus.ts:51-54 | adds the listener at the end of its run's list once, changes no other run, and keeps used sets non-empty and unused ones empty |
| EventBus.InMemoryEventBus.Off | agent-os/src/events/bus.ts:55-58 | takes out one listener; through a set that has left the map it takes out nobody or everybody; exactly when it removes its own listener and nobody else |
| EventBus.InMemoryEventBus.Publish | agent-os/src/events/bus.ts:37-49 | calls the run's listeners and then those of every run, in order |
| EventBus.OffTwice | agent-os/src/events/bus.ts:55-58 | a second call of the same unsubscribe function silences a later subscriber |
| EventBus.OffShared | agent-os/src/events/bus.ts:51-58 | two callers with one listener, each ending its subscription once, silence a newcomer |
| Chat.ReadAnswers | agent-os/src/api/controlPlane.ts:418-450 | after a backfill every succeeded question of the window has its reply, messages are only added, and pending lists exactly the existing unsucceeded runs in order |
| Chat.RepliesSound | agent-os/src/api/controlPlane.ts:302-450 | over any sends, reads, clears, deliveries and retries every reply follows its question and carries the reply text of a succeeded run's output, at most one a run |
| Chat.AtMostOnce | agent-os/src/adapters/repo.inMemory.ts:90-99 | from the empty system no two replies ever have the same run id |
| Chat.ReadTwice | agent-os/src/api/controlPlane.ts:375-391 | reading again with no run changed adds nothing |
| Chat.SoundCleared | agent-os/src/adapters/repo.inMemory.ts:110-114 | clearing a thread takes questions and replies together and leaves other threads sound |
| Chat.ChatStore.ListChatMessages | agent-os/src/adapters/repo.inMemory.ts:100-109 | returns the window of the thread that the limit names |
| Chat.ChatStore.ClearChatMessages | agent-os/src/adapters/repo.inMemory.ts:110-114 | removes exactly the thread's messages and returns their number |
| Chat.BackfillChatReplies | agent-os/src/api/controlPlane.ts:418-450 | the loop in place is the specified backfill |
| Chat.GetChatHistory | agent-os/src/api/controlPlane.ts:375-391 | what a caller sees after a read: the window, in which every succeeded question has its reply, and exactly the pending runs |
| Chat.ReturnedAnswers | agent-os/src/api/controlPlane.ts:375-391 | every succeeded question in the returned window is answered in the returned window, for any limit |
| Chat.WindowIs | agent-os/src/adapters/repo.inMemory.ts:100-109 | a positive limit returns the last that many messages, 0 all, a negative one skips from the front |
| Chat.WindowBounded | agent-os/src/adapters/repo.inMemory.ts:100-109 | a window stays within a limit that is not negative exactly if the limit is positive or the thread empty |
| Chat.SendChatMessage | agent-os/src/api/controlPlane.ts:302-363 | refuses blank messages and unknown agents; otherwise backfills, stores the question and creates its run |
| Chat.SendStores | agent-os/src/api/controlPlane.ts:322-362 | the run that is created gets a prompt assembled from the last twelve messages, in which every succeeded question is answered, and the question is stored behind them |
| Chat.QuestionsKept | agent-os/src/api/controlPlane.ts:347-362 | whatever happens, every question keeps a run of its own agent that is a chat, never a team's task |
| Chat.ThreadExact | agent-os/src/adapters/repo.inMemory.ts:100-114 | a thread is its messages, each once and in the order they came, and the rest are the other threads |
| Chat.ClearChatHistory | agent-os/src/api/controlPlane.ts:365-373 | refuses an unknown agent, otherwise clears the thread and returns how many messages it held |
| PiiTheorems.RoundTrip | agent-os/src/security/pii.ts:27-51 | with the map left by masking or any later one, of fewer than ten thousand million entries, walked in any order, unmasking gives the text back exactly when no key of the map stood in it |
| PiiTheorems.SpelledTokenIsLost | agent-os/src/security/pii.ts:44-50 | a text that spells a token of the map is not given back |
| PiiTheorems.Remasking | agent-os/src/agent/runtime.ts:187-191 | masking a growing conversation afresh under a later map gives the old texts as before and does not touch the map for them |
| PiiTheorems.MaskFromAgain | agent-os/src/security/pii.ts:28-42 | masking a text again under any later map gives the same text and the same map |
| PiiTheorems.ReachedMap | agent-os/src/security/pii.ts:53-62 | every reachable map is one-to-one with keys numbered 1..k per pattern |
| PiiTheorems.UnmaskRestores | agent-os/src/security/pii.ts:44-50 | a text of characters and placeholders is restored whatever order the map is walked in |
| Pii.SplitJoin | agent-os/src/security/pii.ts:47 | splitting at a key and joining with a value replaces the leftmost disjoint occurrences |
| Masker.CountKeys | agent-os/src/security/pii.ts:53-57 | counts the keys with the pattern's prefix |
| Masker.FindKey | agent-os/src/security/pii.ts:59-62 | the first key that holds the value |
| Masker.RegexPiiMasker.Mask | agent-os/src/security/pii.ts:28-42 | addresses, then cards, phones and passports: each pass puts the mapped token in place of every match, and the map grows by exactly the new values under the next numbers of the pattern |
| PiiPasses.MaskedPasses | agent-os/src/security/pii.ts:28-42 | the same of the function the other laws are about |
| PiiPasses.NothingSlips | agent-os/src/security/pii.ts:31-40 | every match of a pass, in the text that pass has met, is a value of the map |
| PiiPasses.AddressHidden | agent-os/src/security/pii.ts:15-40 | `write to a@b.co` leaves as `write to [EMAIL_1]` and the map has the address |
| Masker.RegexPiiMasker.Unmask | agent-os/src/security/pii.ts:44-50 | the walk over the map in place is the specified one |
| LineReader.ChunkingIrrelevant | agent-os/src/adapters/model.claudeSubscription.ts:107-154 | for any split of the output into data events the accumulators are those of its lines before the first that throws, and the buffer holds the text from there on, or else the last line |
| LineReader.EveryLineHandled | agent-os/src/adapters/model.claudeSubscription.ts:107-162 | with no line that throws, the accumulators at close are those of all lines of the output that are not blank, in order |
| LineReader.HangsExactly | agent-os/src/adapters/model.claudeSubscription.ts:113-174 | the promise never settles exactly if the first `null` line is the last line that is not blank |
| LineReader.BareNullHangs | agent-os/src/adapters/model.claudeSubscription.ts:160-162 | the output `null` hangs |
| LineReader.NullThenTextSettles | agent-os/src/adapters/model.claudeSubscription.ts:146-174 | a delta `hi`, then `null`, then any line that is not blank settles with `hi` |
| LineReader.LinesExact | agent-os/src/adapters/model.claudeSubscription.ts:146-154 | the lines are the output cut at its newlines and nowhere else |
| LineReader.StreamedAnswer | agent-os/src/adapters/model.claudeSubscription.ts:160-174 | with no result and no assistant message the answer is exactly the deltas handed to the sink, trimmed; an error means a bad exit or no text, and no outcome that the leftover throws |
| LineReader.CliStream.Data | agent-os/src/adapters/model.claudeSubscription.ts:146-154 | a data event in place is the specified one: complete lines are handled until one throws, which stays in the buffer |
| LineReader.CliStream.Close | agent-os/src/adapters/model.claudeSubscription.ts:160-174 | handles the whole leftover as one text and chooses result, then assistant, then streamed text; a bad exit or no text is an error, and no outcome if the leftover throws |
| LineReader.RunCliStreaming | agent-os/src/adapters/model.claudeSubscription.ts:76-176 | the outcome of a whole stream depends on the concatenated output and the exit code alone |
| CliMessages.CliAnswer | agent-os/src/adapters/model.claudeSubscription.ts:87-174 | for an output of messages, one a line: the last result, or else the last assistant message with a text, or else all deltas in order, with the token counts named last; an error exactly for a bad exit or if that is blank |
| PageTree.ForestExact | teamly/src/lib/tree.ts:15-35 | the forest holds exactly the pages whose parent chain ends, each once |
| PageTree.SubtreeExact | teamly/src/lib/tree.ts:31-35 | below a page of the forest hang exactly its strict descendants, each once |
| PageTree.SortFacts | teamly/src/lib/tree.ts:28-32 | siblings come out ordered by position and title, none lost and none twice |
| PageTree.KidsMembers | teamly/src/lib/tree.ts:20-25 | a page is among the children of its own parent, or of the roots, and nowhere else |
| PageTree.SortTree | teamly/src/lib/tree.ts:28-33 | the recursive sort terminates and sorts exactly the children lists reachable from its argument |
| PageTree.BuildPageTree | teamly/src/lib/tree.ts:15-35 | new shared nodes, one a page; roots and all rooted pages have their own children sorted |
| PageTree.DescendantIds | teamly/src/lib/tree.ts:38-44 | the stack returns the ids of exactly the strict descendants, each once |
| Chunk.CleanFacts | teamly/src/lib/ai/chunk.ts:11 | cleaning keeps every ink character in order, with single spaces and none at the ends |
| Chunk.ChunkText | teamly/src/lib/ai/chunk.ts:8-30 | terminates and returns the specified chunks; the early returns change nothing |
| Chunk.ChunkBounded | teamly/src/lib/ai/chunk.ts:24-25 | every chunk is a trimmed non-empty stretch of the clean text no longer than the limit |
| Chunk.InkCovered | teamly/src/lib/ai/chunk.ts:16-28 | with an overlap that is not negative every ink character lies in a window and, at its own place, in the chunk cut from that window |
| Chunk.CoveredExactly | teamly/src/lib/ai/chunk.ts:16-28 | for any positive limit, all texts are covered in that way exactly if the overlap is not negative |
| Chunk.WordBoundary | teamly/src/lib/ai/chunk.ts:18-23 | a window that cannot reach the end of the text ends at the last space of its last two fifths, or at the limit if they hold none |
| Chunk.NeighboursOverlap | teamly/src/lib/ai/chunk.ts:16-28 | the first window starts the text, and each next one starts the overlap before the end of the one before it, or one further than it if that is later |
| Chunk.PiecesInOrder | teamly/src/lib/ai/chunk.ts:24-25 | the chunks are the windows' trimmed texts that are not empty, in the order of the windows |
| Chunk.ChunksFew | teamly/src/lib/ai/chunk.ts:16-28 | the number of chunks is linear in the text, for any limit and overlap |
| Chunk.DefaultChunksFew | teamly/src/lib/ai/chunk.ts:9-10 | with the defaults n chunks need more than 221 (n - 1) characters |
| Chunk.NegativeOverlapSkips | teamly/src/lib/ai/chunk.ts:27 | for every positive limit and every negative overlap a text one character over the limit loses that character |
| Slug.UniqueSlug | teamly/src/lib/slug.ts:16-23 | terminates with a slug nobody has: the desired one, or the least free suffix, at most one more than the slugs taken |
| Slug.ProbeBound | teamly/src/lib/slug.ts:20-22 | pigeonhole: the suffixes probed so far are that many different taken slugs |
| Decimal.ToStringInjective | teamly/src/lib/slug.ts:21-22 | different numbers print differently |
| Decimal.NoLeadingZero | teamly/src/lib/slug.ts:21-22 | and a number other than 0 does not begin with one |
| Enrollment.CourseProgress | teamly/src/lib/lms/progress.ts:22-43 | the nested loops count the units and the done units of the course |
| Enrollment.ModuleCounts | teamly/src/lib/lms/progress.ts:29-39 | a module counts its lessons and its quiz, and as done the lessons completed and the quiz if it is passed |
| Enrollment.ModulesAdd | teamly/src/lib/lms/progress.ts:29-40 | the counts of modules add up |
| Enrollment.PercentNearest | teamly/src/lib/lms/progress.ts:41 | with exact division the percentage is the whole number nearest to 100 done / total, halves rounded up |
| Enrollment.CompletedMeans | teamly/src/lib/lms/progress.ts:42 | completed exactly when there are units and every lesson is done and every quiz passed |
| Enrollment.PercentMeans | teamly/src/lib/lms/progress.ts:41-42 | completed implies 100 percent; 100 percent without completion needs at least 200 units |
| Enrollment.HundredExactly | teamly/src/lib/lms/progress.ts:41 | with exact division a course with units shows 100 percent exactly if at most one unit in 200 is open |
| Enrollment.HundredNearly | teamly/src/lib/lms/progress.ts:41 | for any rounding within a thousandth: 100 percent if at most 499 units in 100000 are open, and only if at most 501 are |
| Enrollment.MisleadsExactly | teamly/src/lib/lms/progress.ts:41-42 | a course of t units that shows 100 percent and is not completed exists exactly if t is at least 200 |
| Enrollment.MisleadsNearly | teamly/src/lib/lms/progress.ts:41-42 | for any rounding within a thousandth no such course has fewer than 200 units, and one has t units for every t from 201 on |
| Enrollment.ExactIsGood | teamly/src/lib/lms/progress.ts:41 | exact division meets what is assumed of the rounded ratio |
| Enrollment.ApplyConsistent | teamly/src/lib/services/enrollment.ts:111-123 | from any rows, after an operation the completion date is set exactly when the course is completed, to the time of the operation that completed it |
| Enrollment.ApplyRecords | teamly/src/lib/services/enrollment.ts:17-48 | an operation adds just its lesson, or its attempt and the quiz if it has passed |
| Enrollment.CompletionKept | teamly/src/lib/services/enrollment.ts:17-48 | on a fixed course done units and percent never drop and a completion date is never cleared or moved |
| Enrollment.EnrollmentRow.CompleteLesson | teamly/src/lib/services/enrollment.ts:17-24 | upserts the lesson row and recomputes completion |
| Enrollment.EnrollmentRow.SubmitQuiz | teamly/src/lib/services/enrollment.ts:26-48 | an unknown quiz changes nothing; otherwise the attempt is recorded and completion recomputed |

## Left out

Assumptions under which the theorems speak:

- A run's agent exists, and an orchestrator run has a planner; without them dispatch throws while the
  run is still queued, and the worker's write to failed is refused by the state machine.
- Audit and memory writes after a success write do not throw; they sit inside the `try` whose `catch`
  writes `running` again. Audits, memory recall and metrics themselves are not modelled.
- Retries are given the same plan (`Family.Fits`, which `Family.SortedFits` derives from what the sort
  promises). A planner that answers differently on a retry is outside `Family`.
- Planned subtask ids do not have the shape of debate ids (`review`, `review2`, `rev1`, ...), which
  would collide with the ids of debate rounds.
- Created run ids are fresh UUIDs and contain no colon; only child ids do.
- `createdAt` never decreases, so sorting a thread by it leaves the insertion order.
- Pages and subtasks have distinct ids, and `localeCompare` is a total preorder.

What the repository does and the model does not:

- Prompt texts and the wording of the team report (`Config.teamReport`) are parameters; the
  complexity score and the planner's JSON extraction are absent.
- The masker inside the runtime and the contents of the conversation: masking is modelled by itself,
  and the token-stream theorem is for runs without a masker.
- Regular expressions are finders of non-empty, disjoint, left-to-right, bracket-free spans outside
  placeholders of at most ten digits (`Pii.GoodFinder`). The phone pattern matches the eleven digits of
  `[EMAIL_89991234567]`, so the laws speak of maps with fewer than 10^10 entries; a JavaScript `Map`
  holds far fewer.
- JSON parsing, `String` of a JSON object (taken not to throw) and `slugify` are uninterpreted; UTF-8
  characters split across data events, the CLI process, its timeout and its error event are not modelled.
- What the host does with an exception of a data listener: Node ends the process unless a handler is
  installed; the model takes the stream to go on with the next event, as it does with one.
- `(done / total) * 100` is any rounding that keeps order, the whole and the value to a thousandth
  (`Enrollment.GoodRatio`); doubles do.
- `maxChars * 0.6` is compared exactly, as five times the position against three times the limit.
- Reading a child's subtask id off its run id when its input has none; orchestrated children always carry it.
- One organisation; attachments, reply quotes and reactions of chat messages.
- The queue's own delivery counter and its `reset`, which the worker never reads.
- Listeners that subscribe or unsubscribe others while an event is being delivered.
- The asynchronous queue mode, and two deliveries interleaved inside one attempt: a delivery and a
  control-plane call are atomic steps, though an orchestration attempt may be cut off at any write.
- Prisma, BullMQ, Redis, HTTP and SSE adapters, sandboxes, embeddings, sessions and the user interface.
