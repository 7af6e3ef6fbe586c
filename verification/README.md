# Verification of the agent platform's control logic

This project models the parts of the platform whose correctness is hardest to see by reading, and proves
properties of the models for every input, every run and every behaviour of the outside world.

`dafny verify dfyconfig.toml` checks everything.

## What is modelled

**The autonomous loop** (`internal/loop`). `Decide` and `Advance` are pure functions of the state
(`Controller`), driven turn by turn (`Runner`). The planner, executor, evaluator, reflector, summariser, clock
and cancellation are a `World`: what each would say at the i-th turn. `StateAt(cfg, goal, w, n)` is the state
after n turns, so a theorem about it is a theorem about every reachable state. The reducer's loops
and the driver loop are also written as the source runs them, and proved to return what these definitions say
(`Driver`). On top stand scheduling safety and retry discipline (`Safety`), the confidence gate
(`ConfidenceGate`), conservation of attempts and cost and the overshoot of the cost cap (`Accounting`),
termination under either cap (`Termination`, `WorkBound`), the meaning of the reported ends (`Endings`), what
"done" is worth on every plan and across replans, with concrete runs (`StuckPlans`, `Replans`), the saved state
as JSON (`Persistence`, over the conventions of `JsonStructs`), and crash-resume through it (`CrashResume`).

**The tool-using conversation** (`internal/llm`). `Converse` with its nested loops (`Conversation`), the schema
check that guards every tool (`ToolArguments`), and the idempotency key (`IdempotencyKey`) over a reader and
writer of JSON (`Json`). The model and the tool runner are oracles.

**Streaming inside retries** (`internal/httpx`, `internal/ollama`, `internal/bedrock`). The retry loop
(`Httpx`), both providers' attempts as event sequences, the shared `emitted` flag and the sink as an object that
is updated in place (`Streaming`), when a done mark can come twice (`DoneMarks`), and errors as trees of wrapped
sentinels matched by identity (`Errors`).

**Two algorithmic cores.** The bracket checker against its grammar (`Brackets`), and the filing, deduplication
and counting of release notes (`Changelog`).

Costs are `real`, integers are unbounded, and a float-to-duration conversion truncates towards zero.

## Where the code and its comments part

The models follow the code. Each point names the theorem that says exactly when it bites and, where the code
falls short of what is promised, a concrete run.

- The bounds are checked with `>=` before an action is chosen. A positive `MaxReplans` therefore bounds the
  number of plans ever made, the first included (`ReplansBoundTheWork`), and the outcome that reaches
  `MaxIterations` is never evaluated (`CapLeavesTheLastUnjudged`, `UnjudgedIffGivenUp`, `TheOnlyRunIsUnjudged`).
- `Plan.Validate` means to rule out plans the loop would deadlock on, but admits cycles of two or more tasks
  (`SchedulerCompleteIffAcyclic`). The loop does not deadlock on them: it runs out of ready tasks and reports
  done with no error. Done means a recorded success for every task ID on exactly the acyclic plans
  (`DoneMeansCompletedIffAcyclic`, `CycleEndsDone`); the success may be older than the plan, as the next point says.
- "Done" is judged by task ID across replans, and IDs are unique only within a plan. A run that ends done has
  executed, under its last plan, exactly the tasks whose IDs had not succeeded before that plan was taken: other
  work under a completed ID is skipped, and counts as completed (`TasksRunUnlessReused`, `ReusedTaskNeverRuns`).
- A goal-achieving verdict is overridden when the cost or time bound has tripped by the next decision
  (`AchievedUnlessOverBudget`, `AchievedButOverBudget`).
- A finished plan whose last summary pushes the cost to the cap is reported as stopped by cost
  (`FinishedIsDoneIffSummaryFits`, `FinishedButOverBudget`).
- The iteration cap is documented as the guarantee of termination. A positive replan cap is enough on its own;
  without either, no cost cap and no timeout makes the loop certain to end, since unpriced engines and a clock
  that stands still never reach them (`EndsForSureIffCapped`, `CirclesForever`).
- The confidence gate asks for a retry, but the task runs again only if its outcome was transient, a retry is
  left, no bound trips and the reflector, if there is one, answers (`DoubtedRunsAgainIff`, `DoubtedAndGivenUp`).
- The streaming promise is about tokens: a done mark does not raise the `emitted` flag, and can be delivered
  twice. It never is, whatever the policy, the cancellations and the sink, exactly when all the replies a patient
  caller can come to see hold at most one (`DoneComesOnceForSureIff`, `DoneMarkCanRepeat`, `OneReplyTwoMarks`).
- The statistics are said never to disagree with the notes. They count a repeated commit each time, and the
  notes list it once (`NotesMatchStatistics`, `RepeatedCommitDisagrees`).

## Model

| member | source | states |
|---|---|---|
| PlanCheck.Validate | internal/loop/loop.go:243-279 | no error exactly for a plan with at least one task, distinct non-blank IDs, non-blank type and instructions, and every dependency in the plan and not on itself; an error names a fault the plan really has |
| Scheduler.NextIsFirstReady | internal/loop/state.go:192-209 | the scheduler returns nothing exactly when no task of the plan is ready, and otherwise the first task that is |
| Scheduler.FindTask | internal/loop/state.go:164-175 | the search loop finds the first task with the ID, or reports that there is none |
| Scheduler.SearchDone | internal/loop/state.go:179-186 | true exactly when a recorded success carries the ID |
| Scheduler.SelectNext | internal/loop/state.go:192-209 | the nested search with its ready flag and early exits returns what the scheduler specifies |
| Scheduler.WithRevisedInstructions | internal/loop/controller.go:442-452 | the copying loop rewrites the instructions of the named task and nothing else |
| Scheduler.RevisedStaysSchedulable | internal/loop/controller.go:391-393 | rewriting instructions keeps IDs distinct and dependencies resolved |
| Scheduler.SchedulerCompleteIffAcyclic | internal/loop/state.go:192-209 | for a schedulable plan, "nothing ready means everything done" holds whatever has completed if and only if the dependencies are acyclic |
| Scheduler.NothingReadyMeansAllDone | internal/loop/state.go:192-209 | for an acyclic plan the scheduler returns nothing exactly when every task is done |
| Scheduler.ValidationAdmitsACycle | internal/loop/loop.go:265-277 | a concrete plan that validates, is cyclic, and has nothing ready although nothing is done |
| Retry.ComputeBackoff | internal/loop/retry.go:47-68 | the loop with its early exits computes the capped compounding delay, for every policy and attempt |
| Retry.GrownIsCompounded | internal/loop/retry.go:52-63 | stopping when compounding no longer lengthens the delay changes nothing, for a multiplier of at least one |
| Retry.BackoffIsMonotoneAndCapped | internal/loop/retry.go:47-68 | later retries never wait less, and a positive MaxDelay is never exceeded |
| Retry.BackoffClosedForm | internal/loop/retry.go:47-68 | min(MaxDelay, Base * m^(n-1)) for an integer multiplier m of at least one |
| Driver.Reduce | internal/loop/controller.go:180-220 | whatever the result, the goal and the start stay, histories only grow and by at most one outcome; a result the phase asked for keeps the state in shape and the books balanced with its cost added once |
| Driver.ReducePlan | internal/loop/controller.go:222-255 | the loops take a plan in exactly when it is valid, with a ready task as the current one, or go to the summary when none is ready; nothing filed or billed changes |
| Driver.ReduceEvaluate | internal/loop/controller.go:279-376 | the waiting outcome is appended to one list, with the gated verdict as its flag; nothing is billed, the plan stays, the shape is kept and nothing is left waiting unjudged |
| Driver.ReduceSuccess | internal/loop/controller.go:310-331 | unless the goal is met, the next current task is a ready one of the plan, or the summary comes because none is ready |
| Driver.ReduceReflect | internal/loop/controller.go:378-398 | the reflection is recorded and the same task runs again; no task changes but in its instructions, and only the current one, to the revised text |
| Driver.FinishRun | internal/loop/runner.go:240-274 | the reason is recorded, the phase is terminal, and the error is nil exactly for done |
| Driver.Run | internal/loop/runner.go:92-130 | on every world on which the driver loop returns at all, it returns at the first turn that tells it to: the specified final state, the state as it stood when a backoff was cancelled, or a refusal of an invalid goal before any engine is called; at most 3M turns under an iteration cap of M |
| Driver.ReturnsForSureIffCapped | internal/loop/runner.go:107-129 | the driver loop returns on every world if and only if iterations or replans are capped |
| Safety.EveryStateHasShape | internal/loop/controller.go:82-440 | in every reachable state each phase finds the fields it reads as it needs them |
| Safety.OnlyReadyTasksAreWorkedOn | internal/loop/controller.go:109-142 | at every turn of every run the current task is in the plan, not done and has its dependencies done; actions name it; the corrupted-state stops never fire |
| Safety.SuccessFollowsItsDependencies | internal/loop/controller.go:310-331 | over every run, replans included, Completed grows only by a task that was ready under its own plan, and no ID succeeds twice |
| Safety.RetriesAreAlwaysEarned | internal/loop/controller.go:333-351 | RetryCount never exceeds MaxRetries, and the last RetryCount failures are transient failures of the current task |
| Safety.RetriesWaitTheirTurn | internal/loop/controller.go:117-124 | a first attempt starts at once and the k-th retry waits min(MaxDelay, Base * m^(k-1)) behind k transient failures of that same task |
| Safety.DeterministicFailureEndsThePlan | internal/loop/retry.go:80-93 | after a failure that was not transient, a low-confidence success included, nothing executes until a new plan has been made |
| ConfidenceGate.DoubtedRunsAgainIff | internal/loop/controller.go:291-298 | a task whose success the confidence gate doubts is executed again under its plan if and only if its outcome was transient, a retry is left, no bound trips on the way and, with reflection on, the reflector answers; then it is the next thing executed |
| Accounting.TheBooksBalance | internal/loop/controller.go:180-220 | Iterations = Completed + Failed + one unjudged outcome, cost = their costs + reasoning costs, Completed holds only successes and Failed only failures, in every reachable state |
| Accounting.CostOvershootIsBounded | internal/loop/stop.go:69-74 | planning, executing, evaluating and reflecting start only below a positive cap, and with calls of at most c the cost stays below the cap plus 2c |
| Termination.CappedRunEnds | internal/loop/stop.go:82-87 | with an iteration cap of M every run ends within 3M engine calls and never makes more than M executions, whatever the engines answer |
| Termination.CallsAreCounted | internal/loop/runner.go:107-129 | each turn that is not a stop spends one of at most 3M calls, counted off by iterations and phase |
| Termination.ReplanCappedRunEnds | internal/loop/stop.go:89-92 | a positive replan cap alone makes every run end, by a lexicographic measure of replans, planning, undone tasks, retries and phase |
| WorkBound.ReplansBoundTheWork | internal/loop/controller.go:355-362 | with a replan cap of R and plans of at most T tasks, the run ends, plans at most R times and executes at most R * T * (1 + MaxRetries) times |
| WorkBound.CirclesForever | internal/loop/controller.go:355-362 | with neither iterations nor replans capped, whatever the cost cap and the timeout, engines that bill nothing and always ask for a new plan are called at every turn for ever |
| WorkBound.EndsForSureIffCapped | internal/loop/stop.go:69-95 | for every configuration, every run ends if and only if iterations or replans are capped |
| Endings.EndsAreClassified | internal/loop/runner.go:240-274 | done means no reason or goal achieved, failed means critical failure, stopped means some other reason, and the error is nil exactly for done |
| Endings.BudgetStopsAreNeverDone | internal/loop/controller.go:94-103 | under a clock that does not run backwards and non-negative summary costs, a run in which a bound has tripped ends stopped, with a bound as its reason |
| Endings.AchievedUnlessOverBudget | internal/loop/controller.go:315-319 | a goal-achieving verdict ends the run done and achieved if and only if neither the cost nor the time bound has tripped at the next decision |
| Endings.FinishedIsDoneIffSummaryFits | internal/loop/controller.go:400-428 | a run that has finished its plan with nothing recorded against it ends done if and only if no bound has tripped when the summary is asked for, nor after it has been paid for |
| Endings.UnjudgedIffGivenUp | internal/loop/controller.go:94-103 | a run ends with an outcome nobody judged if and only if its last turn had one to judge and a bound had tripped or the evaluator broke |
| Endings.CapLeavesTheLastUnjudged | internal/loop/stop.go:82-87 | no verdict is asked for once the iteration cap is reached; the outcome of the execution that reaches it stays unjudged to the end |
| StuckPlans.TheOnlyRunIsUnjudged | internal/loop/stop.go:82-87 | a concrete run: with one iteration allowed, the one execution made ends the run stopped at max-iterations, its outcome neither completed nor failed |
| StuckPlans.DoneMeansCompletedIffAcyclic | internal/loop/controller.go:244-251 | for every valid plan: every orderly run that ends done with no reason on it holds a recorded success for each of its task IDs, if and only if the plan is acyclic |
| Replans.TasksRunUnlessReused | internal/loop/state.go:177-209 | a run that ends done with no reason on an acyclic plan has executed, under that plan, exactly the tasks whose IDs had not succeeded before the plan was taken |
| Replans.ReusedTaskNeverRuns | internal/loop/controller.go:355-362 | a concrete run: after a replan the only task of the new plan reuses a completed ID; the run ends done with no error, and that task never ran |
| StuckPlans.CycleEndsDone | internal/loop/loop.go:265-277 | a concrete run: a validated two-task cycle ends done after two turns, with no error, no execution and nothing completed |
| StuckPlans.AchievedButOverBudget | internal/loop/controller.go:315-319 | a concrete run in which the verdict that meets the goal costs the cap, and the run ends stopped by cost |
| StuckPlans.FinishedButOverBudget | internal/loop/controller.go:409-421 | a concrete run in which every task is done, the summary costs the cap, and the run ends stopped by cost |
| StuckPlans.DoubtedAndGivenUp | internal/loop/controller.go:291-298 | a concrete run in which a doubted success is given up after one execution with three retries left |
| Persistence.SavedStateIsLoaded | internal/loop/state.go:211-225 | a state saved as JSON, with zero fields left out, is loaded back exactly, pending outcome and verdict included, for every state whose numbers are floats |
| CrashResume.ResumedRunIsTheRun | internal/loop/state.go:56-65 | whatever crashes happen where, a run whose processes know only the text on disk is the run: what is loaded is the state as last advanced, and attempt numbers identify executions across the processes |
| CrashResume.AttemptsIdentifyExecutions | internal/loop/runner.go:154-160 | whatever crashes happen where, committed executions carry 0, 1, 2, ... and two dispatches share a number only if the earlier was lost and the later is the same task |
| CrashResume.PendingOutcomeIsNotReExecuted | internal/loop/state.go:85-96 | after any history of crashes, a saved outcome is next judged, or the run summarised; never executed again |
| Httpx.Do | internal/httpx/httpx.go:90-130 | the retry loop returns the specified number of attempts and error, and waits the specified total |
| Httpx.DoIsCharacterised | internal/httpx/httpx.go:90-130 | between one and max(1, Attempts) attempts; all but the last failed on something the policy repeats, and a policy that names nothing repeats nothing; it stops at the first that did not; success exactly when the last one succeeded; the last cause can still be found in the error |
| Httpx.TotalWaitIsBounded | internal/httpx/httpx.go:134-161 | with full jitter and no Retry-After, all the waiting together is at most min(Delay * (2^(A-1) - 1), (A-1) * 30s) |
| Streaming.OllamaScanIsContained | internal/ollama/ollama.go:388-421 | however the line loop is left, its content is the text it handed over, and an early failure after a token is one nobody repeats |
| Streaming.BedrockScanIsContained | internal/bedrock/bedrock.go:301-353 | the same for every sequence of events and every way the channel ends, and a success returns exactly the text handed over |
| Streaming.FinalIsNotRetried | internal/ollama/ollama.go:642-651 | an error that wraps a broken stream, or the caller's own refusal, is retried by neither provider nor the platform, whatever else it wraps |
| Streaming.OneBeginning | internal/ollama/ollama.go:345-460 | across all retries of either provider, every token handed to the sink came from the last attempt and no earlier one emitted any; success returns exactly that text; a failure after a token is not retryable for the platform either |
| DoneMarks.AgainIsExact | internal/ollama/ollama.go:423-452 | whatever the sink refuses, an attempt of either provider fails retryably exactly when its reply lets no token out and ends in a retryable way, read off the reply alone |
| DoneMarks.OnlyLastDeliversIffNoEarlierMark | internal/ollama/ollama.go:416-420 | on each run: no attempt before the last hands the sink anything, marks included, if and only if no reply before the last holds a done mark |
| DoneMarks.OnlyLastDeliversForSureIff | internal/bedrock/bedrock.go:342-344 | for each server: whatever the policy, the cancellations and the sink, only the last attempt reaches the sink, if and only if no reply with a done mark belongs to an opening run of quiet retryable ones |
| DoneMarks.DoneComesOnceForSureIff | internal/bedrock/bedrock.go:342-344 | for each server: whatever the policy, the cancellations and the sink, the sink is told "done" at most once, if and only if every opening run of quiet retryable replies, with the reply after it, holds at most one done mark in all |
| DoneMarks.OneReplyTwoMarks | internal/bedrock/bedrock.go:342-344 | a concrete server whose one successful reply holds two done marks: only the last attempt reaches the sink, and it is told "done" twice |
| DoneMarks.MarkedThenShutOut | internal/bedrock/bedrock.go:342-344 | a concrete server whose first reply holds a mark and is retried into a refusal: an earlier attempt reaches the sink, and it is never told "done" twice |
| DoneMarks.DoneMarkCanRepeat | internal/bedrock/bedrock.go:342-344 | a concrete server of each provider for which the sink is told "done" twice |
| Streaming.Stream.Emit | internal/ollama/ollama.go:406-414 | a token raises the flag before it is handed over; the flag is up exactly when a token has reached the sink |
| Streaming.Stream.ScanLines | internal/ollama/ollama.go:388-421 | the scan loop over the shared flag and sink does what the line-by-line specification says |
| Streaming.Stream.OllamaAttempt | internal/ollama/ollama.go:349-456 | one attempt: refused if anything was emitted before, else what it delivers, its error and its response are as specified; out is set only on success |
| Streaming.Stream.BedrockAttempt | internal/bedrock/bedrock.go:275-354 | the same for the event loop |
| Streaming.Stream.Run | internal/bedrock/bedrock.go:271-358 | the retry loop around stateful attempts makes the specified attempts, delivers the specified chunks, returns exactly the delivered text on success and a non-retryable error after an emitted token |
| ToolArguments.ValidateArguments | internal/llm/tools.go:220-270 | the three loops return the specified verdict, whatever the order in which the map is walked |
| ToolArguments.ValidationIsExact | internal/llm/tools.go:220-315 | no violation exactly when the arguments are an object (or null) with every required member, no unknown one, and every typed one of its type and in its enum; a violation names what really is wrong |
| ToolArguments.VerdictIgnoresKeyOrder | internal/llm/tools.go:220-270 | valid arguments that differ only in key order get the same verdict |
| ToolArguments.AcceptanceIgnoresOrder | internal/llm/tools.go:260-268 | they are both accepted or both refused even when their maps are walked in different orders |
| Json.RoundTrip | internal/llm/tools.go:174-186 | reading back what the encoder writes gives the same value, for every value the reader can produce |
| Json.ReadIsReadable | internal/llm/tools.go:174-180 | whatever the reader accepts is within its nesting limit and has its numbers in written form |
| IdempotencyKey.Rebuild | internal/llm/tools.go:188-206 | the recursive rebuilding by loops computes the canonical form |
| IdempotencyKey.CanonicalIffSame | internal/llm/tools.go:188-206 | two values have one canonical form if and only if they are equal up to key order at every depth, the last value of a repeated key counting |
| IdempotencyKey.CanonicalTextReadsBack | internal/llm/tools.go:174-186 | the canonical text of valid arguments is valid and reads as their canonical form; that of malformed arguments is malformed |
| IdempotencyKey.TextsIdentifyArguments | internal/llm/tools.go:174-186 | canonical texts agree if and only if both are valid and the same value, or both malformed and the same bytes |
| IdempotencyKey.DeriveIdempotencyKey | internal/llm/tools.go:158-166 | the key is the digest of correlation ID, name and canonical arguments joined by NULs |
| IdempotencyKey.KeysIdentifyCalls | internal/llm/tools.go:151-166 | for NUL-free correlation IDs and names, two hash inputs agree if and only if correlation ID, tool and arguments are the same |
| Framing.FramesAreInjective | internal/llm/tools.go:160-164 | joining with a NUL is unambiguous when the part before it has none |
| Conversation.FindSpec | internal/llm/tools.go:142-149 | the early-exit search returns the first spec of that name, or none |
| Conversation.RunOneTool | internal/llm/loop.go:225-302 | unknown tool, rejected arguments, broken runner or result, with the text handed back, the effect flag and the one call handed to the runner as specified |
| Conversation.RunCalls | internal/llm/loop.go:185-200 | the inner loop notes the effect before it looks at the error, and stops at the first broken call |
| Conversation.Converse | internal/llm/loop.go:104-222 | the conversation loop returns the specified conversation and error, sends the specified transcripts and runs the specified calls |
| Conversation.AbortConvo | internal/llm/loop.go:306-329 | the transcript is kept; every sentinel of the cause can still be found in the error; after committed effects it carries EffectsCommitted and is not retryable, and otherwise it is retryable exactly when the cause was |
| Conversation.BatchIsSound | internal/llm/loop.go:185-200 | unless the runner breaks, each call is answered in order under its ID and name, by the runner's reply to that very call or by the refusal that names its tool or its violation; the runner was handed exactly the runnable calls |
| Conversation.ConversationFollowsProtocol | internal/llm/loop.go:104-222 | each request is the whole transcript so far; at most Iterations() model calls, none past the cost bound; usage is the sum over calls; the transcript ends on an answer, on a fully answered turn, or on a dangling question exactly when the runner broke |
| Conversation.EffectsReachTheRetryDecision | internal/llm/loop.go:186-200 | the flag is up exactly when the runner was handed a conforming call of a known Write tool; an error after that carries EffectsCommitted; an error Retryable accepts means no Write tool ran in any turn |
| Conversation.EveryRunIsChecked | internal/llm/loop.go:250-264 | whatever the model asks for, the runner is handed only known tools with conforming arguments and their derived key |
| Brackets.Check | internal/format/format.go:271-301 | the loop with its stack and quote flag returns the specified verdict |
| Brackets.CheckIsExact | internal/format/format.go:271-301 | accepted if and only if the double quotes pair up and the brackets outside them derive from S -> empty, S S, (S), [S], {S} |
| Brackets.UnbalancedMeansHopeless | internal/format/format.go:287-290 | "unbalanced" is reported exactly when no continuation could repair the text, and names the first character that made it so |
| Changelog.ClaimedTypes | internal/changelog/category.go:144-152 | exactly the types some category names |
| Changelog.Dedupe | internal/changelog/category.go:189-205 | keeps exactly the first item of each key, in order |
| Changelog.FirstsAreFirsts | internal/changelog/category.go:183-188 | the items kept are all those with no earlier item of their key, each once, in order |
| Changelog.KeyIdentifiesScopeAndTitle | internal/changelog/category.go:197-200 | for NUL-free scopes, two items share a key exactly when scope and title are equal |
| Changelog.ItemsFor | internal/changelog/category.go:163-171 | the entries of a category, repeats removed, in order |
| Changelog.BreakingItems | internal/changelog/category.go:173-181 | the breaking entries with their notes, repeats removed, in order |
| Changelog.Groups | internal/changelog/category.go:120-137 | a callout when anything is breaking, then one non-empty group per visible category with entries, in layout order |
| Changelog.Statistics | internal/changelog/stats.go:30-52 | commits, breaking changes, and one count per category with a commit, hidden ones included, in layout order |
| Changelog.NothingDroppedIffPartition | internal/changelog/category.go:154-161 | the counts add up to the number of commits of every release if and only if no type is claimed twice and there is a catch-all |
| Changelog.OneHomeEach | internal/changelog/category.go:154-161 | in such a layout every entry belongs to exactly one category |
| Changelog.DefaultLayoutDropsNothing | internal/changelog/category.go:54-71 | the built-in layout counts every commit of every release exactly once |
| Changelog.DedupeKeepsAllIff | internal/changelog/category.go:189-205 | removing repeats keeps every item if and only if no two share a key |
| Changelog.NotesMatchStatistics | internal/changelog/stats.go:13-52 | what Groups and Statistics return agree: a callout comes first exactly when a breaking change is counted; after it the groups stand in order for exactly the counts of visible categories, under the same key, with at least one item and at most the count, and with the count exactly when no two of the commits share a key |
| Changelog.RepeatedCommitDisagrees | internal/changelog/stats.go:13-14 | a commit that occurs twice is counted twice and listed once |

## Left out

- Of the saved state: the fields no decision reads (workflow and agent IDs, the repository's name, branch and commit, parameters, durations); texts Marshal does not write, with keys that differ in case, repeated objects, negative counters or stop reasons of other names; instants past the year 9999 and floats that are not finite, which Marshal refuses.
- Where the source assigns the fields of its own copy of the state with no loop, the handler is one datatype update; the order of the assignments is not captured.
- How a tool name is quoted and a schema violation worded in the text handed back to the model are parameters.
- The order in which Go walks a map is a parameter, the same whenever the same members are walked.
- Engines, provider calls, tool runs, sinks, the clock and cancellation are oracles; HTTP, the AWS SDK, TLS, timers, goroutines and the classification of transport errors are not modelled.
- What a priced engine reports is part of its answer; an engine that reports no price answers with a cost of zero.
- Rounding of floating-point numbers and 64-bit overflow of durations, counters and delays.
- SHA-256 and its truncation are one abstract function; the theorem is about its input.
- How a float64 is read and written is a parameter assumed only to read back what it writes; whether a number is whole is another.
- Texts are sequences of Unicode scalar values, so invalid UTF-8, in raw arguments or in a state to be saved, is outside the model.
- Human-readable reasons, log lines, metrics, durations and traces; the wording of the fallback summary's narrative and of the confidence gate's note is shortened.
- Of release notes: rendering, links, commit parsing and templates; items carry their fields instead of their rendered text.
- Of diagram checking: the Mermaid header and table checks around the bracket checker.
- The router, the adapters, the command-line programs and configuration parsing; the range checks of configuration appear as hypotheses where a theorem needs them.
