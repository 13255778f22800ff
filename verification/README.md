# JobPilot agent runtime: a Dafny model

JobPilot's agent runs tools for its users. A run can pause for the user's approval, be continued from a checkpoint after
it, and recover from tool failures, under a call budget and per-skill permissions. This project models that runtime and
proves what its protocol keeps over whole histories, together with the loops and scanners around it.

| modules | what they model |
|---|---|
| `Values`, `Text` | JSON-like values, options, stripping of white space |
| `AgentStates`, `Checkpoints` | the agent state, its dictionary, and the checkpoint table with its clock |
| `ToolPermissions`, `Guardrails` | merged skill permissions and the tool guard |
| `ToolRuntime`, `ApprovalWorkflow` | one entry of the tool node; starts, pauses, continuations and finalizing, as functions of the database |
| `RunHistory`, `RunBudget` | every history of requests: confirmation, at most one continuation, transcript, identifiers, logged budget |
| `RunExecutions`, `RunOverspend`, `RunReplays` | every execution of a run, unlogged and rolled-back ones included, against the call budget |
| `AgentService` | the same requests as methods over rows updated in place, each proved equal to its function; the service keeps what every history keeps |
| `NativeLoop`, `ToolAliases`, `Retries` | the native tool loop, the aliases offered to the model, the executor's transient retries |
| `StdioSession` | the persistent stdio session: submitters, closers and a worker, interleaved step by step |
| `PayloadSearch`, `FilesystemContract` | searches over nested payloads; the read-before-write contract |
| `EventStream`, `SqlStripper`, `OutputSanitizer` | the event-stream reader, the SQL comment and literal stripper, the final-answer filter |
| `Delegations`, `CompanyList` | the delegation summaries and the company list, as group-bys |

## How to read it

Requests are modelled one at a time. A request that raises is rolled back, but the effects its executors had in the world
remain. The model, the executors, payload reading, the tool-choice runner's decisions and the result evaluator are
oracles: they answer anything, at any point. The database service is modelled by its writes: an approval is inserted as a
fresh PENDING row its workflow names while it waits, deciding it also sets its workflow running or canceled, and tool
calls get fresh ids; rows are named by their position. Only executors raise inside the node.

Where the code does less than one might expect, the model follows the code and says so:

* Checkpoint stamps are compared in memory but stored at the column's precision. A save whose reading lies inside the
  stored unit of the latest row ties with it, and the older state may be resumed (`SameSecondResumesOlder`); order holds
  exactly when no save is like that (`HistoryOrderedIffSeparated`). A paused run resumes from its pause all the same
  (`EveryPauseCanContinue`).
* A call that the guard checked and that pauses in the filesystem executor has run but leaves no log, so the budget does
  not count it. `BudgetHoldsIff` says exactly which deployments can exceed the budget that way, and
  `NeverMoreThanOneOver` by how much.
* A continuation that is rolled back after its tool ran leaves its approval pending and no log, so it can run again
  beyond the budget (`TwiceOnABudgetOfOne`); `RollbackKeepsBudgetIff` says exactly when it cannot.
* A continuation always finalizes its run, even when the resumed step paused again; the second approval can then never
  be accepted (`AtMostOneContinuation`), and the first one's row is deleted, because a workflow has one approval
  (models.py:99-103). The endpoints look that row up again and roll back when it is gone (agent.py:1405-1408), which the
  model allows but does not force.
* A model loop that aborts on an integration error returns the state from before it, though its logs are written.
* After a stop, a worker that fails still drains its whole queue, and requests put after the worker is gone wait for
  their own timeouts (`FailureAfterStopDrainsTwo`, `GoneResolvesNothing`); `StopBoundsIff` says exactly how many requests
  a stop still resolves.
* A policy's snapshot does not always keep its skill id (`SkillIdKeptIff`).
* A tool payload without a top-level `ok` counts as ok, so a failure that is only nested clears the filesystem contract
  (`NestedFailureClears`); a failed read can still upgrade it (`FailedReadUpgrades`).
* Aliases and raw names share one map, so one tool's name can be overwritten by another's alias
  (`EachResolvesIffNoneTaken`, `DottedNameIsShadowed`).
* In the native loop, an entry that stopped without a log counts as executed once an earlier call was logged, and a pause
  traces a CALL_TOOL entry that the executed names leave out (`RoundsKeep`).
* A literal removal marker in an answer is dropped without being reported (`MarkerAloneIsSilent`).

## Model

| member | source | states |
|---|---|---|
| RunHistory.ContinuationIsChecked | apps/api/app/agent_runtime/graph_factory.py:453-613 | A continuation is refused, before any write or effect, unless the approval is pending, the workflow waits for the user at wait_confirmation and the latest checkpoint names the same approval; an exception rolls everything back; if it returns, exactly this approval is decided, or its row deleted when the resumed child asked again and a new one replaced it, and exactly its run is completed or canceled. |
| RunHistory.AtMostOneContinuation | apps/api/app/agent_runtime/graph_factory.py:482-613 | In every history of starts, continuations and chat messages, two accepted continuations are of different runs and of different approvals, even when the resumed step paused again. |
| RunHistory.PlayGrows | apps/api/app/agent_runtime/graph_factory.py:360-613 | Over a whole history, ended runs, tool logs and messages are never rewritten, and an approval that is no longer pending stays as it was decided, or deleted where the one-to-one relationship replaced it. |
| RunHistory.ContinuationEffects | apps/api/app/agent_runtime/graph_factory.py:573-603 | One request: an accepted approval enters the tool node exactly once, confirmed, with the payload's tool and input, falling back to the approval's action type and the checkpointed tool; a rejected one runs nothing; a resumable child agent is resumed once instead. |
| RunHistory.EachAttemptActsOnce | apps/api/app/api/v1/agent.py:1390-1415 | Over every history: the tool of an approval is entered exactly as often as it has approving continuations that were not refused, rolled-back ones included, or its child resumed as often as it has continuations that were not refused; at most one of them is accepted, and then the approval is pending no more. |
| RunHistory.EveryEffectIsAuthorised | apps/api/app/agent_runtime/agent_as_tool.py:842-881 | In every history, whatever requires confirmation is executed only confirmed, and an effect is confirmed only in a start the user confirmed or in the approved continuation of a pending approval, for that run and the tool it names; this holds for rolled-back requests too. |
| RunHistory.StartTouches | apps/api/app/agent_runtime/graph_factory.py:960-1068 | A start is never refused; rolled back it leaves the database as it was, committed it touches only its own new run, and nothing it does is confirmed unless the user's command was. |
| RunBudget.EveryPauseCanContinue | apps/api/app/agent_runtime/graph_factory.py:453-613 | In every history, under any clock, a run that waits for confirmation names a pending approval of its own that a continuation accepts, over a checkpoint holding the ids of all its logs: no pause is lost to other requests, ties of its stamp or later saves. |
| RunBudget.PauseIsResumed | apps/api/app/agent_runtime/checkpoints.py:72-108 | A paused run's latest checkpoint is its pause, because no run's stamps fall and no other row of it has that step as its key. |
| RunBudget.PausedStartCanContinue | apps/api/app/agent_runtime/graph_factory.py:985-1068 | A committed start leaves an approval that a continuation accepts exactly when its tool work ended waiting for confirmation. |
| RunBudget.TranscriptIsPaired | apps/api/app/agent_runtime/graph_factory.py:5713-5762 | In every history, under any clock, each tool log has exactly one TOOL_CALL message, directly followed by the TOOL_RESULT that names it as parent, and no tool message is stray. |
| RunBudget.EveryRunIsTraced | apps/api/app/agent_runtime/graph_factory.py:3855-4404 | In every history, under any clock, a run's checkpoints hold tool call ids that only grow by appending and are the first ids of that run's own logs; the logged guard-checked executions of its committed requests never exceed the call budget, continuations included. Unlogged and rolled-back executions are what `NeverMoreThanOneOver` counts. |
| RunOverspend.BudgetHoldsIff | apps/api/app/agent_runtime/guardrails.py:120-134 | The guard-checked executions of a run, committed or rolled back, logged or not, stay within the budget plus those of its rolled-back continuations, in every history, exactly when the deployment cannot overspend: no guard-checked tool bound to the filesystem executor can be called from the model's loop and, with a budget of one call, none can be called first and leave a pause whose continuation can run a tool. The same condition is exact for the budget alone over the histories in which no continuation was rolled back after executing. |
| RunOverspend.NeverMoreThanOneOver | apps/api/app/agent_runtime/guardrails.py:120-134 | In every deployment and every history, a run's guard-checked executions exceed the budget by at most one, not counting those of its rolled-back continuations, of which each executed once at most. |
| RunReplays.RollbackKeepsBudgetIff | apps/api/app/api/v1/agent.py:1390-1415 | Whatever is rolled back, a run's guard-checked executions stay within the budget in every history exactly when no continuation can run a tool that the guard checks. |
| RunReplays.ReplaysAddUp | apps/api/app/api/v1/agent.py:1390-1415 | The failing family: a start that asks first and n approved continuations of its approval, each rolled back, execute the tool n times and leave the approval pending. |
| RunReplays.TwiceOnABudgetOfOne | apps/api/app/api/v1/agent.py:1390-1415 | One such history, on a deployment that cannot overspend: a budget of one call, and two executions. |
| RunReplays.RepositoryBudget | apps/api/app/agent_runtime/guardrails.py:47-68 | With the repository's own names and guard settings, and nothing but the filesystem skill on its executor, no run of any history executes more than ten calls under the guard, but for those of rolled-back continuations. |
| RunExecutions.ExecutionsSplit | apps/api/app/api/v1/agent.py:1390-1415 | Every guard-checked execution of a run belongs to a committed request or to a continuation that was rolled back, once each. |
| RunOverspend.StartAlone | apps/api/app/agent_runtime/graph_factory.py:960-1068 | A start, committed or rolled back, executes no more under the guard than the budget allows, and at most its last execution is without a log. |
| RunOverspend.OverspendingHistory | apps/api/app/agent_runtime/graph_factory.py:4067-4094 | The failing family: wherever the deployment can overspend there is a start and one approved continuation, both committed, that execute one guarded call more than the budget. |
| RunOverspend.NodeSpends | apps/api/app/agent_runtime/graph_factory.py:3855-4404 | One entry of the node executes at most once under the guard, only with room in the budget, and leaves no log only where such a tool pauses. |
| RunOverspend.ContinueSpends | apps/api/app/agent_runtime/graph_factory.py:482-613 | A continuation executes at most once under the guard, only where the guard and the runtime let its approval's tool run, confirmed, from its source, and only with room left by its run's logs. |
| RunBudget.StartKeepsInv | apps/api/app/agent_runtime/graph_factory.py:960-1068 | A committed start keeps the invariant of paused runs, checkpoint rows and logs, and stays within the budget. |
| RunBudget.ContinueKeepsInv | apps/api/app/agent_runtime/graph_factory.py:482-613 | A committed continuation keeps that invariant, and what it spends fits what its run's logs had left. |
| ToolRuntime.NodeAdvances | apps/api/app/agent_runtime/graph_factory.py:3855-4404 | One entry of the tool node, whatever the executor answers: workflows, approvals and checkpoints untouched, logs and messages only appended in pairs, ids in step with the run's logs, confirmation and guard respected, and one of three next steps. |
| ToolRuntime.NodeReports | apps/api/app/agent_runtime/graph_factory.py:4066-4404 | One entry records at most one log, of this tool and run; it reports success exactly when the executor ran and returned an ok result that asks neither for an approval nor for input; without a log, the node stopped before the runtime or a filesystem call paused. |
| ToolRuntime.RecordKeepsPaired | apps/api/app/agent_runtime/graph_factory.py:5713-5762 | Recording a tool call keeps every log with exactly one adjacent, parent-linked message pair. |
| ApprovalWorkflow.WorkAdvances | apps/api/app/agent_runtime/graph_factory.py:1071-1154 | The requested tool, its recovery and the model's loop together advance a run like single entries do; an aborted loop returns an earlier state that does not wait. |
| ApprovalWorkflow.LoopStops | apps/api/app/agent_runtime/loop_agent/controller.py:177-240 | A call that waits for the user is the last one the model's loop makes. |
| AgentService.Service.ContinueWorkflow | apps/api/app/agent_runtime/graph_factory.py:482-613 | The request on rows updated in place: the same answer, database and effects as the specification, refusals before any write, rollback after an exception. Over the requests the service has served: the approval of a paused run is never refused, no run or approval is accepted twice, and the invariant of runs holds again. |
| AgentService.Service.ProceedAfterApproval | apps/api/app/agent_runtime/graph_factory.py:531-613 | The writes of a continuation whose checks have passed, in the code's order. |
| AgentService.Service.RunAgentWorkflow | apps/api/app/agent_runtime/graph_factory.py:303-326 | The start request on rows updated in place equals its specification, and leaves the invariant of runs, with every paused run's approval ready to be continued. |
| AgentService.Service.MaybeToolNode | apps/api/app/agent_runtime/graph_factory.py:3855-4404 | The node on the database's rows equals its specification: validation, guard, runtime permission, executor, log and message pair. |
| AgentService.Service.ResumeSdkAgent | apps/api/app/agent_runtime/graph_factory.py:647-947 | Resuming a child agent records its call, and a further approval request it surfaces is recorded and requested. |
| AgentService.Service.ToolChoiceLoop | apps/api/app/agent_runtime/graph_factory.py:1436-1663 | The model's loop on the database's rows, up to the first call that waits. |
| AgentService.Service.RecoverExplicitTool | apps/api/app/agent_runtime/graph_factory.py:1071-1154 | The recovery of an explicit tool call on the database's rows. |
| AgentService.Service.PauseForApproval | apps/api/app/agent_runtime/graph_factory.py:278-300 | A pause recorded in the metadata wins over the fallbacks; the approval is requested and the state naming it is saved. |
| AgentService.Service.ConcludeWork | apps/api/app/agent_runtime/graph_factory.py:985-1068 | Where the tool work ended decides between pausing, waiting for input and finalizing. |
| AgentService.Service.SaveState | apps/api/app/agent_runtime/graph_factory.py:7015-7022 | The workflow row takes the state's step and the state is saved under it, its stamp moved in place when the clock did not advance. |
| Checkpoints.HistoryOrderedIffSeparated | apps/api/app/agent_runtime/checkpoints.py:31-59 | Over every history of saves of any runs, step moves and new sessions, under any clock, the stored stamps of every run strictly increase exactly when each save's clock reading is not inside the stored unit of the run's latest row. |
| Checkpoints.SaveKeepsRising | apps/api/app/agent_runtime/checkpoints.py:31-59 | Whatever the clock reads, a save is stored no earlier than any row of its run. |
| Checkpoints.OnlyStepRowIsResumed | apps/api/app/agent_runtime/checkpoints.py:88-108 | A run's last row is resumed, ties or not, when it alone has the workflow's current step as its key. |
| Checkpoints.SaveOrders | apps/api/app/agent_runtime/checkpoints.py:31-59 | The same for one save: ordered after it if and only if the reading is separated. |
| Checkpoints.ResumesLastSaved | apps/api/app/agent_runtime/checkpoints.py:61-108 | After such a history, loading a run gives exactly the state it saved last, normalised. |
| Checkpoints.ExactClockSeparates | apps/api/app/agent_runtime/checkpoints.py:40-46 | A clock read at the column's own precision is always separated, even when it repeats or goes back. |
| Checkpoints.LatestIsNewest | apps/api/app/agent_runtime/checkpoints.py:72-108 | A run has a latest row if and only if it has rows; it is a newest one, keyed by the workflow's current step whenever a newest one is, and ties go to the largest id. |
| Checkpoints.TieBreak | apps/api/app/agent_runtime/checkpoints.py:88-108 | A new row that ties with the latest replaces it exactly when the older row has another key or a smaller id. |
| Checkpoints.UnseparatedSaveTies | apps/api/app/agent_runtime/checkpoints.py:40-46 | A reading inside the stored unit of the latest row ties with it. |
| Checkpoints.SameSecondResumesOlder | apps/api/app/agent_runtime/checkpoints.py:40-46 | A concrete tie: on a column of whole seconds, two saves of one second, the second in a new session, resume the older state. |
| Checkpoints.OtherRunsUntouched | apps/api/app/agent_runtime/checkpoints.py:72-108 | A row of one run changes neither another run's order nor what it resumes from. |
| Checkpoints.CheckpointStore.SaveState | apps/api/app/agent_runtime/checkpoints.py:31-59 | The insert and the in-place bump give exactly the specified table, and the snapshot returned holds the normalised state. |
| Checkpoints.CheckpointStore.LatestCheckpoint | apps/api/app/agent_runtime/checkpoints.py:72-108 | The store's lookup is the specified one. |
| Checkpoints.CheckpointStore.LoadLatest | apps/api/app/agent_runtime/checkpoints.py:61-70 | Not found exactly when the run has no row; otherwise a newest row, read back. |
| AgentStates.RoundTrip | apps/api/app/agent_runtime/state.py:35-82 | A state written to its dictionary and read back, through the language's own conversions, is the normalised state, and the same state exactly when its defaulted texts are not empty. |
| AgentStates.LoadedIsStable | apps/api/app/agent_runtime/state.py:60-82 | What loads from a dictionary, its entries converted where they have another type, survives writing and reading again. |
| AgentStates.UpdatesCompose | apps/api/app/agent_runtime/state.py:30-33 | Two updates through the checkpoint dictionary are one update with the later changes on top. |
| ToolPermissions.MergedDecision | apps/api/app/agent_runtime/tool_permissions.py:55-132 | What merged skills decide for a tool, said of the skills themselves: denied when some skill denies it or restricts without any listing it, asked when unconfirmed and some skill asks, allowed otherwise. |
| ToolPermissions.MergedDeniesIffSomeSkillDenies | apps/api/app/agent_runtime/tool_permissions.py:55-132 | A merged policy lists a tool as denied exactly when one of its skills does. |
| ToolPermissions.DecisionIgnoresSkillOrder | apps/api/app/agent_runtime/tool_permissions.py:55-132 | Decisions do not depend on the order or repetition of the loaded skills. |
| ToolPermissions.SnapshotKeepsDecisions | apps/api/app/agent_runtime/tool_permissions.py:80-100 | A policy written to its snapshot and reloaded decides every tool alike. |
| ToolPermissions.SkillIdKeptIff | apps/api/app/agent_runtime/tool_permissions.py:56-100 | The skill id survives the snapshot exactly when a single loaded id is stripped, and when several ids do not all strip to one name. |
| ToolPermissions.SnapshotMayNameASkill | apps/api/app/agent_runtime/tool_permissions.py:80-100 | A concrete loss: one skill loaded twice has no skill id before the snapshot and one after. |
| ToolPermissions.ConfirmationOnlyAllows | apps/api/app/agent_runtime/tool_permissions.py:102-132 | A confirmed call is never asked about, and confirmation changes nothing else. |
| ToolPermissions.FromLoadedSkills | apps/api/app/agent_runtime/tool_permissions.py:56-77 | The loop over the loaded skills builds the merged policy. |
| ToolPermissions.Dedupe | apps/api/app/agent_runtime/tool_permissions.py:154-162 | The loop keeps first occurrences, in order. |
| Guardrails.PassesIff | apps/api/app/agent_runtime/guardrails.py:101-200 | A call passes exactly when it is registered, within budget, not denied, from an allowed source, and confirmed wherever confirmation is due. |
| Guardrails.ConfirmationIsMonotone | apps/api/app/agent_runtime/guardrails.py:101-213 | What passes unconfirmed passes confirmed, and a confirmed check never asks for confirmation again. |
| Guardrails.GuardIgnoresSkillOrderAndSnapshot | apps/api/app/agent_runtime/guardrails.py:101-213 | The guard's verdict is the same for every order of the skills and after the policy's snapshot. |
| Retries.CallWithRetries | apps/api/app/agent_runtime/agent_as_tool.py:396-440 | Under any policy as its constructor keeps it, the executor is called exactly k times, one to five, k the first attempt that is not transient or the limit; the exception, plain, annotated or exhausted ending is the one that attempt calls for, with records numbered from 1; the sleeper's calls add up to the specified backoff. |
| Retries.BackoffBound | apps/api/app/agent_runtime/agent_as_tool.py:582-594 | Total backoff of n failures is base times 2^n - 1 uncapped, and never more than that nor, capped, than n times the cap. |
| Retries.CapUnreached | apps/api/app/agent_runtime/agent_as_tool.py:582-594 | While the last uncapped delay stays under the cap, the cap changes nothing. |
| Retries.RecoveredIff | apps/api/app/agent_runtime/agent_as_tool.py:526-579 | `recovered` holds exactly when a result that is not a transient failure followed an error, and records are numbered consecutively. |
| Retries.StopIsUnique | apps/api/app/agent_runtime/agent_as_tool.py:396-440 | Where the loop stops is determined by the answers alone. |
| Retries.ClampedIsValid | apps/api/app/agent_runtime/agent_as_tool.py:218-221 | A policy's constructor keeps one to five attempts and no negative delay, and leaves a policy that is so as it is. |
| NativeLoop.LoopIsBounded | apps/api/app/agent_runtime/graph_factory.py:2475-2762 | Whatever the model, tools and evaluator answer: the loop ends; node entries are at most the steps plus the retry budget shared by all rounds, each on an allowed capability, unconfirmed and executing at most once; the model is asked at most two times more than there are steps; and the run advances as by single node entries. |
| NativeLoop.RoundsKeep | apps/api/app/agent_runtime/graph_factory.py:2503-2731 | What every prefix of rounds keeps: trace iterations are 1..n, CALL_TOOL entries match node entries but for an aborted one, executed names match them but for a paused one, and after a round a last recorded call exists. |
| NativeLoop.ClosingNamesLastCall | apps/api/app/agent_runtime/graph_factory.py:2734-2762 | A loop that closes names the last call it recorded, its executed names are those of its CALL_TOOL entries, and it reports an exhausted budget only when it had more than one step. |
| NativeLoop.RunLoop | apps/api/app/agent_runtime/graph_factory.py:2501-2762 | The outer loop over the loop's own variables computes the specified run. |
| NativeLoop.RetryWhile | apps/api/app/agent_runtime/graph_factory.py:2640-2731 | The inner loop stops on an exit, on a result that needs no retry, or when the shared budget is spent. |
| NativeLoop.PolicyIsBounded | apps/api/app/agent_runtime/loop_agent/react_strategy.py:20-40 | An enabled policy allows one to five steps, and only the web search; a retry budget is at most three. |
| NativeLoop.NativeToolLoopNode | apps/api/app/agent_runtime/graph_factory.py:2435-2500 | No change without an enabled policy and a registered tool; with one, at most eight executions and seven completions, all entries on the web search and unconfirmed. |
| ToolAliases.PickAlias | apps/api/app/agent_runtime/graph_factory.py:2943-2948 | The numbered-alias loop ends, because the aliases it tried are distinct and all used, and it returns the first free one. |
| ToolAliases.BuildBundle | apps/api/app/agent_runtime/graph_factory.py:2935-2962 | One offer per registered name, in order, each under its first free alias; the resolution map is what those writes leave. |
| ToolAliases.AliasesAreDistinct | apps/api/app/agent_runtime/graph_factory.py:2935-2967 | Offered aliases are pairwise distinct, nonempty and made of the characters providers allow. |
| ToolAliases.EachResolvesIffNoneShadowed | apps/api/app/agent_runtime/graph_factory.py:2935-2962 | Every offered alias and every raw name resolves to its own capability exactly when no alias is the name of another capability. |
| ToolAliases.EachResolvesIffNoneTaken | apps/api/app/agent_runtime/graph_factory.py:2935-2967 | The same, decided by the registered names alone: exactly when no name's planned alias, the first free numbering of its cleaned form, is another registered name. |
| ToolAliases.OfferedAsPlanned | apps/api/app/agent_runtime/graph_factory.py:2935-2962 | The bundle offers each name under its planned alias. |
| ToolAliases.SafeNamesKeepTheirNames | apps/api/app/agent_runtime/graph_factory.py:2965-2967 | Distinct names that are aliases already are offered as themselves, so each resolves to its own. |
| ToolAliases.DottedNameIsShadowed | apps/api/app/agent_runtime/graph_factory.py:2935-2967 | The failing input: with `a.b` and `a_b` registered, the alias offered for `a.b` calls `a_b`. |
| ToolAliases.SafeAliasIsSafe | apps/api/app/agent_runtime/graph_factory.py:2965-2967 | A base alias has one to sixty-four allowed characters. |
| StdioSession.EveryRunIsFair | apps/api/app/mcp_gateway/stdio_client.py:71-144 | In every interleaving of submitters, closers, worker and failure: futures resolve in the order their requests were put, each at most once; accepted requests are the resolved ones, the one in hand and the queued ones, in that order; after stop at most one more is served; nothing is drained without a failure. |
| StdioSession.StopBoundsIff | apps/api/app/mcp_gateway/stdio_client.py:71-144 | Once stop is set, at most n more requests are resolved, whatever the interleaving, exactly when the worker is gone or at most n are in its hand, queued, or about to be put by a submitter past its checks; for one request this is the exact condition of a clean stop. |
| StdioSession.AllResolved | apps/api/app/mcp_gateway/stdio_client.py:82-144 | All of those can indeed be resolved: every submitter puts, the worker serves what it holds, fails, and drains. |
| StdioSession.FailureDrains | apps/api/app/mcp_gateway/stdio_client.py:90-144 | A failed worker resolves everything still queued, in order, whether or not stop was set. |
| StdioSession.FailureAfterStopDrainsTwo | apps/api/app/mcp_gateway/stdio_client.py:82-144 | So stop does not bound what is resolved: an interleaving in which two requests are resolved after stop, by a failure. |
| StdioSession.GoneResolvesNothing | apps/api/app/mcp_gateway/stdio_client.py:71-80 | Once the worker is gone, nothing more is resolved; what is queued then waits for its own timeout. |
| StdioSession.TakeKeepsInv | apps/api/app/mcp_gateway/stdio_client.py:71-144 | Every single step of any thread keeps the partition, the tracking of submitters and the bound after stop. |
| StdioSession.Transport.GetSession | apps/api/app/mcp_gateway/stdio_client.py:186-201 | At most one session per server key, reused or created, and no two keys share one. |
| StdioSession.Transport.Close | apps/api/app/mcp_gateway/stdio_client.py:179-184 | Every held session is handed over for closing, and none twice. |
| EventStream.StreamMessages | apps/web/src/api/agent.ts:98-134 | However the decoded text was cut into chunks, the handlers' calls and the ending are those of splitting the whole text once and dropping a blank last part. |
| EventStream.CutThenContinue | apps/web/src/api/agent.ts:109-134 | Splitting a text and then splitting its open last part together with what follows is splitting the whole. |
| EventStream.CompletesIff | apps/web/src/api/agent.ts:109-177 | Reading ends normally exactly when no dispatched part throws and some dispatched part is a terminal event. |
| EventStream.TerminalState.DispatchAll | apps/web/src/api/agent.ts:118-177 | Dispatching in order with a shared terminal flag, up to the first exception, is the specified run. |
| SqlStripper.StripCommentsAndLiterals | apps/api/app/mcp_gateway/dbx_readonly.py:169-209 | The index loop ends and computes the recursive reading of code, quotes and comments. |
| SqlStripper.StripsEverySegmentation | apps/api/app/mcp_gateway/dbx_readonly.py:169-209 | For any segmentation of a query into code, quoted, line-comment and block-comment regions, doubled quotes, backslash escapes and unterminated regions included, the output is the code with one space per region. |
| SqlStripper.HasSegmentation | apps/api/app/mcp_gateway/dbx_readonly.py:169-216 | Every query has such a segmentation. |
| SqlStripper.BareIsUnmarked | apps/api/app/mcp_gateway/dbx_readonly.py:169-209 | The output has no quote, no hash, no `--` and no comment opening. |
| SqlStripper.StrippingIsIdempotent | apps/api/app/mcp_gateway/dbx_readonly.py:169-209 | Stripping a stripped query changes nothing. |
| SqlStripper.VerdictIgnoresRegions | apps/api/app/mcp_gateway/dbx_readonly.py:136-157 | The query verdict is unchanged by editing or replacing any literal or comment. |
| SqlStripper.AllowedIff | apps/api/app/mcp_gateway/dbx_readonly.py:136-157 | A query is allowed exactly when its code is a read, alone, without a write or locking keyword. |
| PayloadSearch.Search | apps/api/app/agent_runtime/graph_factory.py:3472-3488 | On any finite heap of dictionaries, shared and cyclic ones included, the breadth-first loop ends; it finds nothing exactly when nothing reachable through the child keys matches, and else a match with none nearer. |
| PayloadSearch.FirstNestedField | apps/api/app/agent_runtime/graph_factory.py:1665-1683 | The field of a closest dictionary that has it, if and only if a reachable one does. |
| PayloadSearch.NoDeadEndOutcome | apps/api/app/agent_runtime/graph_factory.py:3472-3488 | A closest recoverable outcome, if and only if one is reachable. |
| PayloadSearch.Frontier | apps/api/app/agent_runtime/graph_factory.py:3472-3488 | A reachable node that is not yet visited in time is still behind the queue's first distance. |
| FilesystemContract.EveryRunKeepsFlagsApart | apps/api/app/agent_runtime/graph_factory.py:1157-1302 | Over any sequence of arm and observe steps, awaiting a write and requiring a follow-up are never both set, and no other metadata changes. |
| FilesystemContract.TakeMoves | apps/api/app/agent_runtime/graph_factory.py:1157-1302 | One step, completely: the rank it leads to, from the rank before, for each kind of observation. |
| FilesystemContract.RankOnlyFallsByMutation | apps/api/app/agent_runtime/graph_factory.py:1157-1302 | Between any two points of a run without an accepted copy or rename in between, the rank has not fallen. |
| FilesystemContract.FallsIffVerifiedMutation | apps/api/app/agent_runtime/graph_factory.py:1230-1242 | A step lowers the rank exactly when it observes a copy or rename accepted as ok and there was something to lower, and then no contract is left. |
| FilesystemContract.VerifiedUpgradeKeepsPathIff | apps/api/app/agent_runtime/graph_factory.py:1199-1229 | Whatever metadata the run began with, the upgrade by a verified read keeps a candidate's path exactly when it is a string with no white space around it. |
| FilesystemContract.EveryPathIsStripped | apps/api/app/agent_runtime/graph_factory.py:1157-1302 | Over any arm and observe steps from metadata without a contract, every contract, candidate or awaiting, holds a stripped path. |
| FilesystemContract.PathSurvives | apps/api/app/agent_runtime/graph_factory.py:1157-1302 | Over any such steps, once a contract holds a nonempty path, every later step keeps it, verified-read upgrades included, until an accepted copy or rename clears the contract or a failed read on the way to one replaces it. |
| FilesystemContract.NestedFailureClears | apps/api/app/agent_runtime/graph_factory.py:5785-5788 | The default to ok at the top level: a copy whose failure is only nested clears an awaited write. |
| FilesystemContract.FailedReadUpgrades | apps/api/app/agent_runtime/graph_factory.py:1243-1274 | A failed read still makes a write awaited when the call named a mutation, and drops the candidate's path. |
| Delegations.SummarizeRuntimeDelegations | apps/web/src/app/runtimeDelegations.ts:28-103 | The fold over a mutable map is the group-by: runs in first-appearance order, each with its first capability, its first name that is not a placeholder, its last lifecycle status, its distinct started calls and its last event. |
| Delegations.AppendTouchesOneRun | apps/web/src/app/runtimeDelegations.ts:28-71 | Appending an event changes the summary of its own run only, and adds at most that run, at the end. |
| Delegations.ReorderingKeepsSummaries | apps/web/src/app/runtimeDelegations.ts:28-71 | Events may be reordered as long as each run keeps its own order: the same summaries come out. |
| Delegations.SwapKeepsGroups | apps/web/src/app/runtimeDelegations.ts:28-71 | Swapping neighbouring events of different runs keeps every run's own order. |
| Delegations.RepeatedStartCountsOnce | apps/web/src/app/runtimeDelegations.ts:57-63 | A repeated start of a call does not count again. |
| Delegations.AddEvent | apps/web/src/app/runtimeDelegations.ts:38-68 | What one event changes in its run's summary. |
| Delegations.NameGrows | apps/web/src/app/runtimeDelegations.ts:52-55 | The running rename equals taking the first name that is not a placeholder, or else the last. |
| CompanyList.FullListingConserves | apps/api/app/agent_runtime/tool_registry.py:2323-2422 | Without a keyword: one row per distinct folded name, sorted by tier and folded sort key, and the jobs, leads and signals of all rows are each those of all query rows that have a name. |
| CompanyList.CountsAreConserved | apps/api/app/agent_runtime/tool_registry.py:2374-2395 | Over all keys, grouped counts add up to the contributed ones: none lost, none counted twice. |
| CompanyList.ItemIsSummary | apps/api/app/agent_runtime/tool_registry.py:2341-2372 | A row's tier is the smallest contributed; it has a profile exactly when one contributed; its name and sort key come from one contribution of that tier. |
| CompanyList.CompanyMap.Add | apps/api/app/agent_runtime/tool_registry.py:2341-2395 | `ensure_company` and the count its caller adds keep the map equal to the group-by. |
| CompanyList.DatabaseCompanyList | apps/api/app/agent_runtime/tool_registry.py:2323-2422 | The rows are the sorted, keyword-filtered items; the page is a prefix of length min(limit, total), with the limit kept between 1 and 100. |
| CompanyList.MatchingKeepsOrder | apps/api/app/agent_runtime/tool_registry.py:2398-2400 | A keyword keeps exactly the rows whose folded name contains it, in order. |
| CompanyList.SortSorts | apps/api/app/agent_runtime/tool_registry.py:2398-2398 | The sort is ordered and a permutation. |
| OutputSanitizer.SanitizeAgentFinalAnswer | apps/api/app/agent_runtime/output_sanitizer.py:51-97 | The answer says exactly what the lines that are neither protocol nor markers say, in order, or nothing when something was removed and only the assistant's label is left; regeneration is asked for exactly then; no line of it is protocol or a marker; it is trimmed and has no three line feeds in a row. |
| OutputSanitizer.LineStage | apps/api/app/agent_runtime/output_sanitizer.py:72-86 | The loop keeps exactly the surviving lines: a blank line survives unless a removed line is next to it over blank and removed lines, on either side. |
| OutputSanitizer.KeptEssence | apps/api/app/agent_runtime/output_sanitizer.py:72-86 | Every nonblank line that is neither protocol nor a marker is kept, in order, and nothing removed is. |
| OutputSanitizer.StageIsIdempotent | apps/api/app/agent_runtime/output_sanitizer.py:72-86 | Run on what it kept, the line stage keeps it all and removes nothing. |
| OutputSanitizer.TidyingKeepsEssence | apps/api/app/agent_runtime/output_sanitizer.py:88-88 | Compaction and trimming change no nonblank line but for the white space around it. |
| OutputSanitizer.CompactingCompacts | apps/api/app/agent_runtime/output_sanitizer.py:163-164 | Compaction leaves no three line feeds in a row and leaves text without them as it is. |
| OutputSanitizer.NoProtocolLeft | apps/api/app/agent_runtime/output_sanitizer.py:115-123 | No line of a text that says what the unremoved lines say is protocol or a marker. |
| OutputSanitizer.JsonProtocolIffInside | apps/api/app/agent_runtime/output_sanitizer.py:142-153 | A JSON value looks like tool protocol exactly when a protocol object is somewhere inside it. |
| OutputSanitizer.MarkerAloneIsSilent | apps/api/app/agent_runtime/output_sanitizer.py:74-97 | A marker line without a recorded block is dropped without asking for another answer. |

## Left out

- AgentStates.LoadedIsStable: what `str`, `int`, `dict` and a dictionary's key order answer for entries of another type are parameters; no value shows as the empty text.
- RunHistory.ContinuationIsChecked: rolling back is always possible and never forced; the endpoints force it when the decided approval's row is gone.
- StdioSession.EveryRunIsFair: a submitter that stops waiting at its timeout leaves its future in place and is not modelled, nor are the join with its timeout and the process itself; a worker cannot fail while a request is in its hand, since that failure is set on the future.
- EventStream.StreamMessages: assumes that what the decoder still holds at the end contains no line feed; byte decoding, the fetch and the error responses are not modelled.
- SqlStripper.AllowedIff: the three keyword patterns are parameters, and the selection by tool name is not modelled.
- OutputSanitizer.SanitizeAgentFinalAnswer: starts after the two block patterns; regular expressions, JSON parsing and lower-casing are parameters. The whole filter is not claimed to be idempotent.
- CompanyList.DatabaseCompanyList: case folding is a parameter and the three queries' rows are inputs; the missing-session error is not modelled.
- Delegations.SummarizeRuntimeDelegations: fields that are missing, null or empty are one value, which the source never tells apart.
- NativeLoop.LoopIsBounded: exceptions other than the two the loop catches roll back the request and are not modelled; `ToolChoiceLoopRunner` and its stages are oracles, except that a waiting call ends the loop.
- FilesystemContract.TakeMoves: the recovery found inside a payload is an input, computed by `PayloadSearch`, and how non-string values are rendered is a parameter.
- Retries.CallWithRetries: whether a message holds a transient token is an input, and delays are reals.
- `on_workflow_started` callbacks, durable-state mirroring, events and logging: they carry no guarantee the protocol uses.
- Intent heuristics, candidate selection, prompts, summaries, tables and other prose: no crisp specification.
- HTTP, IMAP, SQLAlchemy, migrations, process startup, React components and file-system scripts: input and output only.
- Validators, clamps and field picking besides those above: single-branch facts.
