# Remote Agent Console: a verified model

A host for coding agents is mostly plumbing, but several of its state machines and algorithms
make promises about whole runs. This project models those in Dafny, one module per component,
and proves the promises for every input, every run or every reachable state. Code that changes
things step by step is a class or a method with loops, proved against a specification function;
the promises are lemmas about that function. `dafny verify dfyconfig.toml` checks everything.

| file | what it models |
|---|---|
| `RateLimit.dfy` | the login rate limiter and the order in which the login route uses it, key by key |
| `LoginRuns.dfy`, `Lockouts.dfy` | runs of the login route over all keys, whatever normalising an address twice does; which requests are turned away, told from the requests and answers before |
| `EventNumbering.dfy` | sequence numbers of the event log: MAX+1 on insert, renumbering by rank at start |
| `McpApproval.dfy` | approval of mutating MCP tools, and the approvals of tasks in the same table |
| `ApprovalRuns.dfy`, `ApprovalGrants.dfy` | what every run of calls, decisions, task approvals, reports and restarts keeps; what lets a tool run |
| `CallOutcomes.dfy`, `ApprovalOutcomes.dfy` | what a call or a decision does after any run, told from its arguments and the tables |
| `ApprovalEvents.dfy`, `ApprovalReports.dfy` | how many events there are about resolutions and tools; when they tell the truth |
| `EventStream.dfy` | message snapshots turned into text deltas, replay and live events on one connection |
| `Subscription.dfy` | what a client ends up with when a connection is not seamless: events before subscribing, skipped ones |
| `Reconnection.dfy` | two connections, the second with the last id of the first |
| `LineBuffer.dfy` | the line buffer between a Codex process and its event handler |
| `TerminalInput.dfy`, `TypedLines.dfy` | typed terminal input: control sequences (section 5.4 of ECMA-48), lines, buffer; what is recorded, key by key |
| `ClaudeLoop.dfy`, `ClaudeTrace.dfy` | the Claude executor's tool loop, for every timing of cancellation and every failure; what its traces show, block by block and await by await |
| `CodexAppServer.dfy`, `TurnOutcome.dfy` | one Codex app-server task, for every order of messages, answers, exit and cancellation; how its turn ends, told from the steps |
| `Recovery.dfy` | crash recovery of tasks, sessions, messages and commands |
| `ModelMerge.dfy` | the keyed merge of model profiles |
| `EnvFile.dfy`, `EnvRewriting.dfy`, `EnvOneKey.dfy` | rewriting the text of `.env`; what is promised of the new text, for every map of updates; the whole new text for one key |
| `NativeArgs.dfy` | splitting a command line into arguments |
| `FailureRanking.dfy`, `RankedFailures.dfy` | ranking the causes of a failed session; what a ranking says, source by source |
| `Chunking.dfy` | overlapping text windows and index batches |
| `Options.dfy`, `Lists.dfy`, `Counting.dfy`, `Text.dfy` | optional values, lists without repetition, sums, finite sets, strings |

What the proofs turned up about the code:

- A second start does not renumber events that were appended out of `createdAt` order. SQLite
  checks the unique index after each row of the `UPDATE`, so the start either changes nothing or
  fails; it fails exactly when some event arrived out of order (`EventNumbering.NextStart`). Rows
  that the start inserts without a number before that `UPDATE` can make it fail as well, even if
  everything arrived in order; the exact condition is `EventNumbering.NextStartInserting`.
- `recordFailure` relies on the `check` in front of it. On its own it can see an earlier prune,
  and what it records on an expired lock is wiped by the next check; both lemmas give the exact
  state (`RateLimit.RecordAloneSeesPrune`, `RateLimit.UncheckedRecordForgotten`).
- A started command result is shown without taking a snapshot, so a later delta for it would be
  shown twice; `EventStream.RunAgrees` gives the exact condition for a run to be read correctly.
- The event stream's route reads the stored messages, awaits the session's git information and
  subscribes only then. What changes in between reaches the client exactly if it is reported again
  later (`Subscription.FreshConnectionRebuilds`); an answer completed in between is shown incomplete
  (`Subscription.WindowLosesText`).
- A client that reconnects with `lastEventId` is spared that many replayed events, whatever they
  are now; it ends up right exactly if it has their text (`Subscription.ReconnectedRebuilds`), and
  so misses what a message has grown by while it was away (`Subscription.GrownWhileAway`).
  Over two connections: it ends up right exactly if no content it is spared has changed and it has
  no text of what it is not spared (`Reconnection.RejoinedExactly`). A message completed in the
  meantime moves the others up and doubles one (`Reconnection.CompletionDoublesText`).
- The route replays the newest messages only, 500 unless asked otherwise. An older message with
  text is missing unless it is reported again (`Subscription.BeyondLimit`).
- A Codex app-server task that is cancelled and then fails before any native message is handed to
  the fallback executor, which starts it again (`CodexAppServer.CancelledTaskHandedOver`). A first
  message may also arrive while the fallback is being announced (`CodexAppServer.HandoverAllowed`
  says exactly when).
- An approval that a remote worker asks for with the action type `mcp_tool` is stored beside those
  of MCP tool calls. Once it is approved it lets a mutating tool run that no call ever requested
  (`ApprovalGrants.WorkerApprovalRunsTool`). From a given state on, every tool that an approval lets
  through was requested by a call exactly if no such approval is there
  (`ApprovalGrants.RequestedFromNowOn`).
- An approved MCP approval is never used up (`ApprovalGrants.ApprovalIsNotUsedUp`).
- The route writes one `approval.resolved` event for each of its resolutions, and these tell the
  verdict in the table at any time (`ApprovalReports.RouteEventsTrue`). All other such events are
  reports, which a remote worker may make of any approval: of one that is still pending
  (`ApprovalReports.PendingReported`), of one that a tool call asked for
  (`ApprovalReports.UnresolvedReported`), or by a task event of that very type, stored as it is
  (`ApprovalReports.FiledUnchecked`). All events about an approval tell the tables' verdict, from
  when they are stored on, exactly if each report told it when it was made
  (`ApprovalReports.EventsTrueExactly`). No report changes a table or lets a tool run.
- A login clears the key of the address normalised once, its failures count for the address
  normalised twice; where these differ a success clears nothing of its own and perhaps another
  address's failures. The bound on failures holds all the same (`LoginRuns.FailureBoundOfKeys`).
- A session whose active task has a status outside the known ones stays running after recovery
  (`Recovery.SessionsRecovered`).
- Merging model profiles in stages forgets an id whose entries are all disabled
  (`ModelMerge.MergingInStages`).
- Writing `.env` twice differs from writing it once exactly if an untouched line ends in a
  carriage return of its own, or a key that the file's own matcher cannot find, such as a
  lower-case one, has a value: each write then appends it once more (`EnvRewriting.WritingTwice`).
- With a chunk size below 1 or a negative overlap some text loses a character, with all other
  settings none does (`Chunking.CoveredExactly`).
- An empty argument does not survive quoting and splitting (`NativeArgs.SplitUndoesQuoting`).
- A chunk's line number is that of its window, not of its content, if newlines were stripped in
  front of the content (`Chunking.ChunkIs`).

Nothing was executed: every statement is about the model, which follows the cited lines.

## Model

| member | source | states |
|---|---|---|
| RateLimit.AuthRateLimiter.Check | packages/security/src/rate-limit.ts:108-136 | a check changes the slot of its own normalised key as the slot function says and answers from it; exempt loopback callers and all other keys are untouched |
| RateLimit.AuthRateLimiter.RecordFailure | packages/security/src/rate-limit.ts:138-161 | a failure is pushed on the slid window of its own key unless a lock is active, and locks the key when the window is full |
| RateLimit.AuthRateLimiter.Prune | packages/security/src/rate-limit.ts:167-178 | every key at once: locked entries stay, others are slid, empty ones dropped, and nothing else is in the map |
| RateLimit.AuthRateLimiter.Login | apps/host/src/routes/auth.ts:84-128 | one login request is a check and then, if allowed, a recording, a reset or nothing, with the stated effect on the whole map; the reset reaches the counted key only if normalising the address twice is normalising it once |
| RateLimit.MakeConfig | packages/security/src/rate-limit.ts:88-91 | for all settings, NaN and infinities included: every limit is a whole number of at least 1 if and only if no setting is NaN or infinitely large |
| RateLimit.SettingsMean | packages/security/src/rate-limit.ts:34-91 | a finite setting is rounded down, but to no less than 1; without settings five attempts a minute and a lock of five minutes |
| RateLimit.FailureBound | packages/security/src/rate-limit.ts:103-161 | in every run in the route's order with a clock that does not go back, at most maxAttempts failures of a key are recorded, between resets, in any half-open interval as long as the shorter of window and lockout |
| LoginRuns.LoginOfKey | apps/host/src/routes/auth.ts:84-128 | what a login does to any one key: it clears it if it is the one of the address normalised once and the login succeeds, is an attempt on it if it is the counted one, and leaves it alone otherwise |
| LoginRuns.FailureBoundOfKeys | apps/host/src/routes/auth.ts:84-128 | over every run of logins from any addresses and of prunes, for every key at once: at most maxAttempts of the failures recorded for it since it was last cleared, by whatever login, lie in such an interval |
| LoginRuns.DeniesExactly | packages/security/src/rate-limit.ts:108-136 | after every such run a request is denied exactly if it is not exempt and its counted key is locked, and then named a wait that is positive and at most the lockout |
| Lockouts.AnsweredExactly | packages/security/src/rate-limit.ts:108-161 | after every such run, with the failures of its counted key that the requests and answers before tell: a request that is not exempt is turned away if and only if one of them is at most a lockout old and filled the window, since the last clearing and the last lock, with maxAttempts; it is then told exactly the rest of the lock, and otherwise maxAttempts less the failures since the last lock in the window |
| Lockouts.RunMirrored | apps/host/src/routes/auth.ts:84-128 | in every such run the recorded and cleared failures are those the requests and their answers tell: a rejected request that was allowed and is not exempt counts for the address normalised twice, an accepted one clears the address normalised once, nothing else does either |
| Lockouts.FailuresMean | packages/security/src/rate-limit.ts:103-165 | a key's failures are exactly those noted for it that no clearing of it follows, in order |
| LoginRuns.PruningUnnoticedOfKeys | packages/security/src/rate-limit.ts:108-178 | leaving out every prune of all keys changes no answer and no recorded or cleared failure of any key |
| RateLimit.DeniesExactlyWhileLocked | packages/security/src/rate-limit.ts:108-136 | after every such run a check denies exactly while a lock is active, and then names a wait that is positive and at most the lockout |
| RateLimit.RunTracks | packages/security/src/rate-limit.ts:103-178 | the invariant of every run: the slot holds the newest failures, those it no longer holds are a span old, a full slot is locked, a lock outlasts every failure |
| RateLimit.PruningUnnoticed | packages/security/src/rate-limit.ts:108-178 | leaving out every prune changes no answer and no recorded failure of the run |
| RateLimit.RecordAloneSeesPrune | packages/security/src/rate-limit.ts:138-161 | a recording without a check in front sees an earlier prune if and only if an expired lock is left on an entry whose failures have slid out and one failure does not lock |
| RateLimit.UncheckedRecordForgotten | packages/security/src/rate-limit.ts:128-161 | a failure recorded on an expired lock is wiped by the next check if and only if it does not complete a new lock |
| EventNumbering.EventTable.Renumber | packages/storage/src/schema.ts:990-1007 | the start numbers every row by its rank in (createdAt, rowid), or rolls back and fails, which happens exactly when the index exists and some row's new number is still held by a later row |
| EventNumbering.EventTable.Append | apps/host/src/services/mcp-service.ts:301-326 | an event is added with the session's largest number plus one, 1 if there is none |
| EventNumbering.NumberedIsDense | packages/storage/src/schema.ts:990-1003 | a numbered session of n rows carries each of 1..n and nothing else |
| EventNumbering.NumberedInOrder | packages/storage/src/schema.ts:990-1003 | numbers are in the order of createdAt, then rowid |
| EventNumbering.RenumberingAgainIsIdentity | packages/storage/src/schema.ts:990-1007 | a numbered table passes the next start and keeps all its numbers |
| EventNumbering.StartIsIdentityOrFails | packages/storage/src/schema.ts:990-1007 | on a table whose sessions hold 1..n in any order, the start gets through if and only if every row already has its rank |
| EventNumbering.AppendKeepsNumbering | packages/storage/src/schema.ts:990-1003 | MAX+1 keeps a table numbered if and only if the row is not older than a row of its session |
| EventNumbering.AppendAllNumbered | packages/storage/src/schema.ts:990-1003 | over any number of appends the numbers stay 1..n, and stay ranks if and only if every event arrived in order |
| EventNumbering.NextStart | packages/storage/src/schema.ts:990-1007 | from one start to the next, with nothing inserted by the start itself: it gets through if and only if all events in between arrived in order, and is then the identity |
| EventNumbering.EventTable.InsertMissing | packages/storage/src/schema.ts:920-958 | the start's own inserts add their rows, without numbers, behind all others and change nothing else |
| EventNumbering.StartInserting | packages/storage/src/schema.ts:920-1007 | for any table and any rows the start inserts: its update gets through if and only if no row, pushed up by the inserted rows that precede it, meets the number of a later row of its session |
| EventNumbering.StartInsertingNumbered | packages/storage/src/schema.ts:920-1007 | from any numbered table, whatever order its rows stand in: the start gets through if and only if every row that inserted ones precede gets a number that is beyond its session's or that a row before it has given up |
| EventNumbering.NextStartInserting | packages/storage/src/schema.ts:920-1007 | the same from one start to the next, with events appended in order in between and others inserted by the start, for every numbered table |
| McpApproval.Host.CallTool | apps/host/src/services/mcp-service.ts:152-237 | a tool call up to the start of its tool, statement by statement, has the effect and the answer of the step `Call`; an awaited tool is then in progress |
| McpApproval.Host.EndTool | apps/host/src/services/mcp-service.ts:228-258 | when an awaited tool ends, whatever has happened since it started, its call leaves the list of those in progress and its result or failure event is written |
| McpApproval.Host.ResolveAgentApproval | apps/host/src/routes/approvals.ts:182-255 | a resolution, statement by statement, has the effect and the verdict of the step `Resolve` |
| McpApproval.Host.DecideApproval | apps/host/src/routes/approvals.ts:108-179 | the route resolves an approval itself only if it is no task's; one of a task goes to the task service, if it is pending and awaited |
| ApprovalOutcomes.DecisionTaken | apps/host/src/routes/approvals.ts:108-255 | after any run a decision by the routes is refused for the stated reason and changes nothing, or changes the status of its row and of no other and is told by exactly one event of the row's session, named after id and verdict, if it has a session |
| ApprovalOutcomes.ToolEnded | apps/host/src/services/mcp-service.ts:228-258 | the end of an awaited tool takes that call and no other from the list and tells its session how it ended |
| McpApproval.Host.CreateTaskApproval | packages/storage/src/repositories/approval-repo.ts:57-131 | a task's approval of any action type and any status is stored and mirrored, unless its id is taken; the mirror row is left out if that id is there already |
| McpApproval.Host.ResolveTaskApproval | packages/storage/src/repositories/approval-repo.ts:76-142 | resolving a task's approval updates it and its mirror row, each if it is pending |
| McpApproval.Host.HandleApprovalResolved | apps/host/src/services/session-service.ts:3768-3787 | a `task.approval_resolved`, whoever sent it, stores an `approval.resolved` event: with the task's approval as it is, pending included, if the id is a task's, and otherwise with the reported id and word, as a verdict if the word is one |
| McpApproval.Host.AppendTaskEvent | packages/storage/src/repositories/event-repo.ts:62-133 | every task event, of whatever type and content, is copied to the events with its task as runId |
| McpApproval.MutatingHasNoAlias | apps/host/src/services/mcp-service.ts:68-83 | the policy, which is asked about the requested name, is asked about the tool that runs |
| ApprovalRuns.RunConsistent | apps/host/src/services/mcp-service.ts:152-258 | every reachable database, whatever approvals tasks bring along and in whatever status, whatever is reported, restarts included: each happening was entitled by what came before; a row was inserted by a call or for a task, is pending exactly while there is no verdict, and otherwise has the status of the verdict; a mirrored row has the status of the task's approval; an event of the route tells the verdict in the table |
| ApprovalGrants.MutatingNeedsGrant | apps/host/src/services/mcp-service.ts:166-218 | in every run a mutating tool is executed only on an allow decision at that call or with a row for that canonical tool that a call requested or that was mirrored for a task as `mcp_tool`, approved before the call, and not belonging to another session |
| CallOutcomes.PolicyDecides | apps/host/src/services/mcp-service.ts:187-216 | after any run, a call of a mutating tool that names no approval executes it if and only if the decision is allow, inserts a pending row if and only if it is to ask and the id is unused, and is denied if and only if the decision is deny |
| CallOutcomes.AllowedCall | apps/host/src/services/mcp-service.ts:187-256 | on an allow decision such a call executes the tool on that grant, inserts nothing, and writes the call and, unless the tool is awaited, its result to the session it names |
| CallOutcomes.DeniedCall | apps/host/src/services/mcp-service.ts:194-201 | on a denial it executes nothing, inserts nothing, and writes the call and a failure |
| CallOutcomes.AskingCall | apps/host/src/services/mcp-service.ts:202-216 | if it is to ask it executes nothing and inserts the pending row of its session and tool under the new id, unless that id is taken |
| CallOutcomes.NamingCall | apps/host/src/services/mcp-service.ts:168-186 | a call that names an approval executes its tool on that approval's grant exactly if the row exists, is of this tool and of no other session, and is approved; otherwise it is refused for the first of these reasons and changes no row |
| CallOutcomes.MutatingIsEntitled | apps/host/src/services/mcp-service.ts:152-237 | in every run each execution of a mutating tool was added by a call of that very tool which either names no approval and was allowed by the policy, or names the approved row that is the grant |
| CallOutcomes.OtherCall | apps/host/src/services/mcp-service.ts:68-83 | any other name executes the reading tool it stands for, or nothing if it stands for none |
| ApprovalGrants.RequestedExactly | apps/host/src/services/mcp-service.ts:168-186 | over whole runs: every mutating tool that an approval lets through was requested by a call if and only if no approval of a task was used for one |
| ApprovalGrants.RequestedFromNowOn | apps/host/src/services/mcp-service.ts:168-186 | in all continuations that bring in no further approval of a task for a mutating tool, every mutating tool that an approval lets through was requested by a call, if and only if there is no such approval now, pending or approved, that a call can name |
| ApprovalGrants.WorkerApprovalRunsTool | apps/host/src/routes/remote-worker.ts:320-344 | the run in which a remote worker's approval of action type `mcp_tool`, once approved, runs `restart_service` against a denying policy, with no request by any call |
| ApprovalRuns.ResolvedOnce | apps/host/src/routes/approvals.ts:203-216 | there is at most one verdict on an approval in any run, a row mirrored with its verdict included, and the route gives none in a completed, failed, cancelled or archived session |
| ApprovalRuns.ResolveKeeps | apps/host/src/routes/approvals.ts:214-246 | the event insert after the update never clashes, so no resolution is left without its event |
| ApprovalEvents.ExactlyOneEvent | apps/host/src/routes/approvals.ts:217-246 | per approval, verdict and session, whatever is reported: exactly one `approval.resolved` event of the route if the route resolved it so, none of the route otherwise |
| ApprovalEvents.ResolvedEvents | apps/host/src/services/session-service.ts:3768-3787 | of all `approval.resolved` events about any id, a task's or not: as many tell a verdict in a session as there were reports and copied task events telling it, and one more if the route resolved it so |
| ApprovalReports.RouteEventsTrue | apps/host/src/routes/approvals.ts:217-246 | in every run an event of the route tells the verdict that the table holds, at any later time |
| ApprovalReports.WellReported | apps/host/src/services/session-service.ts:3768-3787 | before the step: a report tells the tables' verdict if and only if the task's approval is settled, or the id is no task's and the reported word is no verdict or the one on the approval of that id |
| ApprovalReports.EventsTrueExactly | apps/host/src/services/task-service.ts:500-522 | over whole runs, for any approval: every event about it tells a verdict of the tables from when it is stored and at all later times, if and only if each report and each copied task event about it told one when it was made |
| ApprovalReports.PendingReported | apps/host/src/routes/remote-worker.ts:287-301 | the run in which a task's pending approval is reported as resolved, stored as pending, and then rejected |
| ApprovalReports.UnresolvedReported | apps/host/src/routes/remote-worker.ts:287-301 | the run in which a tool call asks for an approval, it is reported as approved and stored so, while it is pending and lets no call through |
| ApprovalReports.FiledUnchecked | packages/storage/src/repositories/event-repo.ts:62-133 | a task event of type `approval.resolved` is stored as it is, and leaves the events true if and only if the tables hold what it tells |
| ApprovalRuns.EventNamesDiffer | apps/host/src/routes/approvals.ts:233 | an event name determines both the approval and the verdict |
| ApprovalGrants.ApprovalIsNotUsedUp | apps/host/src/services/mcp-service.ts:168-186 | what an approval lets through once, it lets through after any further steps |
| ApprovalEvents.ResultsConserved | apps/host/src/services/mcp-service.ts:196-258 | in every run and for every tool and session, executions and denials are as many as result and failure events without a runId, which are those the MCP service writes, plus tools still in progress plus tools lost in a restart |
| EventStream.Connection.Map | apps/host/src/routes/agent-event-mapper.ts:367-441 | the mapper's loop-free imperative code emits and snapshots as the specification `Emit` says |
| EventStream.EmitAdds | apps/host/src/routes/agent-event-mapper.ts:367-441 | one event adds text for the id it reports and for no other |
| EventStream.ClosingEvents | apps/host/src/routes/agent-event-mapper.ts:367-440 | a message is reported as finished, and a turn as completed with its text, if and only if the event finishes it, told from the event's fields; text comes first, the message before the turn |
| EventStream.ReportedMeans | apps/host/src/routes/agent-event-mapper.ts:367-424 | which id and text an event shows, told from its fields: the assistant's message, in one field or else the other, or the event's own delta |
| EventStream.StepAgrees | apps/host/src/routes/agent-event-mapper.ts:406-440 | one event keeps a reading client equal to the messages if and only if it starts a message without text or continues one whose text has a snapshot |
| EventStream.RunAgrees | apps/host/src/routes/agent-event-mapper.ts:367-442 | over any interleaving the client agrees with every message at every moment if and only if every event fits |
| EventStream.RedeliveryAddsNothing | apps/host/src/routes/agent-event-mapper.ts:374-424 | delivering the same delta or completed event again adds no text and changes no snapshot |
| Subscription.FreshConnectionRebuilds | apps/host/src/routes/agent-session-event-routes.ts:25-132 | on a fresh connection, with any events between reading the messages and subscribing: the client ends with every latest content if and only if every id whose content changed in between is reported again afterwards |
| Subscription.BeyondLimit | apps/host/src/routes/agent-session-event-routes.ts:24-25 | with messages beyond the limit of what is read, the client ends with every message's latest content if and only if every older message with text is reported again |
| Subscription.WindowLosesText | apps/host/src/routes/agent-session-event-routes.ts:25-126 | a stored streaming message "ab" that is completed as "abc" before the subscription stays "ab" for the client |
| Subscription.ReconnectedAsFresh | apps/host/src/routes/agent-session-event-routes.ts:36-132 | for every lastEventId and id, a reconnected client ends with the text a fresh connection gives if and only if it has the text of the events it is spared |
| Subscription.ReconnectedRebuilds | apps/host/src/routes/agent-session-event-routes.ts:36-132 | with nothing between reading and subscribing, a reconnected client ends with every latest content if and only if it has the text of the replayed events it is spared |
| Subscription.GrownWhileAway | apps/host/src/routes/agent-session-event-routes.ts:48-56 | a client that has "ab" and reconnects when the message is "abc" still has "ab" |
| Reconnection.RejoinedExactly | apps/host/src/routes/agent-session-event-routes.ts:36-132 | a client that has followed one connection to its end and reconnects with its last id, live events counted: it ends with every latest content if and only if no content it is spared has changed while it was away and it has no text of what it is not spared |
| Reconnection.RejoinedPastReplay | apps/host/src/routes/agent-session-event-routes.ts:48-56 | in particular, if that id is past the whole replay: if and only if no content has changed while it was away |
| Reconnection.CompletionDoublesText | apps/host/src/routes/agent-session-event-routes.ts:48-96 | of two streaming messages the first completes while the client is away; the client then has the second one's text twice |
| EventStream.Connection.Write | apps/host/src/routes/agent-session-event-routes.ts:48-56 | every event gets the next id and is written unless the client has that id |
| EventStream.Connection.Replay | apps/host/src/routes/agent-session-event-routes.ts:58-124 | replay writes greeting, messages and closing events under consecutive ids, takes the snapshots, and leaves the counter no lower than lastEventId |
| EventStream.Serve | apps/host/src/routes/agent-session-event-routes.ts:36-132 | for every lastEventId: the written ids are contiguous from max(0, lastEventId) + 1, and the written events are all of the replay but the first lastEventId ones, then all live events |
| LineBuffer.FlushBufferedLines | packages/executors/src/codex-event-parser.ts:419-432 | emits the non-blank trimmed complete lines and returns the last, unterminated one |
| LineBuffer.CodexStdout.OnData | packages/executors/src/codex-executor.ts:486-498 | after any chunk all complete lines of everything seen are handled and the buffer is the rest, also when CR and LF were cut apart |
| LineBuffer.CodexStdout.OnClose | packages/executors/src/codex-executor.ts:539-550 | at close the handled lines are the non-blank trimmed lines of the whole output |
| LineBuffer.RunChild | packages/executors/src/codex-executor.ts:486-550 | every way of cutting the output into chunks hands over the same lines, in order |
| LineBuffer.NormalizeKeepsLines | packages/executors/src/codex-event-parser.ts:420-421 | dropping carriage returns before newlines changes no line but for a trailing carriage return |
| TerminalInput.MirrorSession.RecordTerminalInputLines | apps/host/src/services/native-terminal-input-history.ts:40-68 | the loop computes lines and buffer of the specification `Feed`, and the buffer never exceeds 1000 units |
| TerminalInput.StripInPieces | apps/host/src/services/native-terminal-input-history.ts:21-24 | stripping two pieces strips the whole, whatever follows, if and only if the first does not end inside an unfinished control sequence |
| TerminalInput.FeedInPieces | apps/host/src/services/native-terminal-input-history.ts:40-68 | feeding two pieces gives the same lines and buffer as the whole, from any buffer and whatever follows, if and only if the first does not end inside an unfinished control sequence |
| TypedLines.StripMeans | apps/host/src/services/native-terminal-input-history.ts:21-24 | stripping removes every control sequence of parameter, intermediate and final bytes, whole, and keeps every other unit |
| TypedLines.LineTyped | apps/host/src/services/native-terminal-input-history.ts:40-68 | printable text and a carriage return or newline record exactly one line, of which the last 1000 units without white space at the ends, or none if it is blank |
| TypedLines.TextErased | apps/host/src/services/native-terminal-input-history.ts:53-56 | as many erasures as units typed restore the buffer, as long as it is not over its limit; on an empty line they do nothing |
| TypedLines.LineDiscarded | apps/host/src/services/native-terminal-input-history.ts:58-61 | the interrupt and the kill character discard whatever has been typed of the line |
| TypedLines.OthersIgnored | apps/host/src/services/native-terminal-input-history.ts:40-68 | all other control characters are as if not typed |
| ClaudeLoop.AssessToolRisk | packages/executors/src/claude-executor.ts:393-431 | approval is required exactly if some pattern or path test objects and the task does not approve by itself; the level is the highest of all assessments, and low exactly if nothing objects |
| ClaudeLoop.ClaudeTask.StartTask | packages/executors/src/claude-executor.ts:204-377 | in every world the executor's trace follows the protocol and is what the world's replies, decisions, results, failures and cancellations make of it, await by await; it ends without a terminal callback only if cancelled |
| ClaudeLoop.ClaudeTask.HandleUse | packages/executors/src/claude-executor.ts:275-348 | one tool request is answered with exactly one result of its own id, or the run stops or fails for a stated reason |
| ClaudeLoop.ReplaySound | packages/executors/src/claude-executor.ts:215-371 | the invariant of every trace: conversation well formed and as long as the calls say, results answer requests in order, terminal callbacks as the phase says |
| ClaudeLoop.EveryCall | packages/executors/src/claude-executor.ts:220-353 | every model call comes before any cancellation, is at most the maxToolRounds-th, and sends a proper conversation of length 2 * round + 1 |
| ClaudeLoop.EveryCallExtends | packages/executors/src/claude-executor.ts:224-353 | every call after the first sends the conversation of the call before it, the model's reply to that, and the results produced for the reply since, one per request |
| ClaudeTrace.EveryBlockAnswered | packages/executors/src/claude-executor.ts:257-353 | for every reply between two consecutive calls, over the indices of its blocks: each well-formed tool block has exactly one result, at the place given by the number of such blocks before it, with its id, and it is what its tool returned for its name and input, or the fixed text if the user refused; there are no other results |
| ClaudeTrace.ReplyRules | packages/executors/src/claude-executor.ts:233-273 | after a reply exactly its texts that are not blank are said, in order, before anything else; then a reply that ends the turn leads to the end, one that asks for tools to its requests in order, and any other one to an error, as do a lack of requests, an unreadable request and the last round |
| ClaudeTrace.EachAfter | packages/executors/src/claude-executor.ts:275-348 | which action comes directly after which: a tool starts after an announcement that asks for nothing or after its grant, and the announcement asks exactly if a pattern or path test objects and the task does not approve by itself; a refusal comes after a denial of this request, a result after its start, and its log holds its first 1200 characters and how many are missing |
| ClaudeTrace.FromOutside | packages/executors/src/claude-executor.ts:220-370 | await by await: the reply is the one given to this call, the decision the user's on this request, the result what this tool returned, and each failure outside leads to its error and to nothing else |
| ClaudeTrace.GrantedStart | packages/executors/src/claude-executor.ts:275-327 | a tool to which some test objects starts directly after announcement, question and the user's own consent to this request, any other directly after its announcement |
| ClaudeTrace.QuietAfterCancel | packages/executors/src/claude-executor.ts:220-345 | after a cancellation no call, request, tool, refusal or terminal callback begins |
| ClaudeTrace.AssessedMeans | packages/executors/src/claude-executor.ts:113-170 | which level a description has, in terms of the tests: critical if a critical pattern or a path outside, and so on down |
| ClaudeLoop.ConversationAlternates | packages/executors/src/claude-executor.ts:351-352 | a conversation starts and ends with the user and alternates |
| ClaudeLoop.CallsBounded | packages/executors/src/claude-executor.ts:220-223 | at most maxToolRounds model calls are made |
| ClaudeLoop.GuardedStart | packages/executors/src/claude-executor.ts:275-327 | no tool starts after a cancellation, and one that needs approval starts only when the action right before is the user granting this request |
| ClaudeLoop.EndsOnce | packages/executors/src/claude-executor.ts:361-371 | at most one terminal callback; two only if the completion callback itself failed |
| ClaudeLoop.NoEndAfterCancel | packages/executors/src/claude-executor.ts:361-371 | no terminal callback follows a cancellation |
| CodexAppServer.CodexTask.StartTask | apps/host/src/services/codex-app-server-executor.ts:365-540 | the sequential code, with anything possible happening during each await, is a run of the state machine, to its end or to a turn that nothing settles |
| CodexAppServer.CodexTask.CancelTask | apps/host/src/services/codex-app-server-executor.ts:387-404 | cancelling interrupts the turn if there is a thread, and otherwise closes the connection at once |
| CodexAppServer.CodexTask.OnExit | apps/host/src/services/codex-app-server-executor.ts:473-477 | process exit fails the pending request and settles an unfinished turn as failed |
| CodexAppServer.RunSound | apps/host/src/services/codex-app-server-executor.ts:365-575 | the invariant of every run, callbacks failing or not |
| CodexAppServer.OneOutcome | apps/host/src/services/codex-app-server-executor.ts:365-540 | if no callback fails, an unfinished task has at most one outcome and a finished one exactly one of completion, error and handover |
| CodexAppServer.HandoverExactly | apps/host/src/services/codex-app-server-executor.ts:365-446 | over whole runs: a finished task is handed over if and only if a fallback exists and may run and the native task failed, or could not start, before any native message came |
| CodexAppServer.HandoverAllowed | apps/host/src/services/codex-app-server-executor.ts:377-446 | callbacks failing or not, a handover needs an existing fallback, no missing approval bridge, and no native message before the decision; when the fallback starts, a message has been seen if and only if one came between decision and start |
| CodexAppServer.CompletedMeansSettled | apps/host/src/services/codex-app-server-executor.ts:523-535 | a task completes only with the status its turn settled on first, never `failed` |
| TurnOutcome.SettledByFirst | apps/host/src/services/codex-app-server-executor.ts:473-643 | over whole runs: a turn settles on what is told first, by a handled message that it is completed (its status), a handled error or the exit (failed), or a start response with a final status; if nothing is told it is not settled |
| TurnOutcome.CompletedExactly | apps/host/src/services/codex-app-server-executor.ts:523-535 | over whole runs: a task is reported complete with a status if and only if its turn is taken up when that status was told first and it is not failed |
| TurnOutcome.DecidesExactly | apps/host/src/services/codex-app-server-executor.ts:365-446 | over whole runs: how to go on is decided at exactly the steps that take up a failure, whether of opening, of a request, of a callback or of the turn |
| TurnOutcome.DecidedGoesOn | apps/host/src/services/codex-app-server-executor.ts:406-446 | ... and then an error is reported if a message has come or there is no fallback, a missing approval bridge is noted if that forbids the fallback, and the fallback is announced otherwise |
| TurnOutcome.RunPrepared | apps/host/src/services/codex-app-server-executor.ts:449-528 | over whole runs: a turn is awaited only after connection, initialization, thread, announcement and start, by a review if one is asked for and can be started |
| TurnOutcome.ThreadIsKnown | apps/host/src/services/codex-app-server-executor.ts:459-520 | over whole runs: there is a thread for a cancellation to interrupt exactly if one was opened or reported |
| CodexAppServer.NeverStuck | apps/host/src/services/codex-app-server-executor.ts:365-540 | whatever has happened: once the connection is open, one exit of the app server, followed by any answers to what is pending, ends the task |
| CodexAppServer.ExitHandsOver | apps/host/src/services/codex-app-server-executor.ts:377-446 | a task that waits for its app server, cancelled or not, is handed over after the server's exit and the announcement if and only if no message came and a fallback may run |
| CodexAppServer.CancelledTaskHandedOver | apps/host/src/services/codex-app-server-executor.ts:387-446 | over whole runs: a cancelled task is handed over to the fallback if and only if a fallback may run and the task fails after the cancellation before any native message came |
| CodexAppServer.CancelledAndRestarted | apps/host/src/services/codex-app-server-executor.ts:387-446 | a run in which a task cancelled during initialize is started again by the fallback |
| CodexAppServer.MessageAfterDecision | apps/host/src/services/codex-app-server-executor.ts:434-445 | a run in which initialize times out and the first native message arrives while the fallback is being announced |
| Recovery.Database.RecoverStuckTasks | apps/host/src/bootstrap.ts:92-237 | the procedure, session by session, leaves the database `Recovered` describes and reports the counts |
| Recovery.Database.RecoverSession | apps/host/src/bootstrap.ts:154-230 | the statements for one session change its rows as `ApplyFix` says and no others |
| Recovery.NothingStuck | apps/host/src/bootstrap.ts:95-119 | every queued, running or waiting task is failed, now and with the stated message, and no other task has changed |
| Recovery.RecoversUnlessUnknown | apps/host/src/bootstrap.ts:144-152 | a stale session is recovered if and only if its active task's status is not outside the known ones |
| Recovery.SessionsRecovered | apps/host/src/bootstrap.ts:142-166 | a session is running or waiting afterwards exactly in that case, and is then as it was; every recovered one is failed without an active task |
| Recovery.MessagesRecovered | apps/host/src/bootstrap.ts:168-196 | in a recovered session the newest assistant message keeps its trimmed text, names the reason and fails, behind a blank line if it did not name it before and had text; messages streaming for the lost work fail; every other text, status and field survives |
| Recovery.MessageRecovered | apps/host/src/bootstrap.ts:142-196 | the same from the tables before: of a session that was running or waiting with no unknown task, exactly the newest assistant message of its task is repaired, with the reason that the tables give |
| Recovery.CommandsClosed | apps/host/src/bootstrap.ts:198-204 | every open command of a recovered session is finished now with its exit code, or 1 if it has none; every other is unchanged |
| Recovery.SequencesStayUnique | apps/host/src/bootstrap.ts:206-230 | message sequence numbers stay unique per session |
| Recovery.OthersUntouched | apps/host/src/bootstrap.ts:143-231 | a session that is not recovered keeps every message and command and gets no new message |
| Recovery.NoticeInserted | apps/host/src/bootstrap.ts:206-230 | every recovered session gets one new failed system message with the reason and the lost task, whose sequence number is the session's largest plus one |
| Recovery.SessionNoticed | apps/host/src/bootstrap.ts:206-230 | from the tables before: each session that was running or waiting with no unknown task has its notice, with the reason that the tables give |
| Recovery.SessionsCounted | apps/host/src/bootstrap.ts:142-166 | the reported number of recovered sessions is that of the sessions that were running or waiting with no unknown task |
| Recovery.FailuresReported | apps/host/src/bootstrap.ts:101-119 | one failure event per stuck task and none for any other |
| Recovery.EventsAppended | apps/host/src/bootstrap.ts:101-119 | those events are added behind the old ones, and their number is the one reported |
| Recovery.RepairNamesReason | apps/host/src/bootstrap.ts:169-172 | the repaired text is the old one, trimmed, if that names the reason, the reason alone if it is blank, and otherwise the trimmed text, a blank line and the reason |
| Recovery.SecondRunChangesNothing | apps/host/src/bootstrap.ts:92-237 | a second run, at any later time, changes nothing and reports 0 and 0 |
| ModelMerge.MergeModelProfiles | apps/host/src/services/model-registry.ts:120-157 | the loop over a map computes the reference: entries grouped by id, each group combined, enabled ones kept |
| ModelMerge.MergedIds | apps/host/src/services/model-registry.ts:120-156 | the ids of the merged list are exactly those with an enabled entry, each once, and for any two of them the first has an entry before every entry of the second |
| ModelMerge.MergedGroups | apps/host/src/services/model-registry.ts:120-156 | each member of the merged list is the combination of all entries of its id, and such a combination is in it exactly if some entry is enabled |
| ModelMerge.GroupLists | apps/host/src/services/model-registry.ts:151-152 | capabilities and executor types are the deduplicated concatenations over all entries of the id |
| ModelMerge.GroupFlags | apps/host/src/services/model-registry.ts:136-142 | each of the seven flags is set exactly if some entry of the id sets it |
| ModelMerge.GroupOptions | apps/host/src/services/model-registry.ts:143-149 | each optional field has the first value given for it among the entries, and none if none is given; an empty list of efforts counts as not given |
| ModelMerge.GroupIdentity | apps/host/src/services/model-registry.ts:134-150 | identity comes from the first entry, and `degraded` holds only if every entry says so |
| ModelMerge.MergingInStages | apps/host/src/services/model-registry.ts:120-157 | merging a merged list with further entries is merging all at once, for all further entries, if and only if every id of the first stage has an enabled entry |
| EnvFile.WriteEnvFile | apps/host/src/services/env-file.ts:47-86 | the loops build the text `NewText` describes |
| EnvFile.QuoteOneLine | apps/host/src/services/env-file.ts:24-32 | whatever the value, what is written for it contains no newline and no carriage return |
| EnvFile.ReadUndoesQuote | apps/host/src/services/env-file.ts:24-32 | reading what is written for a value, as a JSON string (section 7 of RFC 8259) if it is in quotation marks, gives the value; it stands without them if and only if it has plain characters only |
| EnvFile.KeyMeans | apps/host/src/services/env-file.ts:16-22 | a line has a key if and only if it starts with white space, the key, white space and an equals sign |
| EnvFile.KeyOfPair | apps/host/src/services/env-file.ts:16-22 | a written pair is read back with its key |
| EnvRewriting.LinesOfNewText | apps/host/src/services/env-file.ts:51-85 | splitting the written text gives back its lines, without carriage returns at their ends |
| EnvRewriting.UpdatedLines | apps/host/src/services/env-file.ts:53-82 | every line with an updated key carries the new value, and a key set to null has no line, if and only if no line appended for an unmatchable key reads as another updated key with another value |
| EnvRewriting.UpdatedKeyOccurs | apps/host/src/services/env-file.ts:69-82 | every matchable key with a value has its line |
| EnvRewriting.OtherLinesSurvive | apps/host/src/services/env-file.ts:53-85 | all other lines survive in order, up to carriage returns at their ends and trailing blank lines; added to them are at most a blank line, the comment of a new file and lines of unmatchable keys |
| EnvRewriting.WritingTwice | apps/host/src/services/env-file.ts:47-86 | for all updates: writing the same updates again changes nothing if and only if no unmatchable key has a value and no untouched line ends in a carriage return of its own |
| EnvOneKey.OneKeyAdded | apps/host/src/services/env-file.ts:69-85 | the whole text when a key that no line holds is written: the old text and a blank line, or the comment in a new file, and then the pair |
| EnvOneKey.OneKeyReplaced | apps/host/src/services/env-file.ts:53-67 | the whole text when one line holds the key: the new pair stands in its place, or nothing if it is set to null |
| NativeArgs.SplitNativeArgs | packages/executors/src/native-command.ts:27-77 | the loop computes the specification `SplitArgs` and never produces an empty argument |
| NativeArgs.SplitUndoesQuoting | packages/executors/src/native-command.ts:27-77 | quoting, joining and splitting gives the arguments without the empty ones, so the same list if and only if none is empty |
| NativeArgs.SplitMeans | packages/executors/src/native-command.ts:27-77 | every line of words of plain and escaped characters and of either kind of quotes, in any mixture and with any white space, is split into what the words mean without the empty ones, also if it breaks off within quotes or after a backslash |
| NativeArgs.SplitUndoesJoining | packages/executors/src/native-command.ts:59-67 | for non-empty arguments without white space, quotes and backslashes plain joining is enough |
| NativeArgs.SplitUndoesJoiningNames | packages/executors/src/native-command.ts:158-162 | that includes all arguments that pass as simple names |
| FailureRanking.AnalyzeFailure | apps/ai-service/app/analysis.py:262-291 | the ranked classification is strict in (-occurrences, position) and has, for every reason hit, its count over all sources, its distinct source labels in order and its first three pieces of evidence; without hits there is one `unknown` |
| RankedFailures.RankingMeans | apps/ai-service/app/analysis.py:262-291 | a ranking has exactly the reasons that some source hits, each with the number of these sources, their names, and the evidence of the first three that have any, by place; more hits come first, and among equals the reason listed first; without hits there is one unknown |
| FailureRanking.CollectSources | apps/ai-service/app/analysis.py:236-260 | error, failed commands with output, logs and failure events become sources, in this order |
| FailureRanking.IndexInjective | apps/ai-service/app/analysis.py:286-290 | the ranking key tells reasons apart, although one reason is not in the list of positions |
| FailureRanking.OrderIrrelevant | apps/ai-service/app/analysis.py:236-291 | permuting commands and events changes neither the ranked reasons with their counts nor the primary reason |
| FailureRanking.HitsConserved | apps/ai-service/app/analysis.py:262-284 | the counts add up to the hits of all sources |
| Chunking.IterChunks | apps/ai-service/app/rag.py:205-227 | for all chunk sizes and overlaps the loops over files and windows terminate and compute the chunks of the specification |
| Chunking.BlankText | apps/ai-service/app/rag.py:209-210 | a file left out for being blank would have had no chunk |
| Chunking.SlicesConcat | apps/ai-service/app/rag.py:212-226 | the stride-long beginnings of the windows concatenate to the whole text |
| Chunking.EveryCharacterCovered | apps/ai-service/app/rag.py:214-226 | with chunk size at least 1 and overlap at least 0 every character that is not white space is in some chunk |
| Chunking.CoveredExactly | apps/ai-service/app/rag.py:214-226 | this holds for all texts if and only if the chunk size is at least 1 and the overlap is not negative |
| Chunking.ChunkIs | apps/ai-service/app/rag.py:215-225 | the k-th chunk has ordinal k and is the text from its offset on; its line is that of its first character if and only if no newline was stripped in front |
| Chunking.WindowMeans | apps/ai-service/app/rag.py:214-215 | a window holds exactly the places from its cursor on before its end, which counts from the end of the text if it is negative |
| Chunking.IdsDistinct | apps/ai-service/app/rag.py:125 | file and ordinal, from which ids are hashed, identify every chunk of an index |
| Chunking.AddInBatches | apps/ai-service/app/rag.py:136-143 | every chunk is added once and in order, in batches that are full except for the last |

## Left out

- RateLimit.AuthRateLimiter.Check: address normalisation, the loopback test and scope defaults are parameters, because they use unseen address functions.
- RateLimit.MakeConfig: limiters with a NaN or infinite limit are not followed further; the host's own settings, which are parsed as positive whole numbers (apps/host/src/config.ts:13-16), never make one.
- Recovery.RecoversUnlessUnknown: task statuses other than the known six are kept as `Unlisted`, because the column is free text.
- ClaudeLoop: child processes and their termination, event payloads other than logged texts, and the texts of risk reasons.
- McpApproval: what the task and session services do besides their statements on these tables; when they resolve or tell is left open, so any of it may happen at any time. Ids of approvals are arbitrary, although the host's never collide.
- ApprovalReports.EventsTrueExactly: events say what is stored in them; a reader that looks an approval up once more when it shows an event without one is not part of this model.
- Reconnection.RejoinedExactly: contents are those of the messages read, which are the newest ones; `Subscription.BeyondLimit` says what becomes of the others.
- McpApproval: event sequence numbers (see `EventNumbering`), event ids that are fresh UUIDs, argument payloads, and the audit log.
- EventStream: timestamps, and the tool-output channel, which works like the assistant channel.
- CodexAppServer: texts of errors and of the assistant, the turn id, the contents of requests, and a second cancellation, which goes to the fallback executor.
- EnvFile: parsing by dotenv and setting `process.env`.
- EventNumbering: the columns that play no part, and which stored rows the start's `INSERT ... SELECT` picks; its rows are any list.
- Recovery: ties between equal message sequence numbers, the order in which stuck tasks are listed, and columns that are neither read nor written.
- Rows and rate-limit entries are values in sequences and maps that the methods reassign, so aliasing between rows is not captured.
- Pattern tables (risk rules, failure patterns), path resolution, JSON parsing and regular expressions over them are uninterpreted functions.
- The Claude Agent SDK executor and the settlement of the Codex CLI executor: the same shapes as `CodexAppServer`, with fewer states.
- Single-flight refresh of models, appendBounded, percentiles and counts of failure reasons: one-step facts that add only easy members.
- HTTP routing, sockets, PTY handling, process spawning, file system and git calls, cryptography, embeddings and the web client: outside events or inputs.
