# Verified model of the agent runtime core

This project models the stateful core of the `aionui-ai-agent` crate in Dafny and proves what it
guarantees over every input, every run and, where callers race, every interleaving.

`dafny verify dfyconfig.toml` checks all of it.

## What is modelled

**Agent tasks** (`TaskLifecycle`, `TaskSafety`, `TaskLookups`, `TaskPromises`, `TaskOrphans`, `TaskCalls`). A conversation id
maps to a shared once-cell. Callers of get-or-build, kill, kill-and-wait and clear are step machines over one map; every
map access, cell inspection and once-cell transition is one event, so a run is any interleaving. History variables log
builds, removals, kills and answers. Every agent ever built is, at any moment, in exactly one of four places: current,
killed, owed to a remover, or orphaned in a slot that its remover gave up while it held no value. The last case is real
(a plain kill during a build); `RemovalCanOrphanIff` says exactly which removals can lead to it. Capabilities hold for
racing callers exactly when all requests for the conversation satisfy each other (`PromiseKeptIff`). `TaskCalls` tells
what one call does from the event that begins it on, by the events of its caller alone.

**The same manager, one caller at a time** (`TaskManager`, `RuntimeToken`, `ActiveLease`, `Types`). A class with the
task map, tied to the token service and the lease registry: what a successful call returns, which tokens a rebuild
revokes and issues, what environment the factory sees, what the idle scan collects. The hash-keyed token map is proved
to behave like a map from (user, conversation) to one grant; lazily expiring leases are proved to answer like leases
that are never dropped.

**Client-hosted terminals** (`OutputBuffer`, `TerminalExit`). The output buffer holds a tail of the whole stream that
does not depend on how the stream was chunked; UTF-8 is taken from section 4 of RFC 3629 and proved to be what the
encoder of its section 3 prints. The reaper, kill, release and wait protocol is a step system over one locked child and
one watch channel.

**Workflow cards** (`WorkflowProgress`, `WorkflowRuns`, `WorkflowTexts`, `WorkflowLedger`). `WorkflowProgress` says what a
card holds and renders, `WorkflowRuns` proves what holds along whole runs (order, rate, freshness, accumulation, phase
accounts), `WorkflowTexts` what the rendered texts say, and the class in `WorkflowLedger` is the record that is updated
in place, each method tied to a step of those runs.

**Attachments** (`MediaMarker`). Printing and stripping the trailing marker block, and the split of attachments.

**Turn events** (`AgentRuntime`). The status write and the broadcast are separate steps; terminal events are counted,
and their order is proved for exactly the resets that keep it.

**The agent catalog** (`Availability`, `AgentRegistries`, `RegistryRuns`). The live probe, the inline version check and
the persisted projection of one row; then the registry's two maps and pending list under hydrate, refresh, reload, handshake and
recheck, with probes completing in any order, and along every sequence of these.

**Skill arguments** (`SkillDelivery`). The two textual passes against one simultaneous substitution, and the plan.

`Text` and `Sorting` define the library operations these use; `Common` holds options, results and `i64` saturation.

### Assumptions

Clock readings, factory outcomes, probe results, version checks, file facts, generated tokens and formatting functions
are parameters. Generated tokens are new, the token hash has no collisions, and repository rows have distinct ids where
a statement says so (the table has a unique index on the id). Timestamps are `i64` with saturation; counters and token
sums are unbounded.

### Where code and comments differ

- The comments on `emit_finish` and `emit_error_data` call them atomic. The status is written under the lock and the
  event is sent after it is released; the model follows the code. `LateBroadcastFollowsReset` shows the difference, and
  `ResetKeepsOrderIff` says exactly when a reset keeps terminal events in order: when the previous emission has
  returned, or the reset is to finished.
- A comment says that startup hydration uses the cached projection. The code probes; the model follows the code.
- Callers of get-or-build are said to share one build. They do, and therefore a caller can be handed an agent that falls
  short of its own request; `PromiseKeptIff` says for which requests this can happen.
- The registry warns that a row is never unavailable without a reason. A first handshake can leave one so; the exact
  condition is in `HandshakeAgreesIff` and `CachedGapIff`, and along runs in `RunCompleteIff`.

## Model

| member | source | states |
|---|---|---|
| TaskLifecycle.StepInv | AionCore/crates/aionui-ai-agent/src/task_manager.rs:169-288 | every event of every caller keeps the invariant on slots, once-cells, builds, removals and kills |
| TaskLifecycle.RunInv | AionCore/crates/aionui-ai-agent/src/task_manager.rs:169-288 | the invariant holds at the end of every run |
| TaskLifecycle.MintIsFresh | AionCore/crates/aionui-ai-agent/src/task_manager.rs:189-193 | a lookup that misses allocates a slot nobody has ever held |
| TaskSafety.EveryAgentAccountedFor | AionCore/crates/aionui-ai-agent/src/task_manager.rs:169-288 | in every interleaving each agent ever built is in exactly one of: current slot, killed, owed to its remover, orphaned; it is killed at most once, and its cell still holds it |
| TaskSafety.QuiescentAgents | AionCore/crates/aionui-ai-agent/src/task_manager.rs:169-288 | once every caller is idle, an agent is unkilled exactly when it is current or orphaned |
| TaskSafety.SafeRemovalsOrphanNothing | AionCore/crates/aionui-ai-agent/src/task_manager.rs:213-288 | an agent is not orphaned if its slot was removed while set, or by kill-and-wait during the very build that set it (a sufficient condition, told after the fact) |
| TaskOrphans.RemovalCanOrphanIff | AionCore/crates/aionui-ai-agent/src/task_manager.rs:169-288 | the exact condition, told at the removal: for every reachable state, some continuation orphans an agent of the removed slot exactly when the slot holds no value and its initialiser is running while the remover will not wait for it, or some caller is about to enter the slot |
| TaskSafety.KillDuringBuildOrphans | AionCore/crates/aionui-ai-agent/src/task_manager.rs:213-232 | a run in which a plain kill during a build leaves a live agent that nobody owns |
| TaskSafety.AwaitedKillMeetsRunningBuild | AionCore/crates/aionui-ai-agent/src/task_manager.rs:234-273 | when the future of kill-and-wait has completed, and the build that was running at the removal succeeded, that agent has been killed |
| TaskSafety.AwaitedKillWaitsForRunningBuild | AionCore/crates/aionui-ai-agent/src/task_manager.rs:234-273 | that future completes only after the attempt it met has failed, or the cell's agent has been killed |
| TaskCalls.AwaitedKillKills | AionCore/crates/aionui-ai-agent/src/task_manager.rs:234-273 | told on events: for every run in which a caller began kill-and-wait and nothing since, if its take meets a running attempt that succeeds, then once the caller is idle that agent has been killed exactly once |
| TaskCalls.RemovedValueIsKilled | AionCore/crates/aionui-ai-agent/src/task_manager.rs:213-288 | whatever call took a slot that held an agent, that agent has exactly one kill once the caller is idle |
| TaskCalls.OnlyAwaitedKillsWait | AionCore/crates/aionui-ai-agent/src/task_manager.rs:169-288 | in every run a caller that began a kill or a clear never waits for a build or a termination, and only get-or-build waits to build |
| TaskCalls.CallRemovesItsTargets | AionCore/crates/aionui-ai-agent/src/task_manager.rs:213-288 | a kill, awaited kill or clear that is over has taken each of its conversations out of the map by an event of its own |
| TaskCalls.CallRemovesNothingElse | AionCore/crates/aionui-ai-agent/src/task_manager.rs:169-288 | no call takes out a conversation it was not asked to remove or to look up |
| TaskCalls.CheckRemovesIff | AionCore/crates/aionui-ai-agent/src/task_manager.rs:174-183 | after its check get-or-build takes the conversation out exactly when the mapped cell holds an agent whose context version is missing or lower than the requested one; otherwise it looks the slot up |
| TaskCalls.FailedKillEndsTheCall | AionCore/crates/aionui-ai-agent/src/task_manager.rs:174-183 | after the removal get-or-build goes on to look up the slot, unless it killed an agent and that failed |
| TaskSafety.OneInitialiserPerSlot | AionCore/crates/aionui-ai-agent/src/task_manager.rs:195-209 | two callers never run the factory for one slot at a time |
| TaskSafety.BuildsBoundedByRemovals | AionCore/crates/aionui-ai-agent/src/task_manager.rs:185-210 | along every run, successful builds of a conversation never exceed one plus its removals |
| TaskSafety.LookupYieldsEpoch | AionCore/crates/aionui-ai-agent/src/task_manager.rs:189-193 | the slot a lookup yields is the one named by the number of removals before it |
| TaskLookups.DifferentAgentsNeedRemovalBetween | AionCore/crates/aionui-ai-agent/src/task_manager.rs:185-210 | if two successful calls for one conversation return different agents, a removal of it fell between their lookups, whichever lookups of those slots by those callers are taken |
| TaskLookups.AnswersWereLookedUp | AionCore/crates/aionui-ai-agent/src/task_manager.rs:189-210 | every answer is for a slot that its caller looked up in the run |
| TaskSafety.NobodyIsStuck | AionCore/crates/aionui-ai-agent/src/task_manager.rs:195-273 | in every interleaving each caller can act, or waits for an initialiser that can |
| TaskPromises.PromiseKeptIff | AionCore/crates/aionui-ai-agent/src/task_manager.rs:169-211 | for every conversation and every set of requests for it: no interleaving hands out an agent that falls short of its request exactly when all requests in the set satisfy each other |
| TaskPromises.BuilderIsServed | AionCore/crates/aionui-ai-agent/src/task_manager.rs:199-210 | in every interleaving each agent was handed to a caller that asked for exactly the capabilities it was built with |
| TaskPromises.JoinedBuild | AionCore/crates/aionui-ai-agent/src/task_manager.rs:174-210 | for any two requests, a run in which the second caller joins the build of the first and is handed what the first asked for |
| Types.SatisfiesIsPreorder | AionCore/crates/aionui-ai-agent/src/types.rs:110-119 | capability satisfaction is reflexive, transitive and total |
| Types.BuildTaskOptions.ApplyConversationRuntimeContext | AionCore/crates/aionui-ai-agent/src/types.rs:55-95 | entries under the five context keys are dropped, the new ones appended in order, the capability version set |
| Types.LastContextWins | AionCore/crates/aionui-ai-agent/src/types.rs:55-95 | applying a second context leaves no trace of the first |
| Types.ContextIsRead | AionCore/crates/aionui-ai-agent/src/types.rs:55-95 | a process started afterwards reads each of the five variables exactly as given, whatever they were before, and every other variable as it was |
| Types.WithoutValues | AionCore/crates/aionui-ai-agent/src/types.rs:63-72 | retaining removes every value of the dropped keys and no other value |
| Types.ReplacedEntry | AionCore/crates/aionui-ai-agent/src/task_manager.rs:152-159 | dropping a key and pushing a value leaves exactly that value, and all other keys' values |
| RuntimeToken.RuntimeTokenService.ExistingToken | AionCore/crates/aionui-ai-agent/src/runtime_token.rs:114-137 | the scan over hash-keyed entries finds the pair's grant exactly when it covers the request, in whatever order entries come |
| RuntimeToken.RuntimeTokenService.IssueToken | AionCore/crates/aionui-ai-agent/src/runtime_token.rs:81-112 | issuing on the hash-keyed map is issuing on the map from pairs to grants; the result covers the request |
| RuntimeToken.RuntimeTokenService.Validate | AionCore/crates/aionui-ai-agent/src/runtime_token.rs:139-169 | the answer, error by error, is the one decided on the pairs-to-grants map |
| RuntimeToken.RuntimeTokenService.InvalidateConversation | AionCore/crates/aionui-ai-agent/src/runtime_token.rs:171-174 | drops the grant of one pair and no other |
| RuntimeToken.RuntimeTokenService.InvalidateConversationId | AionCore/crates/aionui-ai-agent/src/runtime_token.rs:176-179 | drops the grants of one conversation, for every user, and no others |
| RuntimeToken.RuntimeTokenService.InvalidateGeneration | AionCore/crates/aionui-ai-agent/src/runtime_token.rs:181-186 | drops a conversation's grants of one generation and no others |
| RuntimeToken.RuntimeTokenService.GrantsAreWellFormed | AionCore/crates/aionui-ai-agent/src/runtime_token.rs:65-112 | between calls each grant sits under its own pair and no token serves two pairs |
| RuntimeToken.ValidationSucceedsIff | AionCore/crates/aionui-ai-agent/src/runtime_token.rs:139-169 | validation succeeds exactly when the named pair's grant carries the trimmed token, the scope and the generation |
| RuntimeToken.ValidationFailsAs | AionCore/crates/aionui-ai-agent/src/runtime_token.rs:139-169 | each error is characterised on the grant that carries the token |
| RuntimeToken.IssueReusesIff | AionCore/crates/aionui-ai-agent/src/runtime_token.rs:81-112 | an issue hands out the old token exactly when the generation matches and the scopes are covered; other pairs keep theirs |
| RuntimeToken.RevokedStaysRevoked | AionCore/crates/aionui-ai-agent/src/runtime_token.rs:81-186 | over every further run a dead token never becomes live again |
| RuntimeToken.RunsAreWellFormed | AionCore/crates/aionui-ai-agent/src/runtime_token.rs:81-186 | over every run of issues and invalidations no token serves two pairs |
| TaskManager.WorkerTaskManager.GetOrBuildTask | AionCore/crates/aionui-ai-agent/src/task_manager.rs:169-211 | a returned agent is the mapped one and satisfies the request; when the factory runs, what is killed, what the map becomes on success and on failure, and which grants and environment the factory sees |
| TaskManager.WorkerTaskManager.Kill | AionCore/crates/aionui-ai-agent/src/task_manager.rs:213-232 | the entry is gone, its tokens are dropped, its agent is killed if it had one, and the agent's error is returned |
| TaskManager.WorkerTaskManager.Clear | AionCore/crates/aionui-ai-agent/src/task_manager.rs:275-288 | the map is empty, every initialised agent is killed in listing order, exactly the listed conversations' tokens are dropped |
| TaskManager.WorkerTaskManager.RefreshRuntimeToken | AionCore/crates/aionui-ai-agent/src/task_manager.rs:137-160 | issues for the options' pair with the helper scope, and the team scopes when team-bound, and replaces the environment's token |
| TaskManager.RebuildRevokesAndIssues | AionCore/crates/aionui-ai-agent/src/task_manager.rs:137-183 | after a rebuild every earlier token of the conversation is dead, grants elsewhere are untouched, and the new task's pair has a token that covers its scopes, newly generated unless the options name another conversation |
| TaskManager.TokenedHoldsOne | AionCore/crates/aionui-ai-agent/src/task_manager.rs:152-159 | the factory's environment then holds exactly one runtime-token entry, and other keys are untouched |
| TaskManager.CoveredTokenValidates | AionCore/crates/aionui-ai-agent/src/task_manager.rs:141-151 | a pair's covering token validates for each of the scopes |
| TaskManager.OwnTokenAnswers | AionCore/crates/aionui-ai-agent/src/task_manager.rs:141-151 | a task's token validates for the helper scope and, team-bound, for both team scopes; a token newly issued for a task outside any team answers with the missing scope for both |
| TaskManager.EarlierTokenIsUnknown | AionCore/crates/aionui-ai-agent/src/task_manager.rs:137-183 | after a rebuild a token the conversation held before is unknown, whoever presents it for whatever |
| TaskManager.RebuildThenValidate | AionCore/crates/aionui-ai-agent/src/task_manager.rs:174-183 | a client that rebuilds and then validates: the environment holds one token, valid for the helper scope and, exactly if team-bound (for a rebuild of the options' own conversation), for both team scopes; a token the conversation held before is unknown |
| TaskManager.PresentTokens | AionCore/crates/aionui-ai-agent/src/task_manager.rs:137-183 | its two validations, on any service state that a rebuild leaves |
| TaskManager.WorkerTaskManager.CollectIdle | AionCore/crates/aionui-ai-agent/src/task_manager.rs:301-365 | for every walk that meets each conversation once: collected exactly if initialised, ACP, without status or finished, idle longer than the threshold in plain integers, without live background work, and without a lease beyond the reading |
| TaskManager.WorkerTaskManager.Walk | AionCore/crates/aionui-ai-agent/src/task_manager.rs:301-365 | the loop collects what is picked, in walking order |
| TaskManager.PickedInOrder | AionCore/crates/aionui-ai-agent/src/task_manager.rs:301-365 | the collected ids stand at increasing positions of the walk |
| TaskManager.PickedIff | AionCore/crates/aionui-ai-agent/src/task_manager.rs:301-365 | an id is collected exactly when some visit meets it initialised, ACP, without status or finished, idle strictly longer than the threshold, without live background work or active lease |
| ActiveLease.LazyExpiryIsInvisible | AionCore/crates/aionui-ai-agent/src/active_lease.rs:24-48 | on a clock that does not go back, every run answers as if no lease were ever dropped |
| ActiveLease.LookupsAgreeIff | AionCore/crates/aionui-ai-agent/src/active_lease.rs:40-48 | a list of lookups of an id answers, for all leases, as if none were ever dropped exactly when the clock never goes back |
| ActiveLease.ActiveLeaseRegistry.Renew | AionCore/crates/aionui-ai-agent/src/active_lease.rs:24-28 | the expiry is clock plus time to live, or the nearest end of the 64-bit range, and the last renewal of the id |
| ActiveLease.ActiveLeaseRegistry.RenewMany | AionCore/crates/aionui-ai-agent/src/active_lease.rs:30-38 | every listed id, and no other, gets that expiry; the count is the number of ids |
| ActiveLease.ActiveLeaseRegistry.ActiveUntil | AionCore/crates/aionui-ai-agent/src/active_lease.rs:40-48 | the answer is judged by the last renewal alone; only an expired lease of that id is dropped |
| ActiveLease.LeaseLasts | AionCore/crates/aionui-ai-agent/src/active_lease.rs:24-48 | along every run with a forward clock, a lookup at t of an id last renewed at now answers now + time to live exactly while t lies before it, in plain integers up to the end of the 64-bit range |
| ActiveLease.RenewThenLookUp | AionCore/crates/aionui-ai-agent/src/active_lease.rs:4-48 | a new registry keeps a renewed lease for 90 000 ms |
| ActiveLease.RenewManyThenLookUp | AionCore/crates/aionui-ai-agent/src/active_lease.rs:4-48 | so it does for each of many ids, and for no other |
| OutputBuffer.OutputBuffer.Push | AionCore/crates/aionui-ai-agent/src/terminal.rs:56-69 | after any chunking the buffer is the suffix of the whole stream from the first character boundary within the limit, and truncated says whether the stream exceeded it |
| OutputBuffer.OutputBuffer.CutPoint | AionCore/crates/aionui-ai-agent/src/terminal.rs:61-64 | the loop ends at the first character boundary at or after the overflow |
| OutputBuffer.OutputBuffer.Contents | AionCore/crates/aionui-ai-agent/src/terminal.rs:50-69 | the data is well-formed UTF-8, at most the limit, the longest such suffix, short of the limit by at most three bytes; truncated exactly when something was dropped |
| OutputBuffer.Utf8Cut | AionCore/crates/aionui-ai-agent/src/terminal.rs:60-64 | cutting well-formed text leaves well-formed text exactly at character boundaries |
| OutputBuffer.TailIsLongest | AionCore/crates/aionui-ai-agent/src/terminal.rs:59-67 | the cut leaves the longest well-formed suffix that fits, and loses at most three bytes more than needed |
| OutputBuffer.Utf8Iff | AionCore/crates/aionui-ai-agent/src/terminal.rs:56-69 | the model's well-formed text is exactly what an independent encoder prints: sequences of encoded code points without surrogates |
| OutputBuffer.CutIsUnique | AionCore/crates/aionui-ai-agent/src/terminal.rs:59-67 | a stream has one cut for a limit, and nothing is dropped exactly when it fits |
| OutputBuffer.CutMoves | AionCore/crates/aionui-ai-agent/src/terminal.rs:59-67 | the next boundary of the overfull tail is the cut of the whole stream |
| OutputBuffer.OutputBuffer.constructor | AionCore/crates/aionui-ai-agent/src/terminal.rs:163-168 | starts empty; a limit below one byte becomes one |
| TerminalExit.StepInv | AionCore/crates/aionui-ai-agent/src/terminal.rs:204-348 | every event keeps the agreement of lock, child, channel and callers, and never changes a published exit |
| TerminalExit.FreeLockAgreement | AionCore/crates/aionui-ai-agent/src/terminal.rs:204-348 | whenever the lock is free the child is gone exactly if an exit is published |
| TerminalExit.PublishedOnce | AionCore/crates/aionui-ai-agent/src/terminal.rs:204-348 | an exit is published at most once, is what the channel holds, and no continuation changes it |
| TerminalExit.PublishedIsTheEnding | AionCore/crates/aionui-ai-agent/src/terminal.rs:204-348 | over every run the child ends once, and as soon as the lock is free the published exit is that ending: the polled code as unsigned and whether a signal ended it, neither if polling failed, or a signal without code after a kill |
| TerminalExit.CallIsServed | AionCore/crates/aionui-ai-agent/src/terminal.rs:283-348 | one kill, release or wait in any interleaving: if it finds the terminal, then once it has returned the exit is published and the child gone, or the waiter answered; otherwise it returns at once; a release unregisters, the others do not |
| TerminalExit.ReaperPublishes | AionCore/crates/aionui-ai-agent/src/terminal.rs:209-262 | after every run, while the child lives and the lock is free, the reaper can publish its end in four steps |
| TerminalExit.WaitersAgree | AionCore/crates/aionui-ai-agent/src/terminal.rs:283-300 | all waiters get the one published exit; the synthetic fallback is never reached |
| TerminalExit.StoppedIsPublished | AionCore/crates/aionui-ai-agent/src/terminal.rs:302-348 | once a kill or release has returned, the child is gone and its exit published |
| TerminalExit.NobodyIsStuck | AionCore/crates/aionui-ai-agent/src/terminal.rs:209-348 | a held lock can be worked off, and a waiter is blocked only while no exit is published and the reaper still runs |
| WorkflowLedger.WorkflowCard.constructor | AionCore/crates/aionui-ai-agent/src/workflow_progress.rs:192-207 | a new card: empty roster, running, never emitted |
| WorkflowLedger.WorkflowCard.Task | AionCore/crates/aionui-ai-agent/src/workflow_progress.rs:221-265 | a task card differs by kind and headline |
| WorkflowLedger.WorkflowCard.DeclarePhase | AionCore/crates/aionui-ai-agent/src/workflow_progress.rs:287-290 | the title is stored, and the result says whether the index was new |
| WorkflowLedger.WorkflowCard.UpsertAgent | AionCore/crates/aionui-ai-agent/src/workflow_progress.rs:292-311 | the whole new state; the result says whether the agent is new or reached another loop state |
| WorkflowLedger.WorkflowCard.Settle | AionCore/crates/aionui-ai-agent/src/workflow_progress.rs:313-323 | every agent is done and otherwise unchanged |
| WorkflowLedger.WorkflowCard.TakeEmission | AionCore/crates/aionui-ai-agent/src/workflow_progress.rs:325-367 | when a frame goes out, which frame it is, and what the card remembers of it |
| WorkflowLedger.WorkflowCard.RenderOutput | AionCore/crates/aionui-ai-agent/src/workflow_progress.rs:418-442 | grouping by phase and listing in key order yields the specified output |
| WorkflowRuns.RosterOnlyGrows | AionCore/crates/aionui-ai-agent/src/workflow_progress.rs:180-182 | along every run roster keys stay distinct and earlier rosters' keys are a prefix of later ones' |
| WorkflowRuns.EmissionsListRosters | AionCore/crates/aionui-ai-agent/src/workflow_progress.rs:477-532 | every emission of a run lists, without gaps and in order, the roster it was made from |
| WorkflowRuns.EmissionsExtendEachOther | AionCore/crates/aionui-ai-agent/src/workflow_progress.rs:20-23 | each emission's entry ids are a prefix of those of every later one |
| WorkflowRuns.ConsumerHoldsOneRow | AionCore/crates/aionui-ai-agent/src/workflow_progress.rs:20-23 | a consumer that replaces the row keyed by the first entry holds, after any run, exactly one row: the last emission's full roster |
| WorkflowRuns.EntryIdsClashIff | AionCore/crates/aionui-ai-agent/src/workflow_progress.rs:505-516 | two containers can produce equal entry ids exactly when one id, closed by a colon, starts the other |
| WorkflowRuns.ColonFreeIdsNeverClash | AionCore/crates/aionui-ai-agent/src/workflow_progress.rs:505-516 | different colon-free container ids never produce equal entry ids |
| WorkflowRuns.RateOfNewCard | AionCore/crates/aionui-ai-agent/src/workflow_progress.rs:330-367 | with a clock that does not go back, a run spanning W ms with K forced calls emits at most 1 + K + W/500 times |
| WorkflowRuns.FreshIff | AionCore/crates/aionui-ai-agent/src/workflow_progress.rs:325-367 | after a call the last sent rendering is the current one exactly if the card has content and the call was forced or due, or it was current before |
| WorkflowRuns.EntryIsFoldOfItsEvents | AionCore/crates/aionui-ai-agent/src/workflow_progress.rs:294-323 | along every run, what a card knows of an agent is the fold of that agent's own deltas and of the settlements, whatever else came in between |
| WorkflowRuns.InterleavingsAgree | AionCore/crates/aionui-ai-agent/src/workflow_progress.rs:15-19 | runs with the same deltas of an agent and the same settlements among them agree on that agent |
| WorkflowRuns.FoldIsLastPresent | AionCore/crates/aionui-ai-agent/src/workflow_progress.rs:89-108 | in each of the ten fields the fold is the last value carried; a settlement carries the loop state done |
| WorkflowRuns.FoldFromNothing | AionCore/crates/aionui-ai-agent/src/workflow_progress.rs:303-309 | an agent is unknown until its first delta, and starts from an entry without values |
| WorkflowRuns.OutputIsStableSort | AionCore/crates/aionui-ai-agent/src/workflow_progress.rs:418-442 | the output lists every agent once, in the stable order by phase; per-phase counts sum to the roster |
| WorkflowRuns.LinesFollowOutputOrder | AionCore/crates/aionui-ai-agent/src/workflow_progress.rs:424-440 | headers aside, the lines of the output are the agents in that order |
| WorkflowRuns.DoneWithinKnown | AionCore/crates/aionui-ai-agent/src/workflow_progress.rs:534-542 | done never exceeds known in a phase; after settlement they are equal, and known is unchanged |
| WorkflowRuns.CountsAreCounts | AionCore/crates/aionui-ai-agent/src/workflow_progress.rs:534-542 | a phase's two numbers are the cardinalities of its agents and of those whose loop state is done |
| WorkflowRuns.ReachingDoneRaisesCount | AionCore/crates/aionui-ai-agent/src/workflow_progress.rs:294-311 | an update that takes a known, unfinished agent to done within its phase raises that done count by one and changes no other count |
| WorkflowRuns.StateChangeIff | AionCore/crates/aionui-ai-agent/src/workflow_progress.rs:294-311 | an update is a state change exactly if the id is new or the delta names another loop state |
| WorkflowTexts.HeadlineReads | AionCore/crates/aionui-ai-agent/src/workflow_progress.rs:391-416 | the headline, part by part: phase title with done and known agents, label, number of agents, token total, clock |
| WorkflowTexts.UpdateMovesFocus | AionCore/crates/aionui-ai-agent/src/workflow_progress.rs:391-416 | right after an update the headline speaks of the updated agent |
| WorkflowTexts.HeadersIff | AionCore/crates/aionui-ai-agent/src/workflow_progress.rs:424-440 | a header stands in the output exactly for a phase of some agent with a title: the declared one, or else that of its first agent |
| WorkflowTexts.HeaderReads | AionCore/crates/aionui-ai-agent/src/workflow_progress.rs:424-440 | a header shows the phase number, its title, and its done and known agents |
| WorkflowTexts.AgentLineReads | AionCore/crates/aionui-ai-agent/src/workflow_progress.rs:444-475 | an agent line shows mark, label, model and tokens, then the last tool, or the number of calls while no tool is known, then the duration |
| WorkflowTexts.GroupEntryReads | AionCore/crates/aionui-ai-agent/src/workflow_progress.rs:477-532 | a tool-group entry has success exactly when its agent is done, and lists what is known of it in order |
| WorkflowTexts.ModelReads | AionCore/crates/aionui-ai-agent/src/workflow_progress.rs:546-554 | the shown model is the dot-free end of the model id, without leading `claude-` |
| WorkflowTexts.ElideKeepsEnds | AionCore/crates/aionui-ai-agent/src/workflow_progress.rs:572-581 | an elided text is the text, or its two equally long ends around an ellipsis, as long as fits |
| WorkflowTexts.ClockReadsBack | AionCore/crates/aionui-ai-agent/src/workflow_progress.rs:564-567 | the clock text reads back as whole minutes and seconds below sixty |
| WorkflowTexts.EmitsIff | AionCore/crates/aionui-ai-agent/src/workflow_progress.rs:330-367 | a call sends exactly if there is something to show and it is forced, or the rendering moved and 500 ms are over |
| WorkflowProgress.MembersAreMembers | AionCore/crates/aionui-ai-agent/src/workflow_progress.rs:537-539 | a phase's members are exactly its agents, in roster order, and as many as its known count |
| MediaMarker.StripUndoesAppendIff | AionCore/crates/aionui-ai-agent/src/media.rs:124-143 | for every text and nonempty list, stripping undoes printing exactly when every path is a plain, marker-free line |
| MediaMarker.AllPathsIdempotentIff | AionCore/crates/aionui-ai-agent/src/media.rs:160-162 | listing all paths twice is listing them once exactly under that condition |
| MediaMarker.AllPathsKeepsCanonical | AionCore/crates/aionui-ai-agent/src/media.rs:155-162 | a message that already lists its printable paths is left as it is |
| MediaMarker.StripLeavesOthers | AionCore/crates/aionui-ai-agent/src/media.rs:124-135 | a text without a marker, or whose marker lists other printable paths, is left as it is |
| MediaMarker.LastMark | AionCore/crates/aionui-ai-agent/src/media.rs:125-127 | the last marker of a printed message is the printed one exactly when no path holds a marker, for any one-line marker |
| MediaMarker.BlockReadsBack | AionCore/crates/aionui-ai-agent/src/media.rs:128-129 | the block's trimmed lines are the printed paths exactly when these are plain lines |
| MediaMarker.PartitionMedia | AionCore/crates/aionui-ai-agent/src/media.rs:61-89 | the loop yields the native and the path attachments; content is rewritten only if some are native |
| MediaMarker.PartitionIsExact | AionCore/crates/aionui-ai-agent/src/media.rs:61-118 | the two lists are order-preserving subsequences that share no position and cover all; an attachment goes natively exactly if it is a regular file of at most 5 242 880 bytes, and an image but no SVG, or a sound, that the agent takes; the block carries its path, type and kind |
| MediaMarker.PartitionKeepsCanonical | AionCore/crates/aionui-ai-agent/src/media.rs:79-83 | the canonical message of all paths becomes the canonical message of the remaining ones, which strips back to the text |
| MediaMarker.NothingNative | AionCore/crates/aionui-ai-agent/src/media.rs:57-68 | without capabilities every attachment stays a path |
| AgentRuntime.OneTerminalEventPerTurn | AionCore/crates/aionui-ai-agent/src/agent_runtime.rs:88-149 | in every interleaving terminal events sent or pending are at most one plus the resets, and at most the resets while not finished |
| AgentRuntime.FinishedIsAbsorbing | AionCore/crates/aionui-ai-agent/src/agent_runtime.rs:85-95 | without resets a finished status stays, and no further terminal event appears |
| AgentRuntime.SingleTurnSendsOnce | AionCore/crates/aionui-ai-agent/src/agent_runtime.rs:109-149 | a run without resets sends at most one terminal event |
| AgentRuntime.OrderlyRunsAreInOrder | AionCore/crates/aionui-ai-agent/src/agent_runtime.rs:88-149 | along every run whose resets find no emission under way, or reset to finished, the broadcasts are the won marks in order, the last of which may still be under way |
| AgentRuntime.ResetKeepsOrderIff | AionCore/crates/aionui-ai-agent/src/agent_runtime.rs:100-149 | after any such run, a reset keeps the order in every such continuation exactly when no emission is under way or it resets to finished |
| AgentRuntime.LateBroadcastFollowsReset | AionCore/crates/aionui-ai-agent/src/agent_runtime.rs:100-126 | a run in which a turn's terminal event is broadcast after the next turn's |
| AgentRuntime.Runtime.TransitionTo | AionCore/crates/aionui-ai-agent/src/agent_runtime.rs:85-95 | a finished status stays, any other is replaced; nothing else changes |
| AgentRuntime.Runtime.ResetForNewTurn | AionCore/crates/aionui-ai-agent/src/agent_runtime.rs:97-103 | the status is replaced whatever it was; nothing else changes |
| AgentRuntime.Runtime.EmitFinish | AionCore/crates/aionui-ai-agent/src/agent_runtime.rs:109-126 | undisturbed, finishes and sends one Finish unless already finished |
| AgentRuntime.Runtime.EmitErrorData | AionCore/crates/aionui-ai-agent/src/agent_runtime.rs:134-149 | undisturbed, finishes and sends one Error unless already finished |
| Availability.ProbeResolvesIff | AionCore/crates/aionui-ai-agent/src/registry.rs:1574-1615 | the probe succeeds exactly when the row is enabled, has a command, and every required command is found; its reason names a required command that is missing |
| Availability.ProbeFindsTheCommand | AionCore/crates/aionui-ai-agent/src/registry.rs:1574-1615 | the path of a successful probe is where the row's own command is found: for builtin claude and codex rows the override, else the primary binary, else the command |
| Availability.ProbeFailsAs | AionCore/crates/aionui-ai-agent/src/registry.rs:1574-1615 | which reason a failing probe gives, in the order of the checks |
| Availability.ProbedRowReads | AionCore/crates/aionui-ai-agent/src/registry.rs:923-928 | a probed row is available exactly if the probe succeeded or it runs inside the application, and its resolved command is the path just found or none |
| Availability.ApplyProbe | AionCore/crates/aionui-ai-agent/src/registry.rs:923-928 | a probed row is available exactly when there is no reason; nothing but availability and resolved command changes |
| Availability.Validate | AionCore/crates/aionui-ai-agent/src/registry.rs:945-993 | the version check keeps the agreement between availability and reason |
| Availability.IgnoresVersionIff | AionCore/crates/aionui-ai-agent/src/registry.rs:930-993 | a check skips the version probe, whatever that would show, exactly for rows that are slow by history or have no version probe to run |
| Availability.CachedGapIff | AionCore/crates/aionui-ai-agent/src/registry.rs:1006-1092 | the cached projection leaves a row unavailable without a reason exactly for the gap rows |
| Availability.CachedIsAvailableIff | AionCore/crates/aionui-ai-agent/src/registry.rs:1006-1092 | the cached projection takes a row for available exactly if it is enabled and either runs inside the application or has been checked with an error code other than the seven for missing things |
| Availability.CheckedRowsAreMissingIff | AionCore/crates/aionui-ai-agent/src/registry.rs:1220-1236 | after a live check a row is shown as missing exactly when unavailable |
| Availability.ShownAs | AionCore/crates/aionui-ai-agent/src/registry.rs:1220-1236 | online, offline and missing, each characterised on the row |
| AgentRegistries.OrderIsIrrelevantIff | AionCore/crates/aionui-ai-agent/src/registry.rs:282-301 | the maps and the sorted pending list are the same in every completion order exactly when checks that share an id agree on the row, and on the reason if both have one |
| AgentRegistries.CompletionOrderIsIrrelevant | AionCore/crates/aionui-ai-agent/src/registry.rs:995-1004 | for any two completion orders of such checks they are the same |
| AgentRegistries.AgentRegistry.Hydrate | AionCore/crates/aionui-ai-agent/src/registry.rs:269-303 | for stored rows with distinct ids the maps and pending list are those of the rows in stored order, and reasons and unavailable rows correspond |
| AgentRegistries.AgentRegistry.RefreshAvailability | AionCore/crates/aionui-ai-agent/src/registry.rs:375-413 | every row's availability and resolved command are those of its own new check, nothing else in a row changes, and reasons and unavailable rows correspond |
| AgentRegistries.AgentRegistry.CollectChecks | AionCore/crates/aionui-ai-agent/src/registry.rs:389-401 | the loop over completed checks yields their reasons and pending ids |
| AgentRegistries.HydratedPending | AionCore/crates/aionui-ai-agent/src/registry.rs:269-303 | after startup exactly the ids of stored rows that are version-checked and slow by history or timed out are pending |
| AgentRegistries.RefreshedPending | AionCore/crates/aionui-ai-agent/src/registry.rs:391-403 | after a refresh exactly the cached rows that are version-checked and slow by history or timed out are pending |
| AgentRegistries.AgentRegistry.ReloadOne | AionCore/crates/aionui-ai-agent/src/registry.rs:417-441 | error, missing row, undecodable row and probed row, each with its whole effect; both correspondences are kept |
| AgentRegistries.AgentRegistry.ApplyHandshake | AionCore/crates/aionui-ai-agent/src/registry.rs:208-231 | the cached row keeps a known availability; reasons stay with unavailable rows, and the converse breaks exactly for a first-cached gap row |
| AgentRegistries.HandshakeAgreesIff | AionCore/crates/aionui-ai-agent/src/registry.rs:208-231 | the same, on the maps |
| AgentRegistries.FirstHandshakeCanLeaveNoReason | AionCore/crates/aionui-ai-agent/src/registry.rs:208-231 | a concrete row for which a first handshake leaves no reason |
| AgentRegistries.AgentRegistry.RunSlowProbeRecheck | AionCore/crates/aionui-ai-agent/src/registry.rs:314-362 | the pending list is emptied; each row pending once is online exactly if its recheck worked, with an error exactly if not and the reading under success or failure; both correspondences are kept |
| AgentRegistries.RecheckKeepsAvailability | AionCore/crates/aionui-ai-agent/src/registry.rs:343-360 | no row comes, goes or changes availability, and rows that were not pending are untouched |
| AgentRegistries.RecheckSettles | AionCore/crates/aionui-ai-agent/src/registry.rs:316-361 | each pending row ends up with its own measurement |
| AgentRegistries.RecheckWrites | AionCore/crates/aionui-ai-agent/src/registry.rs:314-362 | over a whole recheck, field by field: verdict, error code by kind of failure, message, latency, and which of the two times is set |
| AgentRegistries.RecheckedIsShownOnlineIff | AionCore/crates/aionui-ai-agent/src/registry.rs:316-361 | an available row that does not run inside the application is then shown online exactly if its recheck worked, else offline |
| AgentRegistries.RecheckedRowSkipsProbeIff | AionCore/crates/aionui-ai-agent/src/registry.rs:310-362 | after a whole recheck, the next check of a rechecked row skips the version probe exactly when it was measured slow or timed out, or has no version probe to run |
| RegistryRuns.StepAgrees | AionCore/crates/aionui-ai-agent/src/registry.rs:208-441 | every operation keeps reasons with unavailable rows, and changes the set of unavailable rows without a reason exactly as told from the operation |
| RegistryRuns.RunAgrees | AionCore/crates/aionui-ai-agent/src/registry.rs:208-441 | the same along every sequence of operations |
| RegistryRuns.RunCompleteIff | AionCore/crates/aionui-ai-agent/src/registry.rs:208-441 | from the empty registry every unavailable row has a reason all along exactly if no handshake first caches a gap row |
| RegistryRuns.ShownMissingIff | AionCore/crates/aionui-ai-agent/src/registry.rs:1220-1236 | in every reachable registry a row is shown as missing exactly when it is unavailable, except unexplained rows that were never checked |
| Sorting.SortedIsUnique | AionCore/crates/aionui-ai-agent/src/registry.rs:294-294 | a sorted list is determined by its elements |
| Sorting.SortDedup | AionCore/crates/aionui-ai-agent/src/skill_delivery_plan.rs:111-112 | sorting and deduplicating leaves each element once, in strict order |
| Sorting.LexLeIff | AionCore/crates/aionui-ai-agent/src/skill_delivery_plan.rs:111-112 | the order of the reported placeholders: the first differing character decides, else the shorter text comes first |
| Text.ReplaceJoinsPieces | AionCore/crates/aionui-ai-agent/src/skill_delivery_plan.rs:121-136 | replacing cuts a text at the pattern, from the left, and joins the pieces with the replacement |
| Text.PiecesAreUnique | AionCore/crates/aionui-ai-agent/src/skill_delivery_plan.rs:121-136 | there is one such list of pieces |
| Text.TrimTakesWhitespace | AionCore/crates/aionui-ai-agent/src/media.rs:128-129 | trimming takes whitespace off both ends and nothing else |
| SkillDelivery.SubstitutionIsSimultaneousIff | AionCore/crates/aionui-ai-agent/src/skill_delivery_plan.rs:121-136 | for a skills root without braces the two passes equal one simultaneous substitution of every argument exactly when the root is no piece of the other placeholder, or that placeholder stands for itself |
| SkillDelivery.PathsSubstituteAtOnce | AionCore/crates/aionui-ai-agent/src/skill_delivery_plan.rs:121-136 | so they do for every brace-free root with a slash in it |
| SkillDelivery.SubstituteScalar | AionCore/crates/aionui-ai-agent/src/skill_delivery_plan.rs:121-144 | the substituted argument, noted when it still looks like a placeholder |
| SkillDelivery.ViewDirReads | AionCore/crates/aionui-ai-agent/src/skill_delivery_plan.rs:121-136 | `{skill_view_dir}` between texts without braces gives way to the plugin root, whatever the skills root is, and stays without one |
| SkillDelivery.ViewSkillsDirReads | AionCore/crates/aionui-ai-agent/src/skill_delivery_plan.rs:121-136 | `{skill_view_skills_dir}` gives way to a brace-free skills root, and stays without one |
| SkillDelivery.AllowedReads | AionCore/crates/aionui-ai-agent/src/skill_delivery_plan.rs:90-102 | an allow-list argument names the skill's own directory in place of `{skill_dir}`, or is the same for every skill |
| SkillDelivery.PlanSkillDelivery | AionCore/crates/aionui-ai-agent/src/skill_delivery_plan.rs:53-119 | the arguments are the substituted launch arguments (argv mode with a view only) followed by every skill's allow-list; the protocol root; the reported placeholders, strictly sorted, are exactly the leftover scalars |
| SkillDelivery.AllowArgsPerSkill | AionCore/crates/aionui-ai-agent/src/skill_delivery_plan.rs:87-104 | each skill gets the whole allow-list right behind those of the skills before it |
| SkillDelivery.AllowArgsRead | AionCore/crates/aionui-ai-agent/src/skill_delivery_plan.rs:87-104 | the k-th allow-list argument for the j-th skill stands at j times the length of the list plus k |
| SkillDelivery.ReportedIff | AionCore/crates/aionui-ai-agent/src/skill_delivery_plan.rs:138-143 | reported are exactly the substituted scalars, of the launch arguments in argv mode with a root and of the allow-list, that still begin and end with a brace |

## Left out

- Spawning processes, pipes, process trees, PATH lookup, version runs, file metadata, MIME tables and the clock: parameters.
- Random generation and hashing: generated tokens are parameters that must be new, the hash is a parameter without collisions.
- Token and lease calls between threads: each call is one step here; the source performs several map operations.
- Factory panics, cancelled callers and runtime shutdown: outside the step systems.
- `clear` joins the agents' own terminations after its loop; the step system counts the kills and does not model the join.
- SafeRemovalsOrphanNothing: one direction, and it speaks of how the build ended; `RemovalCanOrphanIff` is the exact form at the removal.
- Tokens and environments in the concurrent system: covered sequentially only.
- Several terminals at once, terminal ids, `kill_all` and output snapshots: the exit protocol is per terminal.
- The reader task's lossy decoding: chunks arrive as well-formed text.
- Padding of agent lines and fractional formatting of tokens and seconds: parameters; JSON arguments are opaque text.
- Token sums are unbounded numbers, where the source adds `u64` values.
- The consumer of tool groups is modelled by its row replacement only, and only for the nonempty groups that a workflow emits.
- JSON decoding of rows, command and environment overrides, the database, handshake payload merging and per-user overlays of the registry.
- Logging, error texts, guidance and diagnostics details.
- Listing and lookup helpers of the registry, `is_active`, `active_count`, and the raw `emit`.
- Failed repository reads are not steps of the registry's runs: they change nothing.
