# Verification of the research assistant's session protocol and cores

The repository answers research questions in sessions. A session is a log of turns in MySQL, a table
of snapshots, and a working document and a turn lock in Redis; any number of workers may call
`run_turn` on it at once. A turn classifies the message and, unless it only asks for clarification,
runs a graph of agents (researcher, analyst, critic, synthesizer) that loops until the critic is
satisfied or the budget is spent. Research reaches tools through a discovery step, and a browser
client reads the answer as a stream of server-sent events.

The project models these parts in Dafny and proves what they guarantee.

## How the model is laid out

| file | models |
|---|---|
| `Text.dfy`, `Wrappers.dfy`, `Picking.dfy` | string operations, `Option`, and picking elements in order |
| `ResearchState.dfy` | graph channels, their reducers, input validation (`agents/state.py`) |
| `ResearchGraph.dfy` | what each node writes, and the compiled graphs (`agents/nodes/`, `agents/graph.py`) |
| `SingleFlight.dfy` | the `_busy` flag under the three entry points (`agents/graph.py`) |
| `Conversation.dfy` | routing, snapshot to engine input and back, one engine turn (`conversation/routing.py`, `conversation/merge.py`) |
| `SessionStores.dfy` | the two stores as classes whose calls may fail before or after their effect |
| `TurnProtocol.dfy` | the turn protocol as a step system: every `await` is one step of one call |
| `TurnSafety.dfy` | what holds in every run, whatever fails, stops or expires |
| `Ownership.dfy`, `Records.dfy` | who may leave a row, and what rows and snapshots tell about the calls that wrote them, in every run |
| `LockSafety.dfy` | what holds in addition while no lock key expires under its holder |
| `Replay.dfy` | what a retry of an answered key gets, in every run |
| `Schedules.dfy`, `SoloTurns.dfy` | undisturbed stretches of one call, used to exhibit runs |
| `ExpiryHazards.dfy` | what goes wrong when a lock key does expire under its holder |
| `Reachability.dfy`, `Endings.dfy` | how undisturbed calls end, with a new key, an abandoned key, a held lock or a failing await, and runs that reach the states from which things go wrong |
| `SessionFold.dfy` | a lock-respecting session equals a simple fold over its saved turns |
| `SnapshotLineage.dfy` | the part of that fold that survives expiry: each snapshot and the turns it descends from |
| `Coordinator.dfy` | `run_turn` as imperative code; every execution is a run of the step system |
| `ToolDiscovery.dfy` | payloads and generated models; filtering, ordering and trying tools |
| `SseStream.dfy`, `KeyNormaliser.dfy` | the streaming loop and the key rewriting of the browser client |
| `LatencyStats.dfy`, `SeedSync.dfy` | percentiles and usage statistics, and seeding of the tool registry |

**Two levels of guarantee.** `TurnSafety` allows any interleaving of any number of calls, a failure of
any store call before or after its effect, workers that stop at any point, and expiry of either Redis
key at any time. What survives rests on the two unique constraints alone. `LockSafety` assumes
`RespectsRun`: the lock key never expires while its token belongs to a call between acquire and release.
`ExpiryHazards` shows that this assumption is needed. With the defaults it is not guaranteed: a graph run
may take 180 s (`agents/config.py:30`) while the lock lives 120 s (`conversation/config.py:40`).

**From code to steps.** `Coordinator.ConversationCoordinator` has the statements of `run_turn`: store
calls, the acquire loop of 200 rounds, early exits and the release at the end. Before each store call the
method `Yield` lets any steps of other calls happen; `OthersLeave` shows that what it promises holds of every
such run. `Record` requires that what the store call did is what the step system does. So the contract of
`RunTurn` says that each execution is a run of the protocol in which the classifier and the engine answered
this call as they did, and the theorems about all runs apply to it. Stores and classifier may be declared
reliable; then the run has no fault of this call, its outcome is no failure of a store, and what is proved of
such calls in every run holds of what `RunTurn` returns (`CoordinatorSafety.FinishedRetryGetsVerdict`).
`SingleFlight.GraphModule` is tied to its step system in the same way.

## What the proofs found

- A user row with an idempotency key whose call stopped before its answer shuts that key for good: no
  later call with it ever returns a turn (`TurnSafety.AbandonedKeyNeverReturns`); an undisturbed one ends in an
  integrity error (`Endings.AbandonedKeyCollides`). The exact conditions:
  once the call that opened a keyed turn has stopped, a retry that meets no fault and gets the lock returns a
  turn if and only if the turn was answered, the key is not empty and the fingerprint agrees
  (`Reachability.RetriedExactlyWhenCompleted`); and an undisturbed call with a new key completes it if and
  only if its turn gets a reply, and abandons it otherwise (`Reachability.KeySettledExactly`), where, with
  answers that do not raise, a reply comes if and only if clarification is asked for, or the message is not
  blank and the iteration budget is valid (`Reachability.RepliesExactly`). A message of white space passes
  the length check of the request, is stripped and stored, and is then refused by the graph.
- An empty idempotency key skips the look-up, but it is stored and the unique constraint applies to it. So
  a retry is replayed only with a key that is not empty (`Replay.ReplayedExactlyWithKey`), a second call with
  the empty key never returns a turn (`Replay.EmptyKeyNeverReturns`), and undisturbed it ends in an integrity
  error (`Reachability.EmptyKeyCollides`). A header of spaces or tabs does not get there: it is trimmed when
  the field is parsed, arrives empty, and the route passes no key. White space that field parsing keeps, such
  as a no-break space, is stripped by the route and does, and so does a direct call with the empty key.
- One expiry under a running call lets a second call in, a delayed release then deletes the second call's
  lock and lets a third one in (`ExpiryHazards.StaleReleaseEvictsHolder`), and a late snapshot is stored but
  not read (`ExpiryHazards.LateSaveIsLost`), then or ever after (`ExpiryHazards.SupersededForever`). Runs of
  a new session reach all of this (`Reachability.CaughtReleasing`, `Reachability.CaughtSaving`,
  `Reachability.SnapshotsGetLost`).
- What an expiry cannot do is mix turns up: every snapshot still shows exactly the account of a line of saved
  turns that leads to it (`SnapshotLineage.EverySnapshotIsAccount`).
- `conversation/config.py:10` speaks of FIFO order per session; the code polls for the lock
  (`conversation/coordinator.py:113-117`), and no order is modelled.
- A built payload satisfies the model generated from the same schema except when the schema has
  properties, none of which has a dictionary as its spec, and neither a property nor an entry of
  `required` is named `query` (`ToolPayload.PayloadCoversModel`).
- A server-sent frame whose data ends in white space loses it, and one whose data is nothing but white
  space is dropped (`SseStream.BodyParses`).
- Blocks are delivered exactly when two line feeds meet in the text (`SseStream.DeliveredExactlyWithBlank`),
  so a stream whose lines end in carriage return and line feed delivers nothing and ends in the error for a
  missing result, whatever was sent (`SseStream.CarriageReturnsDeliverNothing`).
- A JSON object with a key `constructor` is returned by the key rewriting as it is, with everything below it
  (`KeyNormaliser.FixedExactlyWhenNormal`).
- Percentiles commute with a change of unit and origin except on the empty series, whose percentile is 0
  (`Percentiles.PercentileScales`).

## Model

| member | source | states |
|---|---|---|
| TurnSafety.StepKeepsInv | conversation/coordinator.py:81-266 | every step of every call, failed, stopped or expired ones included, keeps the session invariant: exact log, unique keys, one user row per call, rows authored by their calls, snapshots matching assistant rows, and what each call knows at its await |
| TurnSafety.ReachableInv | conversation/coordinator.py:81-271 | the invariant holds in every state that any run of a created session reaches |
| TurnSafety.TurnLogIsExact | conversation/persistence/mysql_models.py:48-51 | in every run the turn indices are 0..n-1 in insertion order and an assistant row at i+1 follows a user row at i of the same call and trace |
| TurnSafety.OnlyNextIndexFits | conversation/persistence/mysql_store.py:64-104 | a stale index is never admitted: of all indices up to the length of the log only the length itself passes the unique constraint |
| TurnSafety.NextIndexIsLength | conversation/persistence/mysql_store.py:64-71 | on an exact log the maximum plus one is the number of rows |
| TurnSafety.KeyHasOneWriter | conversation/coordinator.py:121-163 | in every run a stored key has one row, a user row, and every other call carrying that key, replayed, rejected or failed, has written no turn and no snapshot |
| TurnSafety.ReturnedTurnIsOnRecord | conversation/coordinator.py:135-142 | in every run a returned turn, processed or replayed, has the index, text, key and fingerprint of the two rows in the log; a processed one is the caller's own |
| TurnSafety.RowsPersist | conversation/persistence/mysql_store.py:73-104 | turns and snapshots are only ever added |
| TurnSafety.MismatchNeverReturns | conversation/coordinator.py:125-132 | once a key is stored with another fingerprint, the call returns a turn in no continuation |
| TurnSafety.AbandonedKeyNeverReturns | conversation/coordinator.py:121-163 | a keyed user row whose call stopped unanswered shuts its key for every call in every continuation |
| TurnSafety.SnapshotsMatchTurns | conversation/coordinator.py:231-240 | in every run each snapshot belongs to an assistant row of the same call, stores the text of that row, and no two belong to one turn |
| Ownership.ForeignCallLeavesNoTrace | conversation/coordinator.py:104-107 | in every run a call that is not the owner's never holds a token, ends only in a denial or a failure of the check itself, and leaves no turn and no snapshot |
| Ownership.OwnerNeverDenied | conversation/coordinator.py:104-107 | in every run the owner's calls are not denied access |
| Ownership.ForeignCallIsDenied | conversation/coordinator.py:100-107 | a foreign call whose first two awaits meet no fault ends in a denial and changes no store |
| Records.RowsTellRequests | conversation/coordinator.py:155-239 | in every run a user row holds message, fingerprint, trace and key of its call's request, and an assistant row its trace and an intent, no key and no fingerprint; where the intent was unclear it holds the fixed text |
| Records.SnapshotsTellTurns | conversation/coordinator.py:176-240 | in every run a snapshot is what the engine made of the text of the user row before its assistant row, under that row's intent, which was clear; the row holds the answer |
| Replay.RetryGetsVerdict | conversation/coordinator.py:121-142 | in every run, whatever other calls do, whatever fails for them and whatever expires, a call with the key of an answered turn that begins before its look-up and meets no fault itself is always before its look-up, at the reply, or on its way out with the verdict: the original index and text if the fingerprint agrees and a conflict otherwise; it ends with the verdict, or with a lock timeout, or is not the owner's |
| Replay.RetryNeverReprocesses | conversation/coordinator.py:121-142 | faults and a stop of the retry itself included, if it returns a turn at all it is the original one |
| Replay.RetryWritesNothing | conversation/coordinator.py:121-142 | in every run no step of such a retry writes a turn, a snapshot or a document |
| Replay.EmptyKeyNeverReturns | conversation/coordinator.py:121 | once a key that skips the look-up is stored, no other call with it returns a turn in any continuation |
| Replay.ReplayedExactlyWithKey | conversation/coordinator.py:121-142 | in every run a retry of an answered turn that meets no fault, gets the lock and is the owner's returns a turn if and only if its key is not empty and its fingerprint agrees |
| Replay.RetryOfCompletedKey | conversation/coordinator.py:121-142 | a run in which the verdict is reached: with a free lock and nobody else moving, the retry is done after eight steps with the verdict, and only the token counter has changed |
| LockSafety.StepKeepsLockInv | conversation/coordinator.py:111-266 | every lock-respecting step keeps the lock invariant: one live holder, fresh tokens, and what the holder knows of log, snapshots and document |
| LockSafety.MutualExclusion | conversation/persistence/redis_store.py:67-84 | in lock-respecting runs at most one call is between acquire and release, and the lock holds its token |
| LockSafety.ReleaseRemovesOwnToken | conversation/persistence/redis_store.py:79-84 | in lock-respecting runs the get-then-delete release sees and deletes the caller's own token |
| LockSafety.NoIndexCollision | conversation/coordinator.py:155-163 | in lock-respecting runs no append collides on the turn index: a user row is refused exactly when its key is taken, an assistant row never |
| LockSafety.SnapshotsFormChain | conversation/persistence/mysql_store.py:126-154 | in lock-respecting runs snapshot indices strictly increase, each snapshot was computed from the one before, the latest is the last saved, and the document shows the snapshot it was written for |
| LockSafety.LatestIsLast | conversation/persistence/mysql_store.py:126-135 | along a chain the greatest `after_turn_index` is that of the last row |
| LockSafety.IdleDocIsLatest | conversation/coordinator.py:240-244 | in lock-respecting runs where each save is followed by its cache write, whenever no call is between acquire and release a present document holds the latest snapshot, or the empty blob if there is none |
| ExpiryHazards.ExpiryBreaksExclusion | conversation/persistence/redis_store.py:71-76 | one expiry under any live call lets the next arrival in beside it |
| ExpiryHazards.RespectIsSharp | conversation/persistence/redis_store.py:67-84 | exclusion survives an expiry followed by an arrival if and only if the expiry respects the lock |
| ExpiryHazards.StaleReleaseEvictsHolder | conversation/persistence/redis_store.py:82-84 | a release between its get and its delete removes the token of a holder whose own key never expired, and a third call gets in beside it |
| ExpiryHazards.LateSaveIsLost | conversation/coordinator.py:144-146 | for every overtaking call with a key of its own: a turn overtaken between its answer and its snapshot has its snapshot stored last but not as the latest, and the overtaking turn started without it |
| ExpiryHazards.SupersededForever | conversation/persistence/mysql_store.py:126-135 | a snapshot with a smaller index than another is never the latest again, in any continuation |
| Reachability.KeySettledExactly | conversation/coordinator.py:121-266 | in every reachable session with a free lock, an undisturbed call with a new key returns its turn and completes its key if and only if the turn gets a reply, and abandons it if and only if not |
| Reachability.RepliesExactly | conversation/coordinator.py:165-229 | with answers that do not raise, a turn gets a reply if and only if its intent is unclear (confidence below the threshold, or classified so), or its message is not blank and the budget is between 1 and 5 |
| Reachability.SettledShows | conversation/coordinator.py:155-262 | what such a call leaves, field by field: its user row; then the fixed text under the unclear intent, no snapshot and the old blob cached; or the answer under the classified intent, its snapshot and the same blob cached; or nothing more and the engine failure; the lock is free |
| Reachability.FirstCallSettlesKey | conversation/coordinator.py:121-271 | the first call of a new session reaches a completed key or an abandoned one, by the same condition |
| Reachability.RetriedExactlyWhenCompleted | conversation/coordinator.py:121-142 | in every run, once the call that opened a keyed turn has stopped, a retry that meets no fault, gets the lock and is the owner's returns a turn if and only if the turn was answered, the key is not empty and the fingerprint agrees |
| Reachability.BlankMessageAbandonsKey | conversation/coordinator.py:155-229 | in every reachable session with a free lock, an undisturbed call with a new key and a blank message that is not asked for clarification leaves its key abandoned, whatever the engine answers |
| Reachability.EmptyKeyCollides | conversation/coordinator.py:121-163 | an undisturbed second call with the empty key ends in an integrity error and adds nothing |
| Endings.AbandonedKeyCollides | conversation/coordinator.py:121-163 | an undisturbed retry of an abandoned key falls through the replay into an integrity error, or is rejected for its fingerprint, and adds nothing |
| Endings.WaitsTwoHundredTimes | conversation/coordinator.py:111-119 | a call that finds the lock held tries exactly two hundred times, then gives up without a token and with the stores as they were |
| Endings.FailsOutside | conversation/coordinator.py:100-119 | a failing await before the lock ends the call at once, with the degraded-storage error only for the ping |
| Endings.FailsUnderLock | conversation/coordinator.py:263-266 | an await that fails under the lock, before or after its effect, leads to the release: two awaits later the lock is free, the call has raised, and the tables are as the failing await left them |
| Endings.FailsInRelease | conversation/persistence/redis_store.py:79-84 | a release that fails leaves the lock in place unless its delete went through |
| Endings.LeavesForeignLock | conversation/persistence/redis_store.py:79-84 | a call whose token is not in the lock leaves the lock alone |
| Reachability.CaughtReleasing | conversation/persistence/redis_store.py:79-84 | a lock-respecting run of a new session ends with a live call between the get and the delete of its release |
| Reachability.CaughtSaving | conversation/coordinator.py:231-240 | a lock-respecting run of a new session ends with a call between its answer and its snapshot |
| Reachability.SnapshotsGetLost | conversation/coordinator.py:144-240 | for every valid budget and any two calls with messages that are not blank and different keys, a run of a new session ends with two snapshots: the second call's, computed from none, and after it the first call's, saved last under the smaller index; the latest is the former, and no continuation ever reads the latter |
| SessionFold.SessionIsAccount | conversation/merge.py:50-127 | in every lock-respecting run the latest snapshot shows exactly the fold over the turns whose snapshot was saved; clarifications and failed turns leave no trace |
| SessionFold.SessionContents | conversation/merge.py:67-97 | context plus synthesis is the list of non-empty syntheses of all saved turns, each constraint key has the value of the last saved turn that set it, findings and sources are those found since the last new query, and sources hold no URL twice |
| SessionFold.SnapshotsGrow | conversation/merge.py:76-90 | along a lock-respecting session every snapshot keeps the messages of the one before as a prefix, and its findings and sources too unless it starts a new query |
| SnapshotLineage.EverySnapshotIsAccount | conversation/merge.py:50-127 | in every run, expiries included, each snapshot shows exactly the account of a line of saved turns in which each was computed from the one before it |
| SnapshotLineage.StepKeepsInformed | conversation/coordinator.py:144-240 | every step keeps each call working from no snapshot or a stored one, and each stored snapshot computed from none or an earlier one |
| SessionFold.AccountResearch | conversation/merge.py:77-90 | the research part of the fold is that of the turns since the last new query, that one included |
| TurnEngine.TurnExtends | conversation/coordinator.py:176-229 | one engine turn on the stored form is one step of the simple fold |
| TurnEngine.EngineTurnCompletes | agents/state.py:51-113 | with answers that do not raise, an engine turn completes if and only if the message is not blank and the budget is between 1 and 5 |
| Routing.RoutesExactly | conversation/routing.py:14-33 | clarification is asked for exactly when the confidence is below the threshold or the intent says so; otherwise the light engine is planned exactly for a reformat or a meta question about a snapshot |
| TurnEngine.EngineExactly | conversation/coordinator.py:187-222 | no graph runs exactly when the intent is unclear, the light one exactly for a reformat or a meta question with a snapshot and a light graph, the full one otherwise |
| TurnEngine.TurnAnswers | conversation/coordinator.py:176-229 | a turn asks the new message with a full budget, resumes analysis, critique, verdict, gaps and findings of the previous snapshot unless it is a new query, its snapshot keeps what the engine leaves, and its reply is what the synthesizer wrote last |
| TurnEngine.TurnJudges | conversation/merge.py:76-127 | after the full engine the snapshot has the analysis and the judgement of the last pass; after the light one those of the snapshot before |
| ConversationMerge.MessagesRoundTrip | conversation/merge.py:25-47 | every list of human and AI messages survives being stored in a snapshot and restored |
| ConversationMerge.StoredByKind | conversation/merge.py:40-47 | each message is stored under the name of its kind, with its text |
| ConversationMerge.RestoredByKind | conversation/merge.py:25-37 | items of other kinds and elements that are no dictionary are skipped, missing content reads as empty |
| ConversationMerge.MessagesFromSnapshot | conversation/merge.py:25-37 | the loop restores exactly the items of known type, in order |
| ConversationMerge.SerializeMessages | conversation/merge.py:40-47 | the loop stores every message, in order |
| SessionStores.MysqlSessionStore.AppendTurn | conversation/persistence/mysql_store.py:73-104 | the row is appended exactly when neither unique constraint forbids it; a raised call may have had its effect, and a reliable store does not raise |
| SessionStores.MysqlSessionStore.SaveSnapshot | conversation/persistence/mysql_store.py:137-154 | the snapshot is appended; a raised call may have had its effect |
| SessionStores.RedisSessionStore.AcquireTurnLock | conversation/persistence/redis_store.py:67-77 | a free lock is set to a fresh token, a held one is left alone; a raised call may have set it |
| SessionStores.FindByKey | conversation/persistence/mysql_store.py:106-115 | a row with the key if there is one, none exactly when no row has it |
| SessionStores.GetTurn | conversation/persistence/mysql_store.py:117-124 | a row with the index if there is one, none exactly when no row has it |
| SessionStores.LatestSnapshot | conversation/persistence/mysql_store.py:126-135 | a snapshot of greatest index, none exactly when the table is empty |
| Coordinator.ConversationCoordinator.RunTurn | conversation/coordinator.py:81-266 | whatever other calls and expiries do at its awaits, the stores end in a state that a run of the protocol reaches, in which this call, answered by classifier and engine as given, is finished with the outcome returned; a caller that is not the owner gets a denial or a failure; where nothing fails the run has no fault of this call and the outcome is no failure of a store |
| Coordinator.ConversationCoordinator.AcquireLock | conversation/coordinator.py:111-119 | the acquire loop: the token of the first try that got one, or the timeout after the last |
| Coordinator.ConversationCoordinator.CheckOwner | conversation/coordinator.py:104-107 | passes only the owner, and denies only others |
| Coordinator.ConversationCoordinator.ProcessTurn | conversation/coordinator.py:121-262 | the body between acquire and release leads the call to its release with the outcome it computed |
| Coordinator.ConversationCoordinator.TryAcquire | conversation/coordinator.py:113-119 | one round of the acquire loop: a token, another round, or the timeout after the last |
| Coordinator.ConversationCoordinator.FindPrior | conversation/coordinator.py:121-132 | the look-up continues with the prior turn, without one, or with a conflict on another fingerprint |
| Coordinator.ConversationCoordinator.ReadReply | conversation/coordinator.py:133-142 | only an assistant row after the prior user row is replayed |
| Coordinator.ConversationCoordinator.Append | conversation/persistence/mysql_store.py:97-102 | an insertion continues, is refused by a constraint, or raises, in each case as the protocol says |
| Coordinator.ConversationCoordinator.Cache | conversation/persistence/redis_store.py:55-61 | the three writes of the working document: reload, clarification and answer |
| Coordinator.ConversationCoordinator.Release | conversation/persistence/redis_store.py:79-84 | get, compare, delete; an exception here replaces the outcome |
| Coordinator.OthersLeave | conversation/coordinator.py:81-266 | at an await any run of the other calls, expiries included, leaves a call where it stands and extends the run it began in: what the model lets happen at an await is every such run |
| CoordinatorSafety.CreateSessionRow | conversation/coordinator.py:268-271 | a created session is the initial state of the protocol, with empty tables, a free lock and an empty document of turn -1, unless a store raised |
| CoordinatorSafety.FinishedTurnIsSound | conversation/coordinator.py:81-266 | whenever `run_turn` comes back from a reachable session the session is reachable and consistent, and a returned turn is on record under the caller's key and fingerprint |
| CoordinatorSafety.FinishedRetryGetsVerdict | conversation/coordinator.py:121-142 | where nothing fails, and whatever other calls do meanwhile, `run_turn` with the key of an answered turn comes back with the original turn or a conflict, by the fingerprint, or with a lock timeout; only another owner is denied |
| ResearchState.MergeSources | agents/state.py:11-20 | the loop with the set of seen URLs computes the source reducer |
| ResearchState.DedupeKeepsFirstSeen | agents/state.py:14-20 | the reducer keeps the existing list as a prefix, followed by the first occurrence of each new URL in order |
| ResearchState.DedupeDistinct | agents/state.py:11-20 | the reducer keeps URLs distinct |
| ResearchState.DedupeAssociative | agents/state.py:11-20 | merging merged lists equals merging in any grouping |
| ResearchState.DedupeIdempotent | agents/state.py:11-20 | merging the same sources again changes nothing |
| ResearchState.MergeTokenUsage | agents/state.py:23-27 | the loop adds usage key by key |
| ResearchState.MergeUsageCommutes | agents/state.py:23-27 | the usage reducer commutes per key |
| ResearchState.MergeUsageAssociates | agents/state.py:23-27 | the usage reducer associates per key |
| ResearchNodes.ResearcherNode | agents/nodes/researcher.py:126-178 | on all return paths the counter moves by one; there is a finding and a source exactly when a tool answered, with its data, time, link and title; the errors are that of the discovery, one line per failed attempt with a message, in order, and one more if all attempts failed; messages and usage are those of the path |
| ResearchNodes.RejectionNamesGaps | agents/nodes/critic.py:68-122 | on all three return paths the critic passes or names a gap that is not blank |
| ResearchNodes.TextNodesWrite | agents/nodes/synthesizer.py:40-100 | the synthesizer writes the synthesis and the analyst the analysis, each the model's text or its fallback and nothing else, with the messages, usage and error of the path |
| ResearchNodes.CriticJudges | agents/nodes/critic.py:68-122 | after a parsed critique the state has its text, its verdict and its gaps that are not blank, in order; a rejection without any, and a failure, name one of their own |
| ResearchGraph.BuildResearchGraph | agents/graph.py:99-114 | the add calls compile to the loop researcher, analyst, critic, back or on to the synthesizer |
| ResearchGraph.BuildSynthesizerOnlyGraph | agents/graph.py:117-123 | the light graph has the synthesizer alone |
| ResearchGraph.RunShape | agents/nodes/critic.py:23-31 | every run that does not abort has k passes with 1 <= k <= max(1, m - c), 3k + 1 node executions, the synthesizer once and last, leaves the loop only with the critique passed or the budget spent, and starts every later pass with gaps |
| ResearchGraph.InvokeShape | agents/graph.py:126-174 | the same for every invocation of the full graph |
| ResearchGraph.RunReturnsSynthesis | agents/nodes/synthesizer.py:57-100 | in both graphs the final synthesis is what the last node execution wrote, or its fallback |
| ResearchGraph.RunReturnsJudgement | agents/nodes/critic.py:23-122 | the final analysis, critique, verdict and gaps of a full run are those of its last pass |
| ResearchGraph.InvokeReturns | agents/graph.py:126-166 | the same of an invocation, which starts from its input field by field |
| ResearchGraph.SynthesisEndsRun | agents/graph.py:113-123 | in both graphs the synthesizer is the last node |
| ResearchGraph.RunTerminates | agents/nodes/critic.py:23-31 | enough answers that do not raise always complete a run within the iteration budget |
| ResearchGraph.RunKeeps | agents/state.py:30-48 | no run changes query, constraints, accumulated context or budget |
| ResearchGraph.RunAppends | agents/state.py:39-48 | findings, messages and errors are the input followed by every node's contribution in order |
| ResearchGraph.RunGathersSources | agents/state.py:40 | sources are the input's followed by the first occurrence of each URL the run found |
| ResearchGraph.RunSumsUsage | agents/state.py:47 | final usage per agent is the initial usage plus the sum over all node executions |
| ResearchGraph.InvokeAccounts | agents/graph.py:126-166 | what an invocation carries over and exactly what it adds, channel by channel |
| SingleFlight.StepKeepsExact | agents/graph.py:132-174 | every step keeps the flag set exactly while one call is inside |
| SingleFlight.BusyExactly | agents/graph.py:132-288 | in every interleaving through the three entry points the flag is set exactly when one invocation is inside its run, and otherwise none is |
| SingleFlight.GuardAndClear | agents/graph.py:185-229 | the guard admits exactly when nobody is inside, a refused call leaves the flag to its holder, and the last step of an invocation clears it however its run ended |
| SingleFlight.OthersLeave | agents/graph.py:132-174 | at an await any run of the other invocations leaves a call in its phase |
| SingleFlight.GraphModule.Invoke | agents/graph.py:241-288 | the code of an invocation is a run of the step system that ends with the outcome returned: invalid exactly for invalid input, and otherwise busy or the end of its run |
| SingleFlight.GraphModule.RunAndClear | agents/graph.py:263-288 | success, timeout and error all pass through the clearing of the flag, which leaves it down, and come back as they were |
| ToolPayload.BuildToolPayload | agents/tools/discovery.py:73-136 | the two loops compute the payload function |
| ToolPayload.ReservedProperty | agents/tools/discovery.py:104-117 | with distinct property keys, a property with a search name holds the phrase, a query name the query, a constraint name all constraints, a gap name the list of gaps |
| ToolPayload.ConstrainedProperty | agents/tools/discovery.py:118-123 | any other property that names a constraint in any case holds the last constraint of that name |
| ToolPayload.OtherProperty | agents/tools/discovery.py:118-136 | any other property holds its default, or if it has none and is required a value of its declared type, or is absent |
| ToolPayload.OtherKeys | agents/tools/discovery.py:128-136 | a key that is no property is there exactly when it is required, with an invented value |
| ToolPayload.PlainPayloadHolds | agents/tools/discovery.py:84-92 | without properties the payload holds query, constraints and gaps, the latter two only if there are any, and nothing else |
| ToolPayload.ArgsSchemaToModel | agents/tools/discovery.py:167-187 | the loop computes the fields of the generated model |
| ToolPayload.FieldsInOrder | agents/tools/discovery.py:167-187 | the fields are the properties whose spec is a dictionary, in order |
| ToolPayload.FieldsFit | agents/tools/discovery.py:139-187 | each field has the type its property declares, text if it declares none, and is required exactly when the schema says so |
| ToolPayload.PayloadCoversModel | agents/tools/discovery.py:73-187 | the payload has every field the generated model requires if and only if the schema has no properties, or a property whose spec is a dictionary, or names `query`; with properties it has every name of `required` |
| ToolPayload.PlainPayloadFitsModel | agents/tools/discovery.py:84-187 | what a payload holds without properties has the type the generic model gives it, which has no other fields and requires the query alone |
| ToolPayload.FallbackFitsModel | agents/tools/discovery.py:55-70 | a value invented for a required property has the type the model gives the field |
| ToolDiscovery.FilterResults | agents/tools/discovery.py:340-354 | the matching tools, or all of them exactly when no source is wanted or none matches |
| ToolDiscovery.MatchesExactly | agents/tools/discovery.py:347-353 | whatever the letter case, a wanted source must be a whole capability, or stand somewhere in the name or the description |
| ToolDiscovery.MatchingInOrder | agents/tools/discovery.py:347-353 | exactly the tools that match, each as often as it occurs and in the order of the results |
| ToolDiscovery.Fastest | agents/tools/discovery.py:368-376 | the first tool of least latency, 0 and missing counting as 1e9 |
| ToolDiscovery.UnknownIsSlow | agents/tools/discovery.py:368-371 | a tool without a known latency never beats one whose latency is known and below 1e9 |
| ToolDiscovery.OrderedCandidates | agents/tools/discovery.py:357-380 | the loop computes the candidates |
| ToolDiscovery.CandidatesAreDistinct | agents/tools/discovery.py:372-380 | candidates are distinct and no more than the limit |
| ToolDiscovery.UsableInOrder | agents/tools/discovery.py:373-376 | the usable ids are the selected ones that are not blank, each where it is first used, in order |
| ToolDiscovery.CandidatesAreSelected | agents/tools/discovery.py:373-380 | with a usable selection the candidates are a prefix of the selected ids in order |
| ToolDiscovery.SoleCandidate | agents/tools/discovery.py:377-380 | with nothing usable selected the sole candidate is the first tool of least latency |
| ToolDiscovery.TryCandidates | agents/tools/discovery.py:565-721 | the loop computes the result of the run, and its usage logs match the attempts one to one in order |
| ToolDiscovery.AttemptsFollowCandidates | agents/tools/discovery.py:565-685 | attempts are the tried candidates with failed binds removed: distinct, none missing, each succeeding exactly when its tool answers |
| ToolDiscovery.AttemptsInOrder | agents/tools/discovery.py:565-685 | the attempted ids are the candidates with failed binds removed, in order |
| ToolDiscovery.RunIsTriedPrefix | agents/tools/discovery.py:565-721 | distinct attempts, only the last may succeed, the run succeeds exactly when some candidate answers and then reports that tool |
| ToolDiscovery.FirstAnswerCounts | agents/tools/discovery.py:686-697 | the result passes on data, link and title of the first candidate that answers, and attempts end there |
| ToolDiscovery.RunIsHonest | agents/tools/discovery.py:565-721 | each attempt records success, duration and message of its own tool; a run without an answer passes on nothing |
| ToolDiscovery.Discover | agents/tools/discovery.py:462-721 | the same for a whole discovery run, with at most the configured number of attempts, no attempt after a failed search, and logs that match the attempts |
| ToolDiscovery.DiscoveryFeedsResearch | agents/nodes/researcher.py:131-178 | a discovery with an answer yields one finding with the data of the first tool that answered and one source with its link and title, any other none and at least one error |
| SseStream.SplitResumes | web/src/lib/api/sessions.ts:71-72 | splitting can resume from the last piece when more text arrives |
| SseStream.DeliveredIsSplit | web/src/lib/api/sessions.ts:63-74 | in any chunking the blocks handled are all but the last piece of the whole text split on blank lines, and the last piece is never delivered |
| SseStream.ChunkingIsIrrelevant | web/src/lib/api/sessions.ts:63-124 | stage callbacks, error and result do not depend on the chunk boundaries |
| SseStream.PostTurnStreaming | web/src/lib/api/sessions.ts:61-125 | the loop over buffer, parts and lines computes the outcome of the delivered blocks, stopping at the first error |
| SseStream.StreamSucceedsExactly | web/src/lib/api/sessions.ts:84-124 | in any chunking the stream succeeds if and only if no error event is delivered and the last result that parses is truthy |
| SseStream.StreamReturns | web/src/lib/api/sessions.ts:92-124 | it then returns the camel-case tree of that result |
| SseStream.StreamThrows | web/src/lib/api/sessions.ts:97-111 | otherwise it throws the first error delivered, or the error for a missing result |
| SseStream.FramesSucceedExactly | conversation/api/routes.py:89-97 | the same in terms of the frames a server sends |
| SseStream.StatusCallsBack | web/src/lib/api/sessions.ts:84-91 | a status event calls back with the stage its data names, undefined if it names none; data that does not parse, or is null, calls nobody |
| SseStream.ErrorReads | web/src/lib/api/sessions.ts:97-111 | what an error event reads as: its message, else its detail, else a fixed text, and whether the session was missing |
| SseStream.ReadBlock | web/src/lib/api/sessions.ts:75-82 | the loop over the lines of a block computes its event |
| SseStream.DeliveredExactlyWithBlank | web/src/lib/api/sessions.ts:71-72 | a block is delivered if and only if two line feeds meet somewhere in the text |
| SseStream.CarriageReturnsDeliverNothing | web/src/lib/api/sessions.ts:71-122 | frames whose lines end in carriage return and line feed deliver nothing in any chunking and end in the error for a missing result |
| SseStream.OutcomeOfEvents | web/src/lib/api/sessions.ts:84-111 | callbacks are those of the status events before the first error, the result is the last one before it, and the error is that first one |
| SseStream.BodyParses | web/src/lib/api/sessions.ts:75-82 | what any one-line type and data read back as: the data without trailing white space, or no event when either is then empty |
| SseStream.FrameSurvives | conversation/api/routes.py:89-97 | a frame comes back as sent if and only if type and data are not empty and the data does not end in white space |
| SseStream.FramesRoundTrip | web/src/lib/api/sessions.ts:63-82 | a list of such frames comes back in order, in any chunking of the stream, with nothing left over |
| KeyNormaliser.RewrittenKeyIsCamel | web/src/lib/api/client.ts:27-29 | a rewritten key has no underscore followed by a lower-case letter |
| KeyNormaliser.RewritesOnePair | web/src/lib/api/client.ts:27-29 | an underscore before a lower-case letter goes, the letter becomes the capital at the same place of the alphabet, and the text before and after is rewritten as if it stood alone |
| KeyNormaliser.KeptExactlyWhenCamel | web/src/lib/api/client.ts:27-29 | a key is kept if and only if it has none |
| KeyNormaliser.KeysToCamel | web/src/lib/api/client.ts:31-44 | the loops over arrays and objects, behind the guard on the constructor, compute the tree function |
| KeyNormaliser.FixedExactlyWhenNormal | web/src/lib/api/client.ts:31-44 | a tree is left unchanged if and only if every object in it, outside those with a key `constructor`, has distinct camel-case keys |
| KeyNormaliser.KeysToCamelIdempotent | web/src/lib/api/client.ts:31-44 | a second pass over any JSON tree is the identity, even when keys collide |
| KeyNormaliser.LastCollidingEntryWins | web/src/lib/api/client.ts:36-41 | under each key an object holds afterwards the rewritten value of the last entry whose key becomes it, or, with a key `constructor`, what it held before |
| KeyNormaliser.ItemsInPlace | web/src/lib/api/client.ts:32-33 | a list keeps its length and order, each item rewritten |
| KeyNormaliser.EntriesInPlace | web/src/lib/api/client.ts:36-41 | where no two keys of an object become the same, every entry stays in its place with key and value rewritten |
| KeyNormaliser.LoopKeepsConstructor | web/src/lib/api/client.ts:36-41 | the rewritten object has a key `constructor` if and only if the given one had, so the guard decides the same way on a second pass |
| KeyNormaliser.RewritingIsSafe | web/src/lib/api/client.ts:27-39 | no other key becomes `constructor`, and no key becomes `__proto__` |
| Percentiles.PercentileSplitsSeries | registry/stats_percentiles.py:8-21 | no value up to the rank exceeds the percentile and none from the rank on is less |
| Percentiles.PercentileWithinSeries | registry/stats_percentiles.py:8-21 | the percentile lies between least and greatest value and reaches them at 0 and 1 |
| Percentiles.PercentileRises | registry/stats_percentiles.py:8-21 | it is monotone in p on [0, 1] |
| Percentiles.PercentileOfLarger | registry/stats_percentiles.py:8-21 | it is monotone in each value |
| Percentiles.PercentileScales | registry/stats_percentiles.py:8-21 | it commutes with affine maps if and only if the series is not empty or the origin is kept, and increasing ones keep the series sorted |
| Percentiles.PercentileIsPiecewiseLinear | registry/stats_percentiles.py:16-21 | between two neighbouring ranks the percentile runs along the line through their values |
| UsageStats.LatencyMsByTool | registry/routers/stats.py:20-37 | the loop lists each tool's latencies in row order, with an entry exactly for the tools that have any |
| UsageStats.SeriesSorted | registry/routers/stats.py:26-28 | every series of ordered rows is sorted |
| UsageStats.SelectedExactly | registry/routers/stats.py:26-33 | the selected rows are exactly those of the wanted tool not older than the bound, each as often as logged and in order |
| UsageStats.GroupsExactly | registry/routers/stats.py:53-101 | the tools listed are exactly the wanted ones, with a time bound only those that have a selected row, in order |
| UsageStats.CountIsCardinality | registry/routers/stats.py:64-93 | the counts are the numbers of rows of the tool with the outcome |
| UsageStats.AverageTimesCount | registry/routers/stats.py:69-93 | average times count is the sum of the tool's latencies |
| UsageStats.TotalCountsEveryUsage | registry/routers/stats.py:103-116 | the reported total is the number of usage rows the filters select |
| UsageStats.ItemDescribes | registry/routers/stats.py:109-138 | counts, error rate, average, percentiles and last use of an item are those of its tool's rows: errors and successes add up, the rate is their share, p50 <= p95, and average and percentiles lie within the tool's latencies |
| UsageStats.GetStats | registry/routers/stats.py:103-145 | the same for every item the endpoint returns, with one item per group and the exact total |
| SeedSync.Session.Seed | registry/seed.py:288-336 | on success the database is the seeded one and the count is the number of new rows; on failure all of the work is there or none; where no statement fails it succeeds exactly when no new tool lists a capability twice |
| SeedSync.Session.SyncExistingTools | registry/seed.py:259-285 | the loop aligns every existing row with its definitions in order |
| SeedSync.SeededKeys | registry/seed.py:288-336 | afterwards exactly the old ids and the seed ids exist; no row is removed |
| SeedSync.SeededRow | registry/seed.py:274-320 | rows without a definition are untouched; a defined row takes its last definition, keeping version, capabilities, creation time and usage of the existing row or else of the first definition |
| SeedSync.SeededFields | registry/seed.py:272-320 | the last definition of an id gives name, texts, schemas, endpoint, health check and verb, `POST` if it names none |
| SeedSync.SeededOrigin | registry/seed.py:306-320 | version, capabilities, creation time and usage stay for an existing row, and are the first definition's, without usage, for a new one |
| SeedSync.SeededStatus | registry/seed.py:281-284 | the status is the last one a definition of the id fixes, and otherwise the old one unless it was inactive |
| SeedSync.StatusOfSeeded | registry/seed.py:281-284 | where the seed fixes no status an existing status survives unless it is inactive; where it does, the row has no say |
| SeedSync.SeedingAgain | registry/seed.py:259-336 | a second run inserts nothing and changes only `updated_at` of the seeded rows, also with duplicate definitions |
| SeedSync.RetryConverges | registry/seed.py:331-333 | after a failed run, running again gives what the first would have given, up to times |

## Left out

- Intent classification, prompts, model answers and tool responses: arbitrary values or failures chosen by the environment. The text written by analyst and synthesizer is such a value.
- Internals of SQLAlchemy, Redis and LangGraph: atomic row inserts with two unique constraints, key operations, and reducers folded from empty channels.
- JSON encoding and SHA-256: a request carries its fingerprint, so nothing is said about colliding hashes.
- Sessions beside the one modelled: all keys and constraints are per session. Tokens are assumed unique.
- A worker that stops with a write in flight: a store call is either done or not when its call stops. A call that raises may have had its effect.
- Fields `writer` of rows, `record` of snapshots and `covers` of documents: history of the model, not stored by the program.
- Confidence, route mode and engine entry of a replayed turn: the replay branch does not reproduce them.
- The streaming turn path: `conversation/api/routes.py:79` calls a method that the coordinator does not define.
- Order and waiting time of calls that poll for the lock; inbox methods.
- Tracing, logging, progress queues and the binding calls between setting the flag and entering `try`.
- Minting of a session id by `merge_graph_defaults`, message ids assigned by `add_messages`, and validation of UUIDs and constraint types: ids are taken to be well formed.
- TurnEngine.EngineTurnCompletes: does not model the checks that trace and session ids are UUIDs and constraints a dictionary; both ids are issued by the server.
- MySQL collation: keys are compared exactly.
- ToolPayload.BuildToolPayload: does not model query simplification for Wikipedia beyond an opaque text, nor the later change of `gsrlimit`.
- ToolPayload.PayloadCoversModel: takes entries of `required` to be strings, and leaves out field names that pydantic refuses.
- ToolDiscovery.Discover: error texts are constants where the program adds the number of attempts or the exception; enrichment of Wikipedia articles and the link chosen as source are values of the environment.
- ToolDiscovery.FilterResults: lower-casing beyond ASCII letters is not modelled.
- SseStream.PostTurnStreaming: chunks are decoded strings, so UTF-8 decoding is not modelled; exceptions thrown by the stage callback and the check of the response status are left out.
- KeyNormaliser.KeysToCamel: numeric keys that JavaScript moves to the front and values that are not JSON are not modelled.
- Percentiles.PercentileRises: over the reals; floating-point rounding is left out.
- UsageStats.GetStats: rounding of the reported numbers, the order of groups, and the branch for PostgreSQL are not modelled.
- SeedSync.Session.Seed: attributes the program would reject as missing keys, and rows changed by other sessions meanwhile.
- Other routers, health checks, React components, the browser session store and migrations: easy members or I/O.
