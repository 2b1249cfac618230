# Verification of the PLK memory service

A Dafny model of the parts of PLK where several components have to agree: the PostgreSQL fact store with its
transactional outbox and index workers, the importer of Git snapshots, the Git sync engine, the usage telemetry and its
metrics, the signed review store and its summary, the feedback jobs, and search. Verify everything with
`dafny verify dfyconfig.toml`.

## How the system is modelled

- A database transaction is one atomic step. The tables are maps in the datatype `Tables`; every write transaction is a
  function from tables to tables (`Tables.dfy`), and the classes in `Repository.dfy` and `Outbox.dfy` change the same
  tables statement by statement and are proved equal to those functions, rollbacks included.
- Index workers are processes with a program counter (`Projection.dfy`). A step is one transaction or one graph call, so
  crashes, expired leases and reclaims fall between any two of them. `IndexWorker.dfy` is the worker as a program, and each
  of its calls is proved to be such a step.
- Time is a natural number that each step is given freely: no proof relies on clocks that agree. `uuid4` draws from a
  counter; one draw serves a revision and its event, each fresh in its own table. Canonical hashes, content hashes and the
  name-based graph identities (section 5.5 of RFC 9562) are injective, so the hashed value stands for its hash.
- The review chain takes its hash function, signature check and trusted head as parameters; only "no collisions, never
  zero" is required of the hash.
- Decisions of the outside world (a failing graph call, a lost push, a refused policy, a crash) are inputs of the step they
  affect. The content policy (schema and secret scan) is a predicate of the caller.
- The Git remote moves on its own. The clone is a commit of the remote with unpushed commits above it and uncommitted files
  over both (`GitClone.dfy`); fetch, rebase, push and reset are separate steps, so that a crash falls between any two of
  them, and a push can land and still be reported as failed.
- A commit of the sync engine is its id and the files as far as the engine reads them, so a diff may name files that look
  unchanged.

Where the code and its documentation could be read differently, the code is followed: a retry that names other expected
revisions still replays, because these are not part of the request hash; the result loops add before they test the limit,
so a limit below one still returns one hit; a promotion decision writes no status on the head.

## Files

| file | content |
|---|---|
| `Domain.dfy`, `Counting.dfy`, `Ordering.dfy` | shared values, counting over sequences, string order and sorting |
| `Tables.dfy`, `StoreInvariant.dfy`, `StoreTransactions.dfy`, `StoreRuns.dfy`, `StoreEffects.dfy`, `StoreTheorems.dfy` | the fact store: tables and transactions, the invariant and its proof, runs, exact effects, theorems |
| `Repository.dfy` | the fact and approval repositories as classes |
| `Outbox.dfy`, `Projection.dfy`, `ProjectionProofs.dfy`, `ProjectionTheorems.dfy`, `ProjectionProgress.dfy`, `IndexWorker.dfy` | the outbox, the world of writers and workers, its proofs and theorems, and the worker |
| `ImportPlan.dfy`, `SnapshotImport.dfy`, `ImportParity.dfy`, `SnapshotRules.dfy`, `FactService.dfy` | the importer, its plan, its parity report, its rules field by field, and the Git files it reads |
| `GitSync.dfy`, `SyncLedger.dfy` | the sync engine, and what one sync does file by file |
| `UsageRecords.dfy`, `UsageRecorder.dfy`, `RecorderAnswers.dfy`, `Metrics.dfy`, `ContributionCounts.dfy` | the telemetry log, its recorder and its answers, the contribution statistics and what they count |
| `Reviews.dfy`, `ReviewSummary.dfy`, `ReviewCounts.dfy` | the review store, its summary, the check of the dashboard, and what the summary counts |
| `Feedback.dfy`, `GitClone.dfy`, `FeedbackGuard.dfy` | feedback requests, the clone they are applied in, and why a request is applied at most once |
| `FeedbackWorld.dfy`, `FeedbackProofs.dfy`, `FeedbackRuns.dfy` | everything that can happen to requests, its proofs, and its theorems |
| `FeedbackApply.dfy`, `FeedbackStranded.dfy` | the apply as a program, and the runs that leave a request applied without a commit or stale with one |
| `Search.dfy` | search from graph edges to shown facts |

## Model

| member | source | states |
|---|---|---|
| Repository.Database.BeginIdempotent | src/plk_memory/postgres/write_ops.py:25-62 | Claims an unused key; a used key replays its stored response to the same request and refuses any other request. |
| Repository.Database.FinishIdempotent | src/plk_memory/postgres/write_ops.py:65-82 | Stores the response beside the request of the key and changes nothing else. |
| Repository.FactRepository.Get | src/plk_memory/postgres/repository.py:327-343 | Returns the head merged with its current revision, or that the fact is missing. |
| Repository.FactRepository.LockHeads | src/plk_memory/postgres/repository.py:345-389 | Locks exactly the existing heads among the ids, each with the content of its current revision. |
| Repository.FactRepository.InvalidateLocked | src/plk_memory/postgres/repository.py:391-452 | Adds an invalidated copy one version up with its event and moves the head, or fails if the version is taken or the head has moved. |
| Repository.FactRepository.CheckSuperseded | src/plk_memory/postgres/repository.py:126-133 | Reports the first superseded target, in the order of the command, that is missing, at another revision or inactive. |
| Repository.FactRepository.Create | src/plk_memory/postgres/repository.py:83-209 | One create call as a transaction on the tables: idempotency, all checks, all rows, or a complete rollback; refused as a violation of policy if and only if a role that the content needs is missing, untrusted content leaves the quarantine, the body is too long or the content policy says no. |
| Repository.FactRepository.Invalidate | src/plk_memory/postgres/repository.py:211-261 | One invalidate call as a transaction on the tables, with the rollback of every refused one. |
| Repository.ApprovalRepository.Propose | src/plk_memory/postgres/approvals.py:40-130 | One promotion request as a transaction on the tables. |
| Repository.ApprovalRepository.PromoteHead | src/plk_memory/postgres/approvals.py:235-301 | The statements of an approval: a shared active revision, its head and its event, written without touching the head status. |
| Repository.ApprovalRepository.Decide | src/plk_memory/postgres/approvals.py:132-329 | One decision as a transaction on the tables, including the request that goes stale. |
| StoreEffects.CreateSucceedsExactly | src/plk_memory/postgres/repository.py:110-209 | A create succeeds if and only if its id is free and its targets are distinct, active and at the revisions the caller named exactly; then the new fact, the invalidated targets and the relations are as listed, and nothing else changed. |
| StoreEffects.InvalidateSucceedsExactly | src/plk_memory/postgres/repository.py:237-261 | An invalidation succeeds if and only if the fact is active at the expected revision, and then adds exactly one invalidated copy and answers with its version and event. |
| StoreTheorems.CreateRefusedExactly | src/plk_memory/postgres/repository.py:455-490 | A create is refused as a violation of policy if and only if the actor lacks the writer role or the role that philosophy, a human author or the shared namespace needs, untrusted content is meant for anywhere but the quarantine, the body exceeds 2000 characters or the content policy says no. |
| StoreTheorems.InvalidateRefusedExactly | src/plk_memory/postgres/repository.py:211-236 | An invalidation is refused as a violation of policy if and only if the actor is no writer. |
| Domain.StripExactly | src/plk_memory/postgres/approvals.py:48-49 | What a reason is measured by is its part between the spaces around it. |
| StoreTheorems.WhoMayWrite | src/plk_memory/postgres/approvals.py:132-168 | Every attempt of a run that changes a table was made with the roles its operation and content need, and a request or decision about a promotion with a reason of five characters. |
| StoreEffects.ProposeSucceedsExactly | src/plk_memory/postgres/approvals.py:66-130 | A promotion can be requested if and only if the fact is active, in a domain namespace and without a pending request; only the request is added. |
| StoreEffects.DecideSucceedsExactly | src/plk_memory/postgres/approvals.py:168-329 | A decision is taken if and only if the request is pending in the organization at the version the decider names; it goes stale, is rejected or adds the shared version with all other content unchanged, and nothing else changes. |
| StoreRuns.AttemptCases | src/plk_memory/postgres/write_ops.py:25-82 | Every call is refused before it starts, answered from its key, or run once under a key never used before, and a refused one leaves the tables as they were. |
| StoreRuns.AttemptKeepsInv | src/plk_memory/postgres/repository.py:83-261 | Every call of the four operations, in any state, keeps the whole store invariant. |
| StoreRuns.AttemptGrows | src/plk_memory/postgres/repository.py:135-198 | No call changes a stored revision, an event or a settled request, lowers a version, touches another organization or revives an invalidated fact; the events it adds are unclaimed and due from the time of their revision. |
| StoreTheorems.ExactlyOnce | src/plk_memory/postgres/write_ops.py:25-82 | Over any run of retries and key reuse a key commits at most one effect; later calls under it change no table and are answered by the recorded result, or refused as a conflict. |
| StoreTheorems.FailureLeavesNoTrace | src/plk_memory/postgres/write_ops.py:25-62 | A refused attempt changes nothing, so its key stays as free as it was. |
| StoreTheorems.AnswersOwnRequest | src/plk_memory/postgres/approvals.py:348-398 | A stored response is only ever returned to the operation and the resource that produced it. |
| StoreTheorems.VersionBijection | src/plk_memory/postgres/repository.py:135-198 | In every reachable state a fact has exactly one revision and one outbox event for each version up to its head, and none beyond. |
| StoreTheorems.HeadRepeatsRevision | src/plk_memory/postgres/repository.py:419-452 | Kind, namespace, status, version and author of a head equal those of its current revision, although an approval never writes the status. |
| StoreTheorems.InvalidationIsFinal | src/plk_memory/postgres/repository.py:237-261 | Along any run only a last revision can be invalidated, and an invalidated fact never changes again. |
| StoreTheorems.RequestsSettleOnce | src/plk_memory/postgres/approvals.py:184-329 | Approved, rejected and stale requests never change, and a request keeps its fact and version for good. |
| StoreTheorems.ApprovalIsPinned | src/plk_memory/postgres/approvals.py:199-301 | Every promoted version has exactly one approved request, whose source is the version before, and equals that version in all content but the namespace. |
| StoreTheorems.ContentIsCarriedOver | src/plk_memory/postgres/repository.py:419-452 | Consecutive versions of a fact differ only as the operation between them says. |
| StoreTheorems.OnePendingRequest | src/plk_memory/postgres/approvals.py:81-130 | A fact has at most one pending request, and decisions are on record exactly for the decided ones. |
| StoreTheorems.SupersedesIsForest | src/plk_memory/postgres/repository.py:179-198 | In every reachable state supersedes is acyclic, every fact has at most one superseder, superseded facts are invalidated and relations stay in one organization. |
| Outbox.SelectRows | src/plk_memory/postgres/outbox.py:77-79 | Returns exactly the first rows, up to the limit, of the claimable ones in the order they occurred. |
| Outbox.ChangeFeed.Claim | src/plk_memory/postgres/outbox.py:26-118 | Gives out, oldest first and up to the limit, exactly the unlocked events that are neither processed nor dead-lettered, due, under no lease that has not ended before now, and without an older unfinished event of their fact; each is leased to the consumer until the given time under one fresh token and its attempts grow by one; a limit below one or a lease in the past is refused. |
| Outbox.ChangeFeed.Ack | src/plk_memory/postgres/outbox.py:120-148 | Processes all claims or none: it succeeds if and only if each claim holds the lease of an event of its own. |
| Outbox.ChangeFeed.Renew | src/plk_memory/postgres/outbox.py:150-171 | Moves the end of the lease to the given time if and only if the event is leased to this consumer and token and unfinished and that time is in the future. |
| Outbox.ChangeFeed.Fail | src/plk_memory/postgres/outbox.py:173-204 | Releases an event leased to this consumer and token until the retry time and dead-letters it if and only if its attempts have reached the maximum; a lost claim changes nothing. |
| Outbox.ClaimIsRight | src/plk_memory/postgres/outbox.py:39-79 | The first rows of the claimable events are the oldest events that may be given out, judged by their columns alone, and no such event is passed over unless the batch is full of older ones. |
| Outbox.AllHeldExactly | src/plk_memory/postgres/outbox.py:120-148 | As many events are owned as there are claims if and only if every claim holds an event and no two name the same one. |
| IndexWorker.IndexState.PutIfNewer | src/plk_memory/postgres/outbox.py:244-278 | Overwrites a checkpoint if and only if the entry has a higher version. |
| IndexWorker.IndexWorker.InsertRefs | src/plk_memory/graphindex.py:292-361 | Writes the refs of the read head one call at a time; a failed call leaves the earlier ones and ends the projection. |
| IndexWorker.IndexWorker.DeleteRefs | src/plk_memory/graphindex.py:370-381 | Deletes the refs of the entry read before, after all inserts. |
| IndexWorker.IndexWorker.Project | src/plk_memory/postgres/worker.py:104-122 | Reads the head and the checkpoint, skips what is already indexed, else inserts, deletes and checkpoints; each statement is a step of the world. |
| IndexWorker.IndexWorker.Finish | src/plk_memory/postgres/worker.py:51-72 | Acks a projected claim if it still owns its event, otherwise releases it; a success means the event is processed. |
| IndexWorker.IndexWorker.RunOnce | src/plk_memory/postgres/worker.py:42-72 | A batch claims exactly the first claimable events up to the limit and is a run of the world; exactly as many of their events are processed afterwards as it counts successes, and the others as failures. |
| ProjectionProofs.WriteKeepsWorld | src/plk_memory/postgres/write_ops.py:85-113 | Every write by anyone keeps what workers in the middle of a projection rely on. |
| ProjectionProofs.GrantKeepsWorld | src/plk_memory/postgres/outbox.py:26-118 | A claim keeps at most one lease per fact and the order of its versions. |
| ProjectionProofs.ProceedKeepsWorld | src/plk_memory/postgres/worker.py:104-122 | Each statement of a projection keeps the invariant, also for a worker that lost its lease long ago. |
| ProjectionProofs.DeleteKeepsWorld | src/plk_memory/graphindex.py:370-381 | Deleting refs of an older version never removes one that a current checkpoint or a current projection needs. |
| ProjectionProofs.StepKeepsWorld | src/plk_memory/postgres/worker.py:42-122 | Every step of writers, workers, heartbeats, failures and crashes keeps the invariant of the world. |
| ProjectionTheorems.ProcessedMeansIndexed | src/plk_memory/postgres/worker.py:104-122 | In every run an event is processed only once its version is indexed, and the index never runs ahead of the head. |
| ProjectionTheorems.ProjectionConverges | src/plk_memory/postgres/worker.py:51-122 | Once the event of the current version is processed, whatever became of older ones, the checkpoint is the entry of the current revision and all its refs are in the graph. |
| ProjectionTheorems.IndexedAsStored | src/plk_memory/graphindex.py:214-361 | Once the event of the current version is processed, the checkpoint of an active fact has exactly one ref for each tag in order (one with the namespace if there are no tags, one for the episode in episode mode), all in the graph under its organization and the group of its namespace, and that of an invalidated fact has none. |
| ProjectionTheorems.ZombiesAreHarmless | src/plk_memory/graphindex.py:214-246 | Whenever a checkpoint is at the current version all its refs are present: late workers can leave refs behind but never remove current ones. |
| ProjectionTheorems.OneLeasePerFact | src/plk_memory/postgres/outbox.py:26-118 | At most one event of a fact is leased, a claimed event has only finished ones below it, and processed and dead-lettered exclude each other and a lease. |
| ProjectionTheorems.GrantLeavesLeased | src/plk_memory/postgres/outbox.py:48-51 | A claim leaves every event alone whose lease has not ended at its time. |
| ProjectionTheorems.LeaseProtects | src/plk_memory/postgres/outbox.py:26-118 | Over any run of writers, other workers, claims before the lease ends, failures and crashes a live lease stays with its claim until its event is processed, unless the worker of the claim gives it up. |
| ProjectionTheorems.LossIsFinal | src/plk_memory/postgres/outbox.py:120-204 | A claim whose event was claimed again or finished never owns it again, so it can no longer ack, renew or fail. |
| ProjectionTheorems.FinishedIsFinal | src/plk_memory/postgres/outbox.py:120-204 | Processed and dead-lettered events never change again. |
| ProjectionTheorems.WorkersOnlyDeliver | src/plk_memory/postgres/worker.py:42-122 | No worker step changes anything stored about facts. |
| ProjectionProgress.CanAlwaysCatchUp | src/plk_memory/postgres/worker.py:42-122 | From every reachable world claims and projections alone bring the checkpoint of a fact to its current version, unless the event of that version is dead-lettered. |
| Ordering.SortedIsUnique | scripts/migration/shadow_import_git.py:89-98 | A set of ids has one ascending order. |
| Ordering.BelowExactly | scripts/migration/shadow_import_git.py:89-98 | Ids are compared by their first different character, a proper prefix first. |
| ImportPlan.DependenciesOf | scripts/migration/shadow_import_git.py:74-87 | Refuses the first post whose link is no text, points nowhere or at itself; otherwise builds exactly the dependency and dependant sets. |
| ImportPlan.Release | scripts/migration/shadow_import_git.py:94-98 | After a fact is taken, ready holds in order exactly the untaken facts all of whose superseded facts are taken. |
| ImportPlan.LeftOutExactly | scripts/migration/shadow_import_git.py:99-102 | A greedy order that cannot go on leaves out exactly the facts that lie on or behind a cycle. |
| ImportPlan.GreedyIsLeast | scripts/migration/shadow_import_git.py:89-98 | Always taking the least ready id gives an order before every other admissible one. |
| ImportPlan.PlanImport | scripts/migration/shadow_import_git.py:71-103 | Terminates; raises the cycle error if and only if a cycle exists, naming exactly the facts stuck behind one; otherwise returns the lexicographically least order of all ids with every superseded fact before its replacement. |
| ImportPlan.SupersedesMap | scripts/migration/shadow_import_git.py:106-113 | Maps every replacement to the sorted ids it replaces, and raises if and only if some truthy link is no text. |
| SnapshotImport.KeysTellApart | scripts/migration/shadow_import_git.py:176-196 | The idempotency keys of different calls of one import never collide. |
| SnapshotImport.CreateStep | scripts/migration/shadow_import_git.py:163-177 | The next planned create never meets a missing, duplicate or changed fact, and leaves the organization with exactly one more fact of the snapshot. |
| SnapshotImport.EndStep | scripts/migration/shadow_import_git.py:179-196 | The invalidation of a post without replacement never conflicts and gives it the reason of the snapshot or the default. |
| SnapshotImport.ImportEndToEnd | scripts/migration/shadow_import_git.py:152-196 | From a new organization no call of the import of an acceptable snapshot is refused; contents, states and replacements end as in the snapshot and no other organization changes, whatever the clock shows at each call. |
| SnapshotImport.ImportAgain | scripts/migration/shadow_import_git.py:152-196 | Running the import again at any later times changes nothing, whatever was written in between. |
| SnapshotRules.ImportableExactly | scripts/migration/shadow_import_git.py:127-184 | A snapshot is acceptable if and only if each post is listed once and, field by field, has an id of 1 to 64 characters, a payload that parses and passes the policy, a status, a link that is absent or names another post, and, if it is invalidated on its own, no reason or one of five characters. |
| SnapshotRules.CallsExactly | scripts/migration/shadow_import_git.py:142-184 | When the calls for a post can be built, and their actor, command, expected revisions, reason and key, character by character. |
| ImportParity.ParityExactly | scripts/migration/shadow_import_git.py:198-226 | After an import the comparison reaches its end if and only if every post has a text status and a reason that is absent, text or has a JSON text; then only statuses and reasons can differ, each reported with both values, and there is no mismatch if and only if every post has the status and the reason the store writes for it. |
| ImportParity.ImportReportsExactly | scripts/migration/shadow_import_git.py:116-229 | The import of an acceptable snapshot into a new organization stores everything, reaches its report if and only if every post meets the first condition, and reports parity if and only if every post meets the second. |
| ImportParity.CheckParity | scripts/migration/shadow_import_git.py:198-226 | Compares every post with its stored record field by field, and its replacements, in order, or stops at the first post without a readable status or with a reason that cannot be reported. |
| SnapshotRules.DifferencesAreReported | scripts/migration/shadow_import_git.py:189-210 | The comparison of a post with a record reports exactly the fields whose values differ, each with both values. |
| ImportParity.ShadowImport | scripts/migration/shadow_import_git.py:116-229 | Rejects a snapshot that cannot be ordered before writing; otherwise makes the calls of the least order until one fails and reports the numbers of facts and relations and the differences with both values. |
| ImportParity.DatedReasonEndsTheImport | scripts/migration/shadow_import_git.py:198-209 | A snapshot of one active post whose reason YAML reads as a date: every call succeeds, the fact is stored, and the report fails with a type error. |
| ImportParity.MissingReasonIsReported | scripts/migration/shadow_import_git.py:171-209 | A snapshot of one invalidated post without a reason: it is stored with the default reason, and the report names exactly that difference. |
| ImportParity.StoredLinksAreOrdered | scripts/migration/shadow_import_git.py:71-103 | The supersedes relation of every reachable database is one that the importer accepts. |
| FactService.FactService.Add | src/plk_memory/facts.py:99-179 | Resolves and compares all targets before the first write; an addition succeeds if and only if it is acceptable, all targets are as the caller saw them and the push works, and then the new file is active, every target is invalidated with the new file as reason and successor, and the rest is as it was; otherwise nothing is. |
| FactService.FactService.Invalidate | src/plk_memory/facts.py:181-210 | Invalidates an active, unchanged fact for a reason of five characters or more, or changes nothing. |
| FactService.ServiceFilesAreImportable | src/plk_memory/facts.py:143-179 | Files written only through the service never form a cycle, and each has the status and reason the database writes. |
| FactService.ServiceFilesImportWithParity | scripts/migration/shadow_import_git.py:116-229 | So their import into a new organization, where policy admits them, reports parity. |
| GitSync.SyncEngine.ApplyDiff | src/plk_memory/sync.py:84-102 | Takes the ids of renamed and deleted files off the ledger and collects the paths to look at; a failing delete aborts. |
| GitSync.SyncEngine.Upserts | src/plk_memory/sync.py:107-122 | Looks at every target in order; a failure at one is dead-lettered and the others go on. |
| GitSync.SyncEngine.SyncStore | src/plk_memory/sync.py:58-129 | One sync of the store, which saves nothing if it is aborted or the graph is not ready. |
| GitSync.SyncEngine.Sync | src/plk_memory/sync.py:45-56 | Reports rewritten history as degraded and leaves the saved state alone. |
| GitSync.SyncEngine.BeginReindex | src/plk_memory/sync.py:146-153 | Lets exactly one reindex in. |
| GitSync.SyncEngine.Reindex | src/plk_memory/sync.py:158-176 | Rebuilds from a cleared state, refuses a second reindex, and releases the flag however it ends. |
| GitSync.DepartExactly | src/plk_memory/sync.py:84-102 | Exactly the ids of departed files leave the ledger, exactly the arrived paths are looked at, and an abort needs a failing delete. |
| SyncLedger.ListedExactly | src/plk_memory/facts.py:69-76 | The files considered are the Markdown files other than the two reserved names, in any directory. |
| SyncLedger.SyncedExactly | src/plk_memory/sync.py:58-129 | For any files, faults and state a completed sync has looked at all fact files or those of the diff, and at the dead letters; of these exactly the failing ones are dead-lettered and the facts of the others are right on the ledger; no other id changes but the departed ones, and the report counts what was done. |
| GitSync.SyncKeepsCurrent | src/plk_memory/sync.py:58-129 | Whatever fails, a sync leaves every fact file of the head dead-lettered or right, and a sync without faults completes. |
| GitSync.LedgerFollowsHead | src/plk_memory/sync.py:58-129 | After any runs with any faults each fact file is dead-lettered or its entry matches the head (absent when invalidated), and no ledger id lacks a file. |
| GitSync.IncrementalIsRebuild | src/plk_memory/sync.py:158-167 | With no dead letters left, the state equals that of a full rebuild at the same head. |
| GitSync.CleanSyncIsExactly | src/plk_memory/sync.py:70-122 | One faultless sync turns an exact ledger into an exact ledger if and only if the commit is the same, or no listed file that stays drops an active id the head has nowhere else and the diff names no unlisted file with an active fact. |
| GitSync.EditedIdGoesStale | src/plk_memory/sync.py:92-102 | An id edited in place leaves a ledger entry that no file has: the first condition is needed. |
| GitSync.SkippedFileIsIndexed | src/plk_memory/sync.py:101-122 | An edit, even one the engine does not read, of an unlisted file with an active fact puts that fact on the ledger: the second condition is needed. |
| UsageRecorder.UsageLog.RecordSearch | src/plk_memory/usage_log.py:69-108 | Appends a search unless its trace has no intent of the same client. |
| UsageRecorder.UsageLog.RecordIntent | src/plk_memory/usage_log.py:110-142 | Appends an intent once per trace; a repeat is a replay or a conflict. |
| UsageRecorder.UsageLog.RecordDecision | src/plk_memory/usage_log.py:144-276 | Appends a decision that meets every rule, in the order they are tested, and otherwise leaves the log alone; a null list that has to be read fails the call in its place. |
| UsageRecorder.UsageLog.RecordAction | src/plk_memory/usage_log.py:278-362 | Appends an action of a known trace with its intent's side effect, a completed one only after an attempt. |
| RecorderAnswers.UsedKeyExactly | src/plk_memory/usage_log.py:110-177 | A call whose key some record has is a replay if and only if client and request are the same, and otherwise a conflict; it adds nothing. |
| RecorderAnswers.RecordedExactly | src/plk_memory/usage_log.py:69-362 | A call under a new key is answered by the rules of its tool, stated over the records of the log alone, and appends one record that holds what it says if and only if it is accepted. |
| UsageRecorder.CallKeepsLog | src/plk_memory/usage_log.py:69-362 | Every call of the recorder keeps all rules across records. |
| UsageRecorder.RecorderKeepsRules | src/plk_memory/usage_log.py:69-362 | In every recorded log each search is resolved at most once, by its own client and from what was returned, traces share their intent's client, and completed actions follow attempts. |
| UsageRecorder.RecordedIsReplayed | src/plk_memory/usage_log.py:110-142 | A recorded call is answered as a replay ever after and adds nothing. |
| Metrics.Decisions | src/plk_memory/metrics.py:176-190 | Keeps the first recorded decision of each id, in order. |
| Metrics.ValidatedDecisions | src/plk_memory/metrics.py:193-245 | Keeps exactly the decisions that meet the contract given those kept before, and stops where a null list of facts would be read. |
| Metrics.ValidatedKeepsContract | src/plk_memory/metrics.py:193-245 | Accepted decisions resolve disjoint searches of their own client and use only what these returned, even in a hand-edited log. |
| ContributionCounts.ValidExactly | src/plk_memory/metrics.py:176-245 | The valid decisions are, in order, the first recorded one of each id that, given those kept before it, names different unresolved searches of its client that found something, uses different facts they returned, and has an agreeing effect. |
| Metrics.RatesAreRates | src/plk_memory/metrics.py:541-618 | For every log, per fact strong uses are at most uses and uses at most returns; per client strong at most adopted, adopted at most resolved, resolved at most measurable. |
| Metrics.TotalsAreRates | src/plk_memory/metrics.py:525-640 | The totals satisfy the same chain: each accepted decision resolves a search of its own. |
| Metrics.ValidatorKeepsRecorded | src/plk_memory/metrics.py:193-245 | The validator keeps every decision of a log the recorder built. |
| Metrics.ContributionStats | src/plk_memory/metrics.py:494-661 | Every client row, fact row and total is its count; the computation ends early if and only if a measurable search has a null list of facts. |
| ContributionCounts.StatsAreCounts | src/plk_memory/metrics.py:494-661 | Each number of the statistics is the number of records it is meant to count: searches that found something, decisions by client and by the effects changed_action, prevented_error and confirmed, and each place where a fact was returned. |
| Reviews.ValidateReviewHistory | src/plk_memory/workflow_evaluation.py:345-374 | Accepts a history if and only if it is a chain of distinct reviews up to the trusted head whose replays follow, later and once, an earlier review of the same case and variant. |
| Reviews.ReviewStore.ReadReviews | src/plk_memory/workflow_evaluation.py:377-394 | Returns the stored reviews if and only if all are parsed, attested, chained to the trusted head and in the suite; a missing store needs a zero head. |
| Reviews.ReviewStore.AppendReview | src/plk_memory/workflow_evaluation.py:419-457 | Adds a review if and only if the store is accepted and the review is attested, in the suite and its next link; otherwise no record changes. |
| Reviews.AcceptedExactly | src/plk_memory/workflow_evaluation.py:173-197 | A store is accepted if and only if it is a history up to the trusted head and every review, field by field, is signed by the reviewer, consistent in evidence and blame, and rates what its case requires. |
| Reviews.OneStorePerHead | src/plk_memory/workflow_evaluation.py:231-252 | One trusted head accepts one store: no truncation, reordering or rewrite. |
| Reviews.AppendMovesTheHead | src/plk_memory/workflow_evaluation.py:419-457 | An appended store is accepted under its new head, only it is, and the old head accepts it no longer. |
| Reviews.ChainIncreases | src/plk_memory/workflow_evaluation.py:345-374 | Along replays places and times strictly increase within one case and variant. |
| Reviews.ChainsAgree | src/plk_memory/workflow_evaluation.py:345-374 | Two replay chains that share a review agree up to it. |
| Reviews.ChainsNeverBranch | src/plk_memory/workflow_evaluation.py:345-374 | A replay chain has at most one continuation. |
| Reviews.EveryReviewIsOnAChain | src/plk_memory/workflow_evaluation.py:345-374 | Every review is on a replay chain that starts with an original. |
| ReviewSummary.SummarizeReviews | src/plk_memory/workflow_evaluation.py:460-583 | Computes the aggregate of reviews that fit the suite, and fails on any other. |
| ReviewCounts.SummaryCounts | src/plk_memory/workflow_evaluation.py:460-583 | Every number of a summary is a number of reviews: successes have first-tier evidence, a passed action, no failed stage and every required stage passed, evaluable ones are these or have a failed stage, overall and by case, client and week; stages, blamed stages, replays, repeated failures and hours between them are counted likewise. |
| ReviewSummary.CohortCounts | src/plk_memory/workflow_evaluation.py:496-507 | A cohort counts its evaluable and successful reviews and passes the check of the dashboard. |
| ReviewSummary.FailuresAddUp | src/plk_memory/workflow_evaluation.py:509-514 | Failure counts add up to evaluable minus successes and name only known stages. |
| ReviewSummary.GroupAddsUp | src/plk_memory/workflow_evaluation.py:538-542 | Each grouping adds up to the totals. |
| ReviewSummary.ImprovementsHold | src/plk_memory/workflow_evaluation.py:515-536 | Replays, failures and recurrences are ordered counts and the average lead time is not negative. |
| ReviewSummary.SummaryMeetsItsChecker | src/plk_memory/static/app.js:1092-1117 | The aggregate of every store the reader accepts passes the independent check of the dashboard. |
| Feedback.FeedbackCoordinator.Submit | src/plk_memory/feedback.py:297-345 | Queues a request if and only if its stripped text is of 3 characters up to the limit, its fact is no philosophy and has no unfinished request, and the unfinished ones are below the cap. |
| Feedback.FeedbackCoordinator.StartRun | src/plk_memory/feedback.py:378-386 | Starts only a queued request. |
| Feedback.FeedbackCoordinator.FinishRun | src/plk_memory/feedback.py:387-416 | Leaves the request proposed with the proposal, or failed if there is none, and every other request as it was. |
| Feedback.FeedbackCoordinator.ResumePending | src/plk_memory/feedback.py:352-376 | Returns interrupted applies to proposed and queues and spawns everything unfinished. |
| Feedback.FeedbackCoordinator.Transition | src/plk_memory/feedback.py:418-441 | Changes the state if and only if the table allows it. |
| Feedback.TransitionsExactly | src/plk_memory/feedback.py:36-53 | The table allows nine transitions, named one by one. |
| Feedback.FeedbackCoordinator.ClaimApply | src/plk_memory/feedback.py:443-456 | Claims a proposed request that has a proposal, and no other. |
| Feedback.FeedbackCoordinator.Reject | src/plk_memory/feedback.py:458-467 | Rejects a proposed request, and no other. |
| FeedbackRuns.RunEndsAsTold | src/plk_memory/feedback.py:387-416 | In every reachable world a failing run leaves its request failed and a succeeding one leaves it proposed with its proposal; no other request changes. |
| FeedbackProofs.StepFollows | src/plk_memory/feedback.py:36-53 | Every step changes stored states only along allowed transitions. |
| FeedbackProofs.RequestsKept | src/plk_memory/feedback.py:328-345 | Every step keeps one unfinished request per fact, the cap, and a proposal where one is claimed. |
| GitClone.GitStore.FetchAndFf | src/plk_memory/gitstore.py:92-112 | Brings the clone up to the remote; fails on unpushed commits above an unmoved remote and on uncommitted files that would be overwritten, and leaves diverged histories alone. |
| GitClone.GitStore.PushLoop | src/plk_memory/gitstore.py:143-163 | Pushes up to three times with fetch and rebase in between; a push takes everything unpushed along, and giving up drops everything unpushed. |
| GitClone.TreeIsSeen | src/plk_memory/facts.py:91-95 | A fact is read from the working tree: a file just written, else one written before, else the one last committed; a reset puts back what the last fetch saw. |
| GitClone.ThreePushes | src/plk_memory/gitstore.py:146-164 | With a network that answers and a remote nobody else moves the loop succeeds if and only if one of three pushes lands. |
| GitClone.ReplayedFile | src/plk_memory/gitstore.py:149-158 | Wherever unpushed commits are replayed, a fact they retire stays retired and any other old file is as it was. |
| FeedbackGuard.BeginKeeps | src/plk_memory/facts.py:117-155 | An apply that finds its base after a fetch under the lock has no earlier commit of its request in the clone or, unless the fact was put back, on the remote. |
| FeedbackGuard.LandKeeps | src/plk_memory/gitstore.py:143-149 | A push lands each request once, also one that lands late along with other commits, and leaves no landed request its base. |
| FeedbackGuard.RebaseKeeps | src/plk_memory/gitstore.py:150-158 | Moving unpushed commits onto a remote that others changed keeps every guard. |
| FeedbackProofs.StepKeepsWorld | src/plk_memory/git_services.py:471-550 | Every step of users, runs, applies, other writers, crashes between any two statements, start-up and outside edits keeps the invariant. |
| FeedbackRuns.AppliedAtMostOnce | src/plk_memory/git_services.py:471-550 | Over all runs a request replaces its fact at most once, unless somebody else restored the replaced file; an applied request did if and only if no apply of it stopped between commit and push without a later push taking the commit along, or the fact was put back after an earlier one. |
| FeedbackRuns.StaleIsRightExactly | src/plk_memory/git_services.py:499-543 | In every reachable world a stale request, and a proposed one, has not replaced its fact if and only if no push of its commit went unheard. |
| FeedbackRuns.RefusalIsRightExactly | src/plk_memory/facts.py:143-155 | When an add is refused under the lock, as stale or to be tried again, its request has replaced the fact if and only if a commit of the remote just fetched names it. |
| FeedbackRuns.LookIsRightExactly | src/plk_memory/git_services.py:482-497 | An apply that ends applied on a marker in its clone is right if and only if no commit of the request is unpushed there, or the fact was put back after an earlier one had landed. |
| FeedbackStranded.AppliedWithoutCommit | src/plk_memory/gitstore.py:143-149 | A run, from start-up to a reset of the clone, after which a request is applied although none of its commits reached the remote or ever will. |
| FeedbackStranded.StaleWithCommit | src/plk_memory/gitstore.py:143-163 | A run, from start-up through a push that lands unheard and a retry, after which a request is stale although its replacement is on the remote and nobody else wrote. |
| FeedbackRuns.OneRequestPerFact | src/plk_memory/feedback.py:328-345 | In every reachable world a fact has at most one unfinished request, the total stays within the cap and proposed means a proposal. |
| FeedbackRuns.EveryChangeIsAllowed | src/plk_memory/feedback.py:36-53 | Every stored change of every run is an allowed transition, although runs, start-up and claims never ask. |
| FeedbackRuns.FinalStaysFinal | src/plk_memory/feedback.py:36-53 | Applied, rejected, failed and stale are for good. |
| FeedbackApply.PushesRun | src/plk_memory/gitstore.py:143-163 | The push loop is a sequence of steps of the world, whatever the network does in each round. |
| FeedbackApply.GitServices.Add | src/plk_memory/facts.py:117-179 | Fetches, checks the new fact, compares the file again, writes, commits and pushes: the steps of an add, refused as stale only for a changed file, as to be tried again for the rest, and without a trace in the clone either way. |
| FeedbackApply.GitServices.ApplyFeedback | src/plk_memory/git_services.py:471-550 | An apply nobody disturbs is the sequence of its steps from claim to settle, from any clone, also one that holds stranded commits. |
| Search.ResolveHits | src/plk_memory/graphindex.py:95-128 | Returns exactly the first hits, one per attributed fact in edge order, up to the limit. |
| Search.SearchIndex | src/plk_memory/postgres/graph_adapter.py:151-194 | Attributes edges by the refs of the organization's checkpoints and proposes each fact once, with its indexed revision. |
| Search.AttributionIsOwn | src/plk_memory/postgres/graph_adapter.py:163-169 | An edge is attributed only to a fact of the caller's organization that lists its id, or one of its episodes, as its own ref. |
| Search.KnowledgeApplication.GetMany | src/plk_memory/postgres/repository.py:68-81 | Returns exactly the stored facts among the ids. |
| Search.KnowledgeApplication.Rehydrate | src/plk_memory/postgres/application.py:208-226 | Shows visible candidates from their stored records only, until there are enough. |
| Search.KnowledgeApplication.ToolSearch | src/plk_memory/postgres/application.py:155-226 | A search composes index candidates of a wider pool with the stored records; every hit is the present row of a fact that meets each filter now, and if there are no more candidates than hits asked for, every candidate that meets them is shown. |
| Search.SearchRefinesDatabase | src/plk_memory/postgres/application.py:208-226 | The hits are exactly the first visible candidates up to the limit, in candidate order, with the fields the database holds now. |
| Search.HitsAreRows | src/plk_memory/postgres/application.py:719-752 | Statement, namespace, kind, status, time and revision of a hit are those of the head and its current revision, the head and revision meet the status, kind and namespace asked for, a quarantined fact only if the quarantine was asked for; and a candidate that meets them is shown unless the limit is filled by earlier ones. |
| Search.EdgesAreOwn | src/plk_memory/postgres/graph_adapter.py:166-184 | A search reads exactly the edges in the groups of the namespaces it names, or of all domains and the shared namespace, in partitions of its own organization. |
| Search.HitsAreFirstEdges | src/plk_memory/graphindex.py:95-128 | A hit of the graph has the text and score of the first edge about its fact, by its id or by the first known episode. |
| Search.ShownOnceAndCurrent | src/plk_memory/postgres/application.py:719-752 | Whatever the graph returns, no fact is shown twice and everything shown is a current visible fact of the caller's organization. |
| Search.IndexedFactIsFound | src/plk_memory/postgres/application.py:155-226 | A visible fact one of whose checkpointed refs the graph returned is found, if no limit cuts the answer short. |

## Findings

| property that fails | failing run or input | exactly when it holds |
|---|---|---|
| A request is stored as applied only if its replacement reached the remote. The apply trusts a marker in its own clone (src/plk_memory/git_services.py:482-497), and a crash between src/plk_memory/gitstore.py:145 and :148 leaves the commit there. | `FeedbackStranded.AppliedWithoutCommit` | `FeedbackRuns.AppliedAtMostOnce` over runs, `FeedbackRuns.LookIsRightExactly` at the branch |
| A request is stored as stale, or open again, only if it did not replace its fact. The retry compares only the file (src/plk_memory/facts.py:150-154), and after a push that landed unheard the clone is reset to the tracking ref it had before (src/plk_memory/gitstore.py:143-163). | `FeedbackStranded.StaleWithCommit` | `FeedbackRuns.StaleIsRightExactly` over runs, `FeedbackRuns.RefusalIsRightExactly` at the branch |
| An incremental sync ends with the ledger of a rebuild (src/plk_memory/sync.py:58-129). | `GitSync.EditedIdGoesStale`, `GitSync.SkippedFileIsIndexed` | `GitSync.CleanSyncIsExactly` |
| An import of an acceptable snapshot reports parity (scripts/migration/shadow_import_git.py:198-226). | `ImportParity.MissingReasonIsReported` | `ImportParity.ParityExactly` |
| An import whose calls all succeed ends with its report. A reason that has no JSON text, such as a date, raises in scripts/migration/shadow_import_git.py:207 after everything is stored. | `ImportParity.DatedReasonEndsTheImport` | `ImportParity.ImportReportsExactly` |

## Left out

- SQL text, isolation levels, row-level security and migrations: a transaction is an atomic step, as the row locks, the
  skipped locked rows and the unique indexes of the schema make it; the order of text columns is taken to be by code point.
- Audit rows, actor types, relation ids, the stored content hash column and the last error texts: no branch reads them.
- Identities are fresh per table, not across tables, and a claim token is drawn from the same counter.
- Policy schema rules and secret scanning: a predicate of the caller, the same for every call of a run.
- Graphiti, embeddings and ranking: the graph is a set of refs with inserts and deletes that may fail, and a search answer
  is an arbitrary list of edges; an edge of a fact is one ref, its two nodes are not modelled.
- PostgresGraphSearchIndex.clear: it erases checkpoints and nothing in the PostgreSQL runtime calls it.
- Several index backends at once: checkpoints are those of one backend.
- IndexWorker.IndexWorker.RunOnce: the heartbeat that renews the lease beside a projection is a step of the world, not
  part of this method, and retry times are inputs rather than the exponential delay with jitter.
- Attempts are not bounded by the maximum: only a failure dead-letters, so crashing workers can exceed it, and the model
  lets them.
- Deciding order of `ack` and `renew` across claims of different organizations, and the listing and history queries that
  only format rows.
- Front matter parsing and Git commands: commits, diffs and posts are given as values, and of a YAML value only whether it is
  absent, text or something else, its truth, its text and its JSON text.
- FactService.FactService.Add: the slug of the path and the rendered text are part of the flag that stands for an
  acceptable addition, and a file is identified by its fact id.
- GitSync.SyncEngine.SyncStore: the graph beside the ledger is not modelled; a delete that fails half way leaves the
  ledger as it was, and the retry meets whatever is left in the graph.
- Redaction, timers and file modes of the usage log: redaction rewrites only preview fields, which no rule reads; the
  previews, hashes and fact references of the records are not modelled, so neither is a hand-edited null list of references.
- UsageRecorder.UsageLog.RecordSearch: the check of the trace and the append take the lock one after the other in the
  source; they are one step here, which the log being append-only allows.
- Metrics.ContributionStats: rows are maps, not the sorted and shortened lists, and the rates are left to the reader of the
  two counts; the other panels of the dashboard are not modelled.
- ReviewSummary.SummaryMeetsItsChecker: rates and averages are real numbers, so rounding is not modelled.
- The private store of reviews: opening without links, modes, locks and the syntax of lines; the configuration of the
  trust anchor is taken as given.
- Pilot status, readiness gates, curation, rendering, the session and authentication layers, the MCP and web routes.
- The prompt and process of the proposal runner: a proposal or a failure is an input; that only one runner is active at a
  time is not modelled.
- FeedbackApply.GitServices.Add: the checks before the file is compared (schema, length, path, scan of the text) are one
  flag and the scan of the written file is another, because all of them end the apply proposed.
- FeedbackApply.GitServices.ApplyFeedback: describes an apply nothing interrupts; interruptions are steps of the world.
- Inside a Git command: fetch, rebase, push and reset are atomic, a rebase that is clean retires the same facts in the files
  it meets, and the untracked file of a new fact is not read before it is committed.
- An apply that is cancelled in the middle of its push ends there; its thread pushing on while the next writer already holds
  the lock is not modelled.
- Application services of the PostgreSQL runtime other than search: `_expected_superseded_revisions` and `_fact_id` only
  choose the arguments of the repository calls, which are arbitrary here.
