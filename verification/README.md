# Ordivon Host, modelled

A Dafny model of the Ordivon Host: its journal as a concurrent protocol, and the clients that
rely on it. `dafny verify dfyconfig.toml` checks the whole project.

**The journal.** A database is a value (`Tables`), each SQLite transaction a total function on
it (`Transactions`), and the journal a class that writes its tables one by one and rolls back
(`HostJournal`), proved equal to those functions. `JournalInvariants` strengthens the startup
queries until every transaction keeps them; `Validators` states the queries as they are made
and derives them. `Storage` adds the content-addressed store and defines a *run*: any sequence
of the atomic actions of any number of writers, each obeying only what the Host's own writers
obey (bytes are put before they are named, and a transition succeeds the projection stored at
the revision it expects). A writer that stalls acts later; one that crashes acts no more.
`Evolution` says how a store may change between two moments, and derives sequential histories
and at most one commit a revision. `Reachable` collects what holds of every reachable store,
and `Replays` what a repeated append is told. `Answers` says of the rows alone, without the
functions that compute it, what each transaction answers, refuses and writes.
`Workers` runs any number of kernel workers over their separate steps and shows that they only
make runs; `LeaseFence` and `LeaseRuns` say what a lease does and does not guarantee. Runs that
show what can happen start at `Beginnings`, one task created in a fresh Host.

**The clients.** `HostStorage.Host` holds the journal, the object store and a schedule of what
others do between this caller's steps, so a contract about one method is a contract for every
schedule; a ghost log says which actions the caller took and on which store each met. On it
stand the kernel (`HostKernel`), descriptors and checkpoints, external continuity (`Continuity`,
`CheckpointTool`, `Adoption`, `Resumption`, `Handoff`), extension state (`Extensions`,
`ExtensionReads`, `StaleMerge`), the board, the task list, and the news. Four files lift one
caller's contract to whole runs: `AdoptionRuns`, `ExtensionRuns`, `HistoryRuns`, `HandoffRuns`;
`IdentityRuns` shows that the identities these callers choose are never taken.
`Keyset` holds the pagination argument that the news and task lists share; `TaskStays` says which
tasks stay listed.

**Beside the journal.** `CacheValidation` (cached against full hashing), `History` (the offline
checker), `Migrations` (the version chain), `ContextCompiler`, `Preview`, the canonical text whose
length budgets count (`CanonicalText`, `JsonLength`), and the text of task cursors (`TaskCursor`,
`Base64`).

A canonical digest is modelled by its preimage, so equal digests mean equal canonical values.
Clock readings, lease times and identities are parameters. Preconditions such as `Valid()` are
invariants proved of every reachable state, not demands on callers.

## Where the code and a natural claim differ

- A release and the consumption of a lease compare owner and revision but not expiry, and lease
  revisions restart at 1 after a row is deleted, so a release can take a row it was not issued for:
  if and only if that row has the same owner and revision and another expiry
  (`LeaseFence.ReleaseTakesAnotherIff`). Between workers that each use their own owner name this
  never happens (`LeaseFence.TokensMatchTheirOwnRow`); between two that share one it does
  (`LeaseRuns.SharedNameReleasesForeignRow`). A token taken over by a different owner stays dead
  (`LeaseFence.SupersededForever`); two commits at one revision are excluded by the revision fence
  alone (`Evolution.OneCommitPerRevision`).
- `append_preserving` reads before it locks. Its result is computed from the state at the
  expected revision when that revision is not ahead of the task at the start of the call.
  Otherwise it may be computed from an older state: the result is right for the state it met if
  and only if the two agree on every field the call does not name (`Extensions.CurrentMergeIff`,
  also in the contract of the call), and `StaleMerge.StaleMergeCommits` is a run that loses a field.
- A resumed task shows a checkpoint if and only if its head event bears one
  (`Resumption.CheckpointShownIff`), so none while the head is an extension event.
- The board's message count equals `lastSequence` if and only if a topic is given or nothing was
  posted between the reading of the two (`Board.ListMessages`). With a reply filter only, or with
  no filter, it is read on its own; `Board.CountCanExceed` shows a larger count.
- A task cursor longer than 2048 characters, which is one whose JSON text exceeds 1536, is written
  but not accepted (`TaskCursor.CursorFitsIff`); `TaskCursor.OverlongCursor` gives the inputs, and
  `TaskWalk.FollowCursors` says that an undisturbed walk over readable tasks fails exactly there.
- An upgrade interrupted between the commit of the last version step and the closing schema
  script reaches version 8 without `idx_object_refs_validation_timing_digest`. Every later
  opening then takes the path of a database that was already current, does not run the script,
  and refuses the shape. `Migrations.SchemaConnection.InitializeSchema` states the condition:
  undisturbed, an upgrade that began can be opened again if and only if its version is still
  below 8 or the index exists; `Migrations.CrashCanStrand` shows that the other case is reachable
  from every start that lacks the index.
- The offline checker treats a creation with either checkpoint digest as one that carries a
  checkpoint; the reader asks for both. They agree on every event except a creation with exactly
  one (`History.CheckerAgreesIff`, `History.OneDigestDivides`). The writers always record both, so
  the two agree on every run of theirs (`HistoryRuns.OfflineAcceptsOnline`).

## Model

| member | source | states |
|---|---|---|
| `Domain.ProjectionRoundTrip` | src/ordivon_host/domain/tasks.py:33-113 | A stored projection reads back as itself exactly when it satisfies the construction rules, the task:, goal: and node: prefixes and the trimming among them; any other reads as nothing |
| `Domain.EventRoundTrip` | src/ordivon_host/storage.py:257-297 | An event payload reads back as the same kind, data and projection, exactly when its projection is well formed |
| `Domain.EventDigestRoundTrip` | src/ordivon_host/storage.py:302-342 | The digest under which an event is stored leads back to that event |
| `Domain.CoreTextsDiffer` | src/ordivon_host/domain/events.py:31-54 | Each of the Host's own event kinds has a text of its own |
| `Domain.SucceedsIffReachable` | src/ordivon_host/kernel.py:240-270 | The successor relation the other proofs use holds between two projections if and only if `next_projection` can produce the second from the first for some arguments and some clock reading |
| `Domain.NextExactly` | src/ordivon_host/kernel.py:240-270 | A transition produces, field by field, what is given and otherwise what was there, one revision and at least one millisecond later, with an active node only while running; it is refused on an ended task, a negative clock, or a projection that may not be built |
| `Json.OpenAddress` | src/ordivon_host/objects/store.py:85-122 | What `put` stored under an address is the kind and payload it was given |
| `Json.OpenExactly` | src/ordivon_host/objects/store.py:157-197 | An address opens to a kind and a payload exactly when it is the address of an envelope of that kind and payload, and the kind is a proper label |
| `Json.GenuineAgree` | src/ordivon_host/objects/store.py:161-197 | Two descriptions of stored bytes with one digest agree in kind and length |
| `Tables.EventAtStable` | src/ordivon_host/journal/sqlite.py:1179-1189 | An event found at a stream revision is found there, unchanged, in every longer event table |
| `HostJournal.Journal.constructor` | src/ordivon_host/journal/_schema.py:1-137 | A fresh database is empty and satisfies the journal invariant |
| `HostJournal.Journal.AppendTaskEvent` | src/ordivon_host/journal/sqlite.py:218-429 | The table-by-table append, with its rollback, has exactly the result and the database of the total transaction function, and keeps the invariant; what that function answers is stated by `Answers.ExistingExactly` and `Answers.CreatedExactly` |
| `HostJournal.Journal.ReplayInTransaction` | src/ordivon_host/journal/sqlite.py:261-309 | A known event identity is answered by the replay branch of that function, stated by `Answers.ExistingExactly`; a live lease is consumed |
| `HostJournal.Journal.AdmitInTransaction` | src/ordivon_host/journal/sqlite.py:311-428 | Revision, terminal, lease and causal fences in their order, then every write of a new event |
| `HostJournal.Journal.AdmitObjects` | src/ordivon_host/journal/sqlite.py:1525-1561 | The payload and then each reference is admitted; a row that exists must agree and is promoted to startup |
| `HostJournal.Journal.AcquireLease` | src/ordivon_host/journal/sqlite.py:1343-1382 | Result and database of an acquisition; invariant kept |
| `HostJournal.Journal.ReleaseLease` | src/ordivon_host/journal/sqlite.py:1384-1391 | Result and database of a release; invariant kept |
| `HostJournal.Journal.AppendBoardMessage` | src/ordivon_host/journal/sqlite.py:431-511 | Result and database of a post; invariant kept; a refused post changes nothing |
| `HostJournal.Journal.AppendNewsPublication` | src/ordivon_host/journal/sqlite.py:685-788 | Result and database of a publication; invariant kept; a refused publication changes nothing |
| `JournalInvariants.AppendKeepsInv` | src/ordivon_host/journal/sqlite.py:218-429 | Every task append keeps the whole invariant: unique identities, gapless revisions, causes that point back, exact payload edges, admitted digests, extension pointers that match their event |
| `JournalInvariants.AcquireKeepsInv` | src/ordivon_host/journal/sqlite.py:1343-1382 | Acquiring keeps the whole invariant |
| `JournalInvariants.ReleaseKeepsInv` | src/ordivon_host/journal/sqlite.py:1384-1391 | Releasing keeps the whole invariant |
| `JournalInvariants.BoardKeepsInv` | src/ordivon_host/journal/sqlite.py:431-511 | Posting keeps the whole invariant, including that replies answer earlier messages |
| `JournalInvariants.NewsKeepsInv` | src/ordivon_host/journal/sqlite.py:685-788 | Publishing keeps the whole invariant, including contiguous edition revisions |
| `JournalInvariants.CreatedMeansAppended` | src/ordivon_host/journal/sqlite.py:311-428 | An append that reports Created passed every fence and wrote exactly one event with its edges, projection, pointer, objects and lease deletion |
| `JournalInvariants.NotCreatedMeansKept` | src/ordivon_host/journal/sqlite.py:261-309 | Any other append leaves the database alone, or only consumes the caller's own lease; one that raises changes nothing |
| `JournalInvariants.AdmitAllSpec` | src/ordivon_host/journal/sqlite.py:1525-1561 | After an admission the admitted objects are startup rows of the given kind and length, and every other row stands |
| `JournalInvariants.EdgeKeys` | src/ordivon_host/journal/sqlite.py:1511-1523 | An event's edges name its payload and its references and nothing else |
| `Answers.ExistingExactly` | src/ordivon_host/journal/sqlite.py:261-309 | A request whose identity is known is answered as existing if and only if the row holds this event in stream, kind, payload, time and cause, the edges are exactly the payload and the references in their roles, the pointer is the one this event set, and the lease is live; any other content is a conflict, and a refusal changes nothing |
| `Answers.ExistingIsRecorded` | src/ordivon_host/journal/sqlite.py:261-309 | Nothing is answered as existing whose event and objects are not recorded just so |
| `Answers.CreatedExactly` | src/ordivon_host/journal/sqlite.py:240-345 | A new identity is admitted if and only if the request is well formed and names the current revision of a task that has not ended, under a live lease, with a recorded cause, consistent objects and a time not before the task's own; the first of revision, end, lease and cause to fail gives the error |
| `Answers.CreatedWrites` | src/ordivon_host/journal/sqlite.py:342-428 | What an admitted event writes, table by table: one row, its edges, the projection, the stream with its first time kept, the pointer, the objects with their first sight kept, and the lease gone; nothing else |
| `Answers.AcquiredExactly` | src/ordivon_host/journal/sqlite.py:1343-1382 | An acquisition fails only on bad arguments, an unknown task or another owner's row that has not expired; it takes the next revision of the row and the whole time to live |
| `Answers.PostedExactly` | src/ordivon_host/journal/sqlite.py:431-511 | A post is a repetition if and only if every column its sender chose is the same; a new one is appended if and only if what it answers is there and its object agrees with what is known |
| `Answers.PublishedExactly` | src/ordivon_host/journal/sqlite.py:685-788 | A publication is a repetition if and only if every column its publisher chose is the same; a new one is recorded if and only if it continues its edition, and then both tables move together |
| `Validators.InvariantOpensCleanly` | src/ordivon_host/journal/sqlite.py:1393-1508 | The inductive invariant implies every query that `validate_invariants`, `validate_board_invariants` and `validate_news_invariants` make, so opening reports no corruption |
| `Validators.CountIsLogLength` | src/ordivon_host/journal/sqlite.py:1393-1440 | The number of rows the history query counts for a stream is the length of its history |
| `Storage.StepKeeps` | src/ordivon_host/storage.py:302-342 | Every action of a Host writer on the journal and the object store keeps the joint invariant: stored bytes behind every row, payloads that match rows, sequential histories, startup timing |
| `Storage.RunKeeps` | src/ordivon_host/storage.py:302-342 | For every sequence of actions by any writers the joint invariant holds; stalls and crashes are sequences that stop |
| `Storage.TimingAfterAdmission` | src/ordivon_host/journal/sqlite.py:1525-1561 | Admitting an event keeps "startup if and only if some event names it" |
| `Storage.AppendedHistory` | src/ordivon_host/journal/sqlite.py:342-428 | A disciplined append keeps each history sequential and the materialised projection equal to the head payload's |
| `Evolution.RunEvolves` | src/ordivon_host/journal/sqlite.py:218-511 | Over any run nothing recorded is lost or rewritten: events, board, publications, edges and object metadata only grow, and each task only moves forward |
| `Evolution.SequentialOrder` | src/ordivon_host/kernel.py:240-264 | At any two positions of a history: the same task and goal, growing revisions, strictly growing times, and no terminal state before the last |
| `Evolution.HistoriesAreSequential` | src/ordivon_host/kernel.py:240-264 | In every run each event's projection can be produced by `next_projection` from the one just before it, revisions are 1, 2, ... without a gap, times strictly grow, identities are constant, and a terminal state is last |
| `Evolution.OneCommitPerRevision` | src/ordivon_host/journal/sqlite.py:311-319 | No two transitions commit at one expected revision of a task, whatever leases they hold |
| `Reachable.JournalledIsStored` | src/ordivon_host/journal/sqlite.py:1511-1561 | In every reachable store each digest that any table holds has its bytes in the object store, with the recorded kind and length, and is validated at startup if and only if some event names it |
| `Reachable.OnlyPutsStore` | src/ordivon_host/storage.py:302-342 | Bytes in the object store were put by some writer, so what a crash leaves behind is orphans only |
| `Reachable.MetadataNeverChanges` | src/ordivon_host/journal/sqlite.py:1525-1561 | Along every run the kind, length and first-seen time of a digest never change, its row is never dropped, and startup timing is never taken back |
| `Reachable.ReopeningPasses` | src/ordivon_host/storage.py:200-222 | Reopening a reachable store passes every startup query, and each task's projection is the one its head event rebuilds |
| `Reachable.CausesFormNoCycle` | src/ordivon_host/journal/sqlite.py:336-340 | Following `caused_by` any number of times leads to a strictly smaller sequence, so no event causes itself |
| `Reachable.RepliesFormNoCycle` | src/ordivon_host/journal/sqlite.py:470-480 | Following replies leads to strictly smaller sequences |
| `Snapshots.EventsReadBack` | src/ordivon_host/storage.py:257-297 | In a healthy store every event reads back under its own stream and revision |
| `Snapshots.SnapshotStable` | src/ordivon_host/storage.py:224-228 | What was read at a revision is read there for ever |
| `Snapshots.EventsUpToHead` | src/ordivon_host/journal/sqlite.py:1179-1189 | A task has an event at a revision exactly when the revision is between 1 and its current one |
| `Snapshots.HeadSnapshot` | src/ordivon_host/storage.py:215-222 | The head event carries the current projection |
| `Workers.ExecuteKeeps` | src/ordivon_host/kernel.py:200-270 | In every interleaving of any number of workers (acquire, the three reads, prepare, commit, leave, stall, crash, expiry) what each worker knows stays true and the store invariant holds |
| `Workers.WorkersRefineRuns` | src/ordivon_host/kernel.py:73-107 | Every such interleaving is a run of disciplined actions, so all theorems about runs hold of it |
| `Workers.PreparedIsDisciplined` | src/ordivon_host/kernel.py:73-107 | What a worker commits after its drift check succeeds the projection stored at the revision it expects |
| `LeaseFence.OneTokenValidates` | src/ordivon_host/journal/sqlite.py:905-924 | At most one token of a task can validate |
| `LeaseFence.ForeignRowsKept` | src/ordivon_host/journal/sqlite.py:1343-1391 | No action on behalf of one owner changes or removes another owner's unexpired lease row |
| `LeaseFence.TakeoverSupersedes` | src/ordivon_host/journal/sqlite.py:1343-1382 | A takeover by a different owner supersedes the old token |
| `LeaseFence.SupersededForever` | src/ordivon_host/journal/sqlite.py:1343-1391 | With a clock that does not go back, a superseded token stays superseded, although lease revisions restart at 1 |
| `LeaseFence.SupersededNeverCommits` | src/ordivon_host/journal/sqlite.py:905-932 | A superseded token never commits a task event again |
| `LeaseFence.CommitConsumes` | src/ordivon_host/journal/sqlite.py:926-932 | A worker's accepted commit was made under a valid lease and deletes its row |
| `LeaseFence.ExitLeavesNoRow` | src/ordivon_host/kernel.py:200-238 | A worker that leaves without crashing never leaves its own exact lease row behind |
| `LeaseFence.ReleaseForgetsExpiry` | src/ordivon_host/journal/sqlite.py:1384-1391 | A concrete run in which an owner's earlier token, equal in owner and revision but not in expiry, releases its later lease: the release looks at owner and revision only |
| `LeaseFence.ReleaseTakesAnotherIff` | src/ordivon_host/journal/sqlite.py:1384-1391 | In every database a release removes a row other than its own if and only if the row has the same owner and revision and another expiry; whatever it does, it removes that row or nothing |
| `LeaseFence.TokensMatchTheirOwnRow` | src/ordivon_host/kernel.py:200-238 | When every worker uses its own owner name, in every interleaving a busy worker's token matches a row if and only if that is the very row it was issued for, so its release can remove no other |
| `LeaseRuns.SharedNameReleasesForeignRow` | src/ordivon_host/kernel.py:200-238 | Without that condition the claim fails: a run of two workers that share a name, in which one leaves with a stale token and deletes the unexpired lease the other holds |
| `LeaseFence.UnexpiredLeasesExclude` | src/ordivon_host/kernel.py:200-238 | When every worker uses its own owner name, no two workers hold unexpired leases of one task at once |
| `HostStorage.Host.Yield` | src/ordivon_host/storage.py:52-94 | Between any two steps of a caller any schedule of other writers may act; the store only evolves |
| `HostStorage.Host.RecordTaskEvent` | src/ordivon_host/storage.py:302-342 | Two actions, the payload object and then the append, with the journal's own answer on the store met at the append |
| `HostStorage.Host.ReadTaskEvent` | src/ordivon_host/storage.py:215-222 | The event read was the head of the task at some moment of the call |
| `HostStorage.Host.GetTask` | src/ordivon_host/journal/sqlite.py:934-958 | The projection read is the one recorded at its own revision |
| `HostKernel.Kernel.CreateTask` | src/ordivon_host/kernel.py:128-160 | One record at revision 1 that carries every argument, the active node and the cause among them, answered as the journal answers; a bad argument writes nothing; undisturbed, a well-formed first revision of a new task is admitted |
| `HostKernel.Kernel.CurrentSnapshot` | src/ordivon_host/kernel.py:162-197 | A snapshot that is returned has the revision, the state and the frontier that were given; undisturbed, a missing task or the first of revision, state and frontier that differs gives the error, and otherwise the current projection is returned |
| `HostKernel.Kernel.Lock` | src/ordivon_host/kernel.py:200-238 | A lock that is returned has the revision, state and frontier that were given; an error means that nothing was acquired, or that the last action was the release of the very lease acquired here; undisturbed, what refuses is the lease or the first expectation that differs |
| `HostKernel.Kernel.Commit` | src/ordivon_host/kernel.py:73-107 | At most one commit a lock; the record carries the identity, kind, data, cause, references and extension that were drafted, over the successor of the locked snapshot, fenced by its revision and lease |
| `HostKernel.Kernel.Exit` | src/ordivon_host/kernel.py:225-238 | An uncommitted exit releases the lease |
| `Admissions.AcceptedSnapshot` | src/ordivon_host/journal/sqlite.py:218-429 | An accepted record, new or replayed, is what every later reader finds at its revision |
| `Admissions.UnopposedAppendSucceeds` | src/ordivon_host/journal/sqlite.py:311-428 | An append that meets the current revision under a live lease with a fresh identity and no unknown cause is always admitted: no other check can refuse it |
| `Admissions.UnopposedFirstSucceeds` | src/ordivon_host/journal/sqlite.py:311-428 | The same for the first revision of a task, with or without a recorded cause |
| `Replays.RepetitionAnswered` | src/ordivon_host/journal/sqlite.py:261-309 | However much was appended since, the repetition of a committed record under a live lease is answered as existing if and only if its event still owns its namespace pointer (or has none), is refused as a conflict otherwise, and changes no table but the leases |
| `Replays.RecordWritten` | src/ordivon_host/storage.py:302-342 | What a recorded event leaves in the tables: its own identity, kind, cause and time, the digest of kind, data and projection, an edge to each reference and to nothing else, and its namespace's pointer |
| `Replays.NothingAfterTheEnd` | src/ordivon_host/journal/sqlite.py:311-340 | Whatever is asked, the journal by itself never extends a terminal task, never takes a revision other than the next, never repeats an event identity, never records an unknown cause, and transitions only under a live lease |
| `Descriptors.DescriptorRoundTrip` | src/ordivon_host/domain/descriptors.py:20-60 | A task descriptor reads back as itself |
| `Descriptors.DescriptorIsWritten` | src/ordivon_host/domain/descriptors.py:20-60 | A value is read as a descriptor exactly when it is the one the descriptor writes |
| `Descriptors.DescriptorExactly` | src/ordivon_host/storage.py:122-149 | A reader is given a descriptor exactly when it is stored under the one digest and is that of the other; none exactly when one of the two is missing |
| `Descriptors.GoalOfTask` | src/ordivon_host/kernel.py:256-264 | All events of a task name one goal |
| `Descriptors.ReadTaskDescriptor` | src/ordivon_host/storage.py:122-149 | The descriptor returned is the one named by an event that was the head at some moment of the call |
| `Checkpoints.CheckpointRoundTrip` | src/ordivon_host/continuity_models.py:98-206 | A working checkpoint reads back as itself exactly when it is within every limit, including its whole canonical size |
| `Checkpoints.LimitsExactly` | src/ordivon_host/continuity_models.py:98-134 | A checkpoint is valid exactly within its limits, in numbers: 64 texts a list, none twice, 4096 and 512 octets a text, 65536 for the whole |
| `Checkpoints.CheckpointExact` | src/ordivon_host/continuity_models.py:137-206 | Whatever value a checkpoint is read from is exactly the value it writes, and what is read is valid: reading loses nothing and adds nothing |
| `Checkpoints.DigestNamesCheckpoint` | src/ordivon_host/continuity_models.py:135-136 | Equal semantic digests mean equal checkpoints |
| `Checkpoints.RuntimeRoundTrip` | src/ordivon_host/continuity_models.py:46-94 | The same for the runtime part with its own limits |
| `ContinuityRecords.RecordDataReads` | src/ordivon_host/continuity.py:272-318 | The data a writer records is taken apart again into the same checkpoint, digests and writer |
| `ContinuityRecords.RecordExactly` | src/ordivon_host/continuity.py:272-318 | A record is read exactly from the four digests and at most a valid writer, with a stored checkpoint of this task and that digest; it tells that checkpoint at the event's own revision |
| `ContinuityRecords.CheckpointStable` | src/ordivon_host/continuity.py:252-264 | A checkpoint read at a revision is read there for ever |
| `ContinuityRecords.InitialCheckpointStable` | src/ordivon_host/continuity.py:266-270 | Once a task has an initial checkpoint it never has another |
| `Continuity.ExternalContinuity.RequireExternalTask` | src/ordivon_host/continuity.py:320-333 | Succeeds only with an event that names this workload's descriptor for this task and goal; undisturbed it succeeds exactly there |
| `Continuity.ExternalContinuity.CommitCheckpoint` | src/ordivon_host/continuity.py:158-200 | The locked body: what it commits is the request's own transition, and the descriptor is handed on |
| `Continuity.ExternalContinuity.Checkpoint` | src/ordivon_host/continuity.py:134-208 | A request appends at most its own transition at its expected revision, from a task ready at its continue node to the state and frontier of its disposition; an answer tells the record that stands at the next revision with the request's digest and target state; undisturbed, Existing is answered if and only if exactly this transition has committed, and bad arguments or a task that is not ready are refused, and then nothing is written |
| `IdentityRuns.IdentitiesDiffer` | src/ordivon_host/continuity.py:360-364 | Equal identities of continuity events are of one task, one stage and one revision |
| `IdentityRuns.NextIsUnused` | src/ordivon_host/continuity.py:158-185 | After every run of adoptions and checkpoints of any tasks, the identity of the next checkpoint of a task, and of the adoption of a new one, is unused |
| `CheckpointTool.PatchKeepsTheRest` | src/ordivon_host/mcp_server.py:1960-2017 | A patched checkpoint is valid, holds the patch's value in every field the patch names, the runtime part included, and the base's value in every field it does not name |
| `CheckpointTool.WantedStable` | src/ordivon_host/mcp_server.py:1960-2017 | What a call asks for, a patch included, never changes, because its base revision never changes |
| `CheckpointTool.WantedExactly` | src/ordivon_host/mcp_server.py:1960-2017 | A value with any mark of a whole checkpoint is one; any other is laid over the checkpoint of the expected revision and may name only the eight fields of the work |
| `CheckpointTool.CheckpointTask` | src/ordivon_host/mcp_server.py:1932-2017 | Success tells the record of the patched or full checkpoint; a patch may repeat a terminal transition but not make one; undisturbed calls are fully determined |
| `CheckpointTool.CheckpointTaskTwice` | src/ordivon_host/mcp_server.py:1932-2017 | After a lost response, however the first call was disturbed: if nothing is left of the schedule, the repeated call answers with the same record, as existing, and writes nothing |
| `Adoption.Adopt` | src/ordivon_host/continuity.py:48-132 | A successful adoption means that the initial checkpoint and the goal are the requested ones and that the view is coherent; undisturbed, fresh adoption reaches revision 2, an impossible one is refused, and repetition is accepted if and only if digest and goal agree, without a write |
| `Adoption.Converge` | src/ordivon_host/continuity.py:48-132 | The adoption without its closing read: which actions it may take, and the same equivalence |
| `Adoption.InitialStable` | src/ordivon_host/continuity.py:266-270 | The digest of the initial checkpoint of a task never changes |
| `AdoptionRuns.AdoptersConverge` | src/ordivon_host/continuity.py:48-132 | Any number of concurrent, stalling or crashing adopters of a task nobody else writes leave at most two events, both carrying the same seed checkpoint |
| `AdoptionRuns.SuccessfulAdoptionsAgree` | src/ordivon_host/continuity.py:112-132 | Two adoptions of one task that both succeed asked for the same goal and the same initial digest, whatever was checkpointed in between |
| `Handoff.OperatorHandoff` | src/ordivon_host/handoff.py:62-145 | The capsule is that of one event, with the descriptor named by that or a later event, at the expected revision if one was given: an effect must not be repeated exactly after one of the five events that saw it happen, each digest and identity is the string the data holds under its name, and what may be done next is the first situation that applies |
| `HandoffRuns.ContinuityHandoff` | src/ordivon_host/handoff.py:62-145 | In every interleaved run of adoptions and checkpoints, whichever events the capsule and its descriptor are read from, it asks for continued external work exactly while the task is not terminal and for nothing afterwards, forbids no repetition, names the task's own descriptor, and a finished task is told only at its last event |
| `Resumption.Resume` | src/ordivon_host/continuity.py:219-242 | Projection, handoff event, checkpoint and namespaces all belong to one revision, under every interleaving of the separate reads with commits; undisturbed it succeeds |
| `Resumption.CheckpointOfSameRevision` | src/ordivon_host/continuity.py:252-264 | A checkpoint that is shown belongs to the projection's own revision and task |
| `Resumption.CheckpointShownIff` | src/ordivon_host/continuity.py:252-264 | A coherent view shows a checkpoint if and only if the event of its revision bears one: a checkpoint event, or a creation that holds both digests; an extension event bears none |
| `ExtensionReads.TaskExtensionNamespaces` | src/ordivon_host/journal/sqlite.py:1251-1307 | Exactly the namespaces with an extension event at or before the revision that also had a pointer when pointers were read |
| `ExtensionReads.NamespacesExactly` | src/ordivon_host/journal/sqlite.py:1251-1307 | A namespace counts at a revision exactly when the event table holds an extension event of it at or before that revision |
| `ExtensionRuns.ReportedNamespacesExact` | src/ordivon_host/journal/sqlite.py:1251-1307 | When extension events come from `append_preserving`, the namespaces reported for a revision are exactly those with an event at or before it, and the report never changes as the task advances |
| `ExtensionRuns.ReportCompleteIff` | src/ordivon_host/journal/sqlite.py:1251-1307 | In any run at all, the report for a revision names every namespace with an extension event by then if and only if for each of these some admitted event carried the namespace's state |
| `Extensions.LoadNamespaceSnapshot` | src/ordivon_host/extensions.py:71-141 | Whatever commits between its reads, data and owner metadata are exactly the namespace's state at the returned revision; at most three attempts, and it gives up only on a task that moved at least three times |
| `Extensions.TryNamespaceSnapshot` | src/ordivon_host/extensions.py:82-141 | One attempt: a coherent state, or a retry that implies the task moved |
| `Extensions.AppendPreserving` | src/ordivon_host/extensions.py:159-225 | The stored state is the namespace's state read before the lock without the removed fields and with the updates; the event holds that state over the data of the head read before the lock, less the removed fields, and nothing else, with an edge to every reference; both were read at the expected revision if that is not ahead of the task at the start; state and frontier were the ones asked for; a created append merges the state met if and only if read and met agree outside the named fields; what is returned is told and after the commit; undisturbed it succeeds |
| `Extensions.ExternalStays` | src/ordivon_host/extensions.py:196-200 | External work stays external across an append whose stored state holds neither descriptor field and which removes neither |
| `Extensions.OthersUnchanged` | src/ordivon_host/journal/sqlite.py:410-426 | Every other namespace's pointer, the task's state and its frontier are unchanged |
| `Extensions.SameMergeIff` | src/ordivon_host/extensions.py:196-208 | Two base states give the same result if and only if they agree outside the removed and updated fields: exactly when a stale read would be harmless |
| `Extensions.CurrentMergeIff` | src/ordivon_host/extensions.py:159-225 | A commit built on a state read before the lock is right for the state it met if and only if the two agree on every field the call does not name |
| `StaleMerge.StaleMergeCommits` | src/ordivon_host/extensions.py:159-225 | A run in which they do not: the call reads at revision 1 with 2 expected, another writer stores a field at revision 2, the commit is created, and that field is lost |
| `Extensions.Dedupe` | src/ordivon_host/extensions.py:229-238 | Succeeds if and only if equal digests carry equal metadata, and keeps each object once |
| `BoardPages.SelectedExact` | src/ordivon_host/journal/sqlite.py:524-596 | The selection of a window holds exactly the matching sequences, in ascending order |
| `BoardPages.SelectedSplit` | src/ordivon_host/journal/sqlite.py:524-596 | Windows laid end to end select what the whole window selects |
| `BoardPages.SelectedStable` | src/ordivon_host/journal/sqlite.py:524-596 | Later appends do not change what a window selects |
| `Board.ListUnfiltered` | src/ordivon_host/board.py:139-165 | Without a filter: the page is exactly the messages between the cursors, and `hasMore` false means nothing through `lastSequence` is left |
| `Board.ListFiltered` | src/ordivon_host/board.py:166-225 | With a filter and a frozen high-water mark: the same, with the moments of both readings of the board named |
| `Board.ListMessages` | src/ordivon_host/board.py:139-225 | Both branches: an exact page that is short only if nothing that stood at the start is left behind its next cursor, and a message count that equals `lastSequence` if and only if a topic is given or nothing was posted between the reading of the mark and the reading of the count; invalid arguments are refused |
| `Board.CountCanExceed` | src/ordivon_host/board.py:204-214 | A run, with a reply filter and no topic, in which a post between the two readings makes the count larger than the last sequence of a page that is otherwise exact |
| `Board.Poll` | src/ordivon_host/board.py:166-201 | Feeding each cursor into the next call while appends happen anywhere, from any start, also one beyond the end, the pages together are exactly the matching messages between start and last cursor, once each and in order |
| `Board.PostMessage` | src/ordivon_host/board.py:66-137 | At most one post, as the last action; an identical repetition is answered without a write, a different one is refused, as is a message out of its limits or one that answers nothing; a fresh one is admitted |
| `Board.ReadExactly` | src/ordivon_host/board.py:290-330 | A text is read exactly when the row's object is known, stored, and is the message the row describes with that text |
| `Board.DigestNamesMessage` | src/ordivon_host/board.py:66-137 | The digest of a stored message is that of one message only: its identity, author, kind, topic, text and what it answers |
| `Board.ValidateIntegrity` | src/ordivon_host/board.py:227-257 | Every message present at the start is read, and the count lies between the board's length at the start and at the end |
| `Keyset.OrderedUnique` | src/ordivon_host/journal/sqlite.py:850-889 | A key set has one ascending listing |
| `Keyset.AfterIsRest` | src/ordivon_host/journal/sqlite.py:850-889 | The keys after the n-th listed key, listed, are the rest of the listing |
| `Keyset.PagesWalkTheOrder` | src/ordivon_host/journal/sqlite.py:850-889 | Pages fetched by keyset cursor, one row too many each time, laid end to end are the whole order |
| `News.ListEditions` | src/ordivon_host/news.py:180-222 | The first `limit` editions after the cursor, the later date first and within one date the smaller identity, and whether there are more; refused exactly for a bad limit or range |
| `News.KeysExactly` | src/ordivon_host/journal/sqlite.py:850-889 | What a page is cut from: the editions under their own dates, within the range, after the cursor |
| `News.FollowEditions` | src/ordivon_host/news.py:180-222 | Following cursors while editions are published: ascending, each once, nothing present at the start missed; undisturbed exactly the whole order |
| `News.PublishEdition` | src/ordivon_host/news.py:83-115 | A success tells a publication that stands; repetition is answered as existing, a different edition under the same client identity is a conflict; undisturbed, a new client identity is created if and only if it names the current revision, date and time zone, and a wrong revision is refused without a write |
| `TaskList.ScanRows` | src/ordivon_host/mcp_server.py:1778-1872 | One batch: items told are matching tasks read at some moment, in order, and rows passed over did not match |
| `TaskList.ListTasks` | src/ordivon_host/mcp_server.py:1710-1872 | The scan by batches of 256 terminates and tells a page in the order of later creation and smaller identity: each item is a revision of an external task of the goal, state and workspace asked for, and a task that matches throughout and lies in the page's span is in it |
| `TaskList.MatchesExactly` | src/ordivon_host/mcp_server.py:1740-1800 | Which tasks belong to a list, said of the tables alone: goal, end, a descriptor among the references of the first event, an external head, workspace |
| `TaskWalk.QuietPageIsFilter` | src/ordivon_host/mcp_server.py:1740-1872 | In an unmoving store the page is the first `limit` tasks of the simple filter, and `more` is exact |
| `TaskWalk.ListPage` | src/ordivon_host/mcp_server.py:1710-1872 | One call: the cursor text is parsed or refused, the page agrees with the filter after that position, and the next cursor is the text of the last task shown |
| `TaskWalk.FollowCursors` | src/ordivon_host/mcp_server.py:1710-1872 | Following cursor texts under concurrent checkpoints, each task that matches throughout appears exactly once; undisturbed the walk is the whole filtered order, and, where every task reads, it fails if and only if it comes to a task whose cursor text is too long |
| `TaskStays.StaysListed` | src/ordivon_host/mcp_server.py:1740-1872 | A task matches throughout if it matches at the start and each of its later revisions belongs to the list, whatever else happens |
| `TaskStays.CheckpointStaysListed` | src/ordivon_host/continuity.py:158-200 | A continuing checkpoint of the same goal and workspace keeps its task on the list in every store on the way |
| `TaskCursor.CursorRoundTrip` | src/ordivon_host/mcp_server.py:1211-1293 | A cursor parses back to its position for its own query if and only if it has at most 2048 characters and the query is the same |
| `TaskCursor.CursorFitsIff` | src/ordivon_host/mcp_server.py:1211-1246 | A cursor that is written is within the 2048 characters that are accepted if and only if its JSON text has at most 1536 |
| `TaskCursor.OverlongCursor` | src/ordivon_host/mcp_server.py:1211-1246 | With a goal filter of more than 1536 characters every cursor that is written is refused |
| `TaskCursor.PositionExactly` | src/ordivon_host/mcp_server.py:1252-1293 | The fields of version 2 are accepted for their own query, and those of version 1, which knows no workspace, for a query without one |
| `TaskCursor.ObjectReads` | src/ordivon_host/mcp_server.py:1211-1293 | The canonical object text reads back as its members |
| `Base64.RoundTrip` | src/ordivon_host/mcp_server.py:1211-1293 | The unpadded URL-safe encoding of section 5 of RFC 4648 decodes back to the octets |
| `CacheValidation.Validator.ValidateReferences` | src/ordivon_host/storage.py:151-213 | If an identity fixes the bytes, cached validation accepts exactly when hashing every selected reference would and every task head rebuilds, over any history of changes and validations; it counts every selected reference, and as hashed exactly those whose file is not the one the cache vouches for; each verified identity is recorded even if a head then differs |
| `CacheValidation.Validator.CheckReference` | src/ordivon_host/storage.py:168-193 | One reference: accepted if and only if its bytes hash to its row, whether or not the cache answers |
| `CacheValidation.HashesExactly` | src/ordivon_host/objects/store.py:157-197 | A reference hashes exactly when its file has the row's length and its bytes decode to an envelope of the row's kind whose canonical digest is the row's address |
| `CacheValidation.Validator.RecordPending` | src/ordivon_host/journal/sqlite.py:1070-1090 | Recording in chunks of 2000 rows is recording all of them |
| `History.ValidateHistory` | src/ordivon_host/ops/history.py:70-161 | The checker's loop succeeds if and only if every event is acceptable by itself against what the events up to it admitted, and its four counts are the totals |
| `History.ReferencesExactly` | src/ordivon_host/ops/history.py:164-186 | The references the checker collects are exactly those that some field names at some depth of objects and lists |
| `History.UnadmittedIsRefused` | src/ordivon_host/ops/history.py:144-155 | An event whose data mentions at any depth an object that no event up to it had admitted makes the checker refuse the history |
| `History.LinksExactly` | src/ordivon_host/ops/history.py:203-286 | Data that bears a checkpoint passes exactly with the four digests and at most a valid writer, a stored checkpoint of this task and that digest, and a stored descriptor of that digest, this task and goal, and external work |
| `History.ForeignIsRefused` | src/ordivon_host/ops/history.py:262-286 | A checkpoint whose descriptor is of another task, goal or workload makes the checker refuse the history |
| `History.CheckerAgreesIff` | src/ordivon_host/ops/history.py:199-207 | The checker and the reader agree on whether an event bears a checkpoint if and only if it is not a creation with exactly one of the two digests |
| `History.OneDigestDivides` | src/ordivon_host/ops/history.py:203-250 | At a creation that holds only one of them the reader finds no checkpoint and the checker refuses the history |
| `HistoryRuns.RecordReferences` | src/ordivon_host/ops/history.py:164-186 | Searched at any depth, continuity data names exactly two stored objects |
| `HistoryRuns.FieldTaken` | src/ordivon_host/ops/history.py:164-186 | Removing one field removes exactly what that field names, whatever the order of the fields |
| `HistoryRuns.RecordLinks` | src/ordivon_host/ops/history.py:203-286 | Continuity data passes the checkpoint branch with two checked links |
| `HistoryRuns.AdoptersAct` | src/ordivon_host/continuity.py:62-110 | Every action that the contract of `Adopt` allows is an action of such a run |
| `HistoryRuns.CheckpointsAct` | src/ordivon_host/continuity.py:158-200 | Every action that the contract of `Checkpoint` allows is an action of such a run |
| `HistoryRuns.HistoricalRead` | src/ordivon_host/ops/history.py:92-143 | A healthy row is read by the checker as it is read by the Host, with exactly its payload edge |
| `HistoryRuns.RunNamed` | src/ordivon_host/continuity.py:62-198 | Along every interleaving of adoptions and checkpoints each event carries a checkpoint admitted with it and the descriptor admitted by its task's creation |
| `HistoryRuns.OfflineAcceptsOnline` | src/ordivon_host/ops/history.py:70-161 | For every interleaved run of adoptions and checkpoints over any tasks, which by `AdoptersAct` and `CheckpointsAct` is what those methods do, the checker accepts, counting each event, each stream, and two references and two links for each event |
| `Migrations.ValidatedStartExact` | src/ordivon_host/journal/migrations.py:662-689 | The history validator returns a start if and only if the history is empty (version 8) or is exactly the steps from that start to 8, once each and in order |
| `Migrations.CurrentExactly` | src/ordivon_host/journal/migrations.py:662-762 | A database is taken as current exactly with both metadata values, a history that is empty or complete from some start, and every table and index except the removed ones |
| `Migrations.StepAdvances` | src/ordivon_host/journal/migrations.py:211-476 | From a database at any version 1 to 7 that meets the migration preconditions, the step commits and leaves a database at the next version with its rows intact |
| `Migrations.StepLosesNothing` | src/ordivon_host/journal/migrations.py:211-476 | A step that commits starts at its own version, records itself, drops no row of a removed table and guesses no extension state, and rewrites nothing but the boundary of version 4 and the timing of version 7 |
| `Migrations.StepsExactly` | src/ordivon_host/journal/migrations.py:211-487 | A step commits if and only if it starts at its own version, nothing that it makes or records is there yet, and no row of a removed table and no extension event would be lost; otherwise it changes nothing |
| `Migrations.StaleRollsBack` | src/ordivon_host/journal/migrations.py:478-487 | A migrator that read an older version changes nothing |
| `Migrations.RowsThree` | src/ordivon_host/journal/migrations.py:278-321 | The boundary the v3 to v4 step records satisfies the journal's edge invariant |
| `Migrations.TimingAfterSeven` | src/ordivon_host/journal/migrations.py:399-430 | After the v6 to v7 step a digest is on-access exactly when it is a board message's and no event, edge, legacy row or extension pointer names it |
| `Migrations.RowsSix` | src/ordivon_host/journal/migrations.py:399-430 | The v6 to v7 step keeps the row invariants and leaves every digest that an event, an edge, a legacy row or an extension pointer names in the startup set |
| `Migrations.MigratedExactly` | src/ordivon_host/journal/migrations.py:122-179 | Under every schedule of crashes, reopenings and competing migrators, a database at version 8 has exactly the history from its start to 8, its start is recognised, and its rows satisfy the whole journal invariant and open cleanly |
| `Migrations.CrashCanStrand` | src/ordivon_host/journal/migrations.py:122-179 | From any start without the timing index, a crash between the last commit and the closing script is reachable and leaves a version 8 that is refused at every later opening |
| `Migrations.StrandedWithoutScript` | src/ordivon_host/journal/migrations.py:716-762 | Without that script no sequence of steps makes the index appear |
| `Migrations.SchemaConnection.InitializeSchema` | src/ordivon_host/journal/migrations.py:122-179 | The version loop ends for every schedule; success means a current schema; undisturbed it succeeds if and only if the version is still below 8 or the timing index is there |
| `Migrations.SchemaConnection.OpenDatabase` | src/ordivon_host/journal/migrations.py:122-179 | A file without any table becomes a current database at once, one with tables but no metadata is refused untouched, any other is brought up to date; success means a current schema |
| `Migrations.SchemaConnection.MigrateFrom` | src/ordivon_host/journal/migrations.py:211-476 | One step with other migrators acting before its transaction: success means that the version moved past the one that was read |
| `ContextCompiler.SelectionIsSound` | src/ordivon_host/cognition/context.py:329-359 | Every required block is selected, selected and omitted blocks partition the input, the selection fits the budget, and no omitted block would fit at its end; an error means a bad budget or required blocks that do not fit |
| `ContextCompiler.PriorityWins` | src/ordivon_host/cognition/context.py:329-359 | The selection lists the required blocks by identity and then the others by higher priority, fewer tokens and smaller identity; every omitted block did not fit with the required blocks and the selected ones that come before it |
| `ContextCompiler.EnvelopeExactly` | src/ordivon_host/cognition/context.py:285-325 | A value is read as a context exactly when it is the envelope that the context writes and the context is of one piece: estimate and identities are those of its payload, no identity occurs twice, and the budget is kept |
| `ContextCompiler.SelectionIgnoresOrder` | src/ordivon_host/cognition/context.py:329-359 | Every permutation of the input blocks gives the same selection |
| `ContextCompiler.Compile` | src/ordivon_host/cognition/context.py:329-359 | The greedy loop computes that selection, its payload and its manifest |
| `ContextCompiler.ManifestRoundTrip` | src/ordivon_host/cognition/context.py:195-244 | A manifest reads back as itself exactly when it is valid |
| `ContextCompiler.CompiledRoundTrip` | src/ordivon_host/cognition/context.py:248-325 | The envelope of every compiled context decodes back to it |
| `JsonLength.ArrayAppend` | src/ordivon_host/cognition/context.py:57-58 | The canonical length of an array is the sum over its elements and separators |
| `CanonicalText.LengthIsOfText` | src/ordivon_host/cognition/context.py:57-58 | The length that budgets and limits are checked against is that of the canonical text, written octet by octet |
| `Preview.PreviewIsLongestPrefix` | src/ordivon_host/continuity_lens.py:221-225 | For every string and byte bound, cutting the UTF-8 octets and dropping an incomplete tail gives the longest code-point prefix that fits, and the flag says exactly whether something was dropped |
| `Preview.FittingIsLongest` | src/ordivon_host/mcp_server.py:1191-1196 | A prefix fits the bound if and only if it is no longer than the chosen one |

## Left out

- SQLite: transactions are atomic, single statements read one state, and sequence columns count
  rows without gaps; WAL, busy timeouts and pragmas are outside the model.
- The file system: modes, symbolic links, fsync, backups of migrations, `ops/backup.py`; a put is
  one insertion into a set of digests, or nothing.
- The MCP transport, authorisation, tool registration and error mapping; the command line,
  configuration and deployment inspection: plumbing over libraries that are not part of this model.
- `anc_canonical`, `anc_effect_ir`, `anc_effect_binding` and `ordivon_protocol` are not part of
  this model. Digests are injective; the Effect, Binding and Authority links of the history
  checker are a parameter, never reached by continuity data; schema validation of descriptor
  identities is not modelled.
- Identities: hash tokens of tasks inside event and node identities are modelled by the task's own
  identity, which keeps them distinct; length limits are modelled only for checkpoints, cursors and
  labels.
- Canonical JSON: escapes in string lengths, non-integer numbers, and Python's equality of `True`
  and `1` are not modelled. A JSON string that spells a digest is a separate kind of value and is
  used only as a digest.
- Goal streams, legacy extension rows and databases with an event boundary above 1 appear in the
  transactions, the validators and the migrations; the client layers start from a database born
  at version 8.
- History.ValidateHistory: the set of legacy digests is a parameter; the table exists only in
  migrated databases.
- Migrations.SchemaConnection.InitializeSchema: the SQL text of schema objects and the bytes of
  migration backups are left out; a file without any table is opened by `OpenDatabase`.
- Migrations.StepAdvances: the rows of the unowned tables are counted, not modelled.
- News.PublishEdition: takes a normalised edition; field validation and the text of news cursors
  are one-branch checks.
- Board.PostMessage: the trimming of fields is done by the caller; size limits of the message text
  are left out.
- ExtensionReads.TaskExtensionNamespaces: the sorted tuple of namespaces is a set here.
- Extensions.Dedupe: the result is stated as a set of objects; their order in the sorted list is not.
- Extensions.AppendPreserving: the order of the referenced objects inside the event is not modelled.
- Base64.RoundTrip: the decoder refuses characters outside the alphabet where the library skips
  them; no cursor the Host writes holds one.
- TaskCursor.CursorRoundTrip: cursors written by the Host; white space, nesting and text outside
  ASCII in hand-made cursor JSON are refused here.
- Descriptors.DescriptorRoundTrip: the schema check of the two descriptor identities belongs to a
  library that is not part of this model.
- CacheValidation.Validator.ValidateReferences: files change between validations, not during one;
  the decoder of cached identities (`storage.py:345-359`) is a field of the row.
- TaskList.ListTasks: the semantic summary and the previews shown with an item are left out; which
  tasks are listed, in which order, and what each item says of its task are not.
- The continuity lens apart from its preview, attention hints, repository resolver and scripts:
  they present what is modelled here and decide nothing about it.
- Handoff.OperatorHandoff: for tasks outside external continuity the next-admissible and
  must-not-repeat lists are stated for one read, not over whole runs.
