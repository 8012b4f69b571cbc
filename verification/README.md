# Verified model of DUMB's stateful core

DUMB runs a set of media services in one container. Most of its code starts processes, moves files and calls
services; a few parts carry state, protocols or arithmetic whose correctness matters to the data of its users.
This Dafny project models those parts and proves what they promise. `dafny verify dfyconfig.toml` checks all of it.

| files | part of the system |
|---|---|
| `MigrationModel`, `MigrationInvariant`, `MigrationTheorems`, `MigrationGuards`, `MigrationViews`, `MigrationRaces`, `MigrationCode`, `MigrationAdmission`, `MigrationReaches` | the guarded SQLite-to-PostgreSQL migration of InfiniDysk: job table, admission, rollback, crashes and restarts |
| `ImportModel`, `ImportMeaning`, `ImportBatches`, `ImportTarget` | the data path of that migration: conversion, batching, truncate-then-import, content digests |
| `StartupScheduler` | the dependency scheduler that starts services in a thread pool |
| `PortReservation` | the two-pass port allocator with Traefik's consecutive pair |
| `LayerModel`, `LayerOverlay`, `LayerMembers`, `LayerLinks` | applying OCI image layers (whiteouts, replacements, hard links) in place |
| `ConfigNormalization`, `ConfigIdentity`, `ConfigTokens`, `ConfigStart` | merging and pruning the configuration, the two names of the InfiniDysk service, and a whole start |
| `BroadcastModel`, `BroadcastInvariant`, `BroadcastTheorems` | ordered broadcasts to web-socket clients |
| `UpdateCoordinator`, `UpdateTiming`, `UpdateHealth` | coalesced update requests, outage accounting, the health wait, the check schedule |
| `ConnectionString` | the connection-string parser and the printer it undoes |
| `Strings`, `Wrappers` | splitting and joining strings; options, results and permutations |

## How to read the models

Protocols with concurrency (the migration, the broadcasts, the coalesced requests) are state machines: a state, an
action type, `Step` or `Next`, and `Run` over sequences of actions. An action is the code between two points at which
it can be interrupted; theorems are about every reachable state. Code that changes objects or local state step by step
is a class or a method with loops, proved against functions and predicates. Pure code is functions.

What the theorems over runs leave open about a single step of a migration job is said outright in the last part of
`MigrationAdmission`.

Calls into code that is not part of the model (SQLite and PostgreSQL, the file system, sockets, probes, clocks,
string folding, hashing) are parameters or nondeterministic choices that may succeed or fail.

### What the code needs for its promises

Where a promise does not hold of the code as it is, the model keeps the code and a theorem states exactly when it holds.

- **Migration, claims.** Two requests do not test `_active_processes` where they would have to. `_reserve_rollback`
  does not test it at all, so a job thread that has saved `completed` once can save it again after the rollback.
  `create_job` looks for active jobs before, and for the process only after, its slow preflight, so an automatic
  rollback that fails in between leaves a second claim. And `get_job` holds no lock between its read of a job that a
  restarted manager has left active and its save of `interrupted`, so that save may come after the rollback of the job
  and put its offer back beside a new job. Claims are unique in every run if and only if both requests wait and `get_job`
  saves no record that has changed since it was read (`ClaimsUniqueIffGuarded`).
- **Migration, offers.** A running rollback is still offered by its stored job, and an offer that was used or withdrawn
  does not come back, if and only if reservations wait and `get_job` saves no record that has changed
  (`RunningRollbackStillOffersIffGuarded`, `WithdrawnOffersStayIffGuarded`).
- **Migration, recovery.** A rollback that overlaps the thread of its job also breaks every guarantee about recovery:
  the service may run while its database is replaced, a failed rollback may keep its offer although the other thread has
  changed the provider, a later cutover may take a backup that is not the cold-stop database, and both kinds of
  rolled-back states may be recorded over other data. Each of these guarantees holds in every run if and only if
  reservations wait (the six `...IffRollbacksWait` lemmas), whatever `get_job` saves.
- **Migration, file.** Preflight looks at the provider in memory, which the exception handler resets before it restores
  the file. A later job can then be recorded as `failed_rolled_back` with PostgreSQL in the file: a cutover that fails
  before it touches the service, and a rehearsal whose import and whose own restore both fail, because a rehearsal counts
  as restored from its import on. It cannot if and only if reservations wait and preflight also looks at the file
  (`RecordedRollbackOnSqliteIffGuarded`).
- **Migration, unchanged code.** What needs no guard is proved of every run (`OffersAlwaysOk`,
  `RolledBackOnlyByOwnThread`). All the rest is proved of the runs of the unchanged code in which no request arrives
  while a thread is at work, no preflight while the file is on PostgreSQL, and no save of `get_job` after the record has
  changed, each as far as the promise needs it (`CodeRecoversWhenRollbacksWait`, `CodeKeepsOffers`,
  `CodeKeepsClaimsUnique`, `CodeRecordsSqliteWhenFileSeen`).
- **Import.** The content check accepts a table if and only if all rows on both sides have a hash and the digests agree
  (`ValidateDigest`). PostgreSQL may return a value in a form that the check normalises differently from what it was
  given, a fraction in an integer column for instance; then a correct import can be refused. Where it does not, the check
  refuses only for a source row without a hash (`AgreeingNeverRefused`), and it never accepts a table of which exactly
  one row has changed its hash (`OneChangedRowIsRefused`).
- **Layers.** A whiteout whose hidden name is `..` (a member named `.wh...`) passes the path checks, because only its
  parent is resolved. It removes what the parent of its directory holds, the staging root itself for a member directly
  below `app`, and then fails. That happens if and only if the hidden name is `..` and the directory is there
  (`EscapesIffDotDot`, `EscapeHalts`); `ApplyMembers` and `ApplyLayer` end that way exactly if they reach such a member.
- **Configuration.** A second start has nothing to rewrite, for every configuration, if and only if every default
  instance has a value for everything in its template, the first instance of its map
  (`SettlesIffDefaultsCoverTheirTemplates`). For such defaults, a second start leaves every file as it is, under either
  name of the service, if and only if the tokens of the defaults are canonical (`StartsRepeatIffDefaultsCanonical`).
- **Ports.** `_find_free_port` has no upper bound and `is_port_available` is false above 65535, so the search never ends
  if no port above the desired one is free. The model returns `SearchNeverEnds` exactly then.
- **Schedule.** A slot of the update schedule fires twice only if it fired in its own second and the schedule was
  changed in that second (`SlotFiresTwiceOnlyAfterChange`); then it does (`RescheduledSlotFiresTwice`).
- **Broadcasts.** Sends on one socket never overlap if and only if no socket is connected twice
  (`SendsNeverOverlapIffConnectedOnce`).
- **Connection strings.** Parsing undoes printing exactly for values without outer white space
  (`ParseUndoesPrintIffStripped`).

### Assumptions

- Migration: an action that holds the admission lock and `_lock` is one step from its reads to its save; nothing else can
  change in between what it reads. Saves, the marker and the replacement of the database file are atomic; nobody but the
  manager changes the provider; the admission lock is a mutex.
- Import: PostgreSQL returns for equal values in columns of equal type equal values (`stored`), and nobody else writes to
  the target tables.
- Ports: owner labels are distinct and not empty; availability does not change during a start.
- Layers: no entry passes through a symbolic link (the model reports `ThroughLink` where the code would).
- Broadcasts: tasks are not cancelled, and `_safe_send` lets no other exception escape.
- Clocks are nondecreasing.

## Model

| member | source | states |
|---|---|---|
| MigrationInvariant.StepKeepsBase | utils/arr_postgres_migration.py:3598-4735 | when reservations wait for the running thread, every action, with any failure, any crash and any stale save of `get_job`, keeps the invariant that ties offers, checkpoints, backups, providers, the points of the live threads and the records being viewed together |
| MigrationInvariant.StepKeeps | utils/arr_postgres_migration.py:3598-4735 | when creations wait too and `get_job` rechecks, every action also keeps the claims unique |
| MigrationRaces.ClaimsUniqueIffGuarded | utils/arr_postgres_migration.py:3411-3448 | for every combination of guards: at most one job holds a claim, in all reachable states, if and only if both requests wait for the running thread and `get_job` saves no record that has changed since it was read |
| MigrationGuards.ReserveMustWait | utils/arr_postgres_migration.py:4614-4732 | a run with two claims, if a rollback is reserved while the job's thread still has a save to make |
| MigrationGuards.CreateMustWait | utils/arr_postgres_migration.py:3616-3632 | a run with two claims, if a job is admitted while an automatic rollback is about to fail |
| MigrationGuards.PreflightMustReadSaved | utils/arr_postgres_migration.py:1223-1232 | a run in which a cutover that never touched the service is recorded `failed_rolled_back` with PostgreSQL in the file |
| MigrationGuards.RehearsalMustReadSaved | utils/arr_postgres_migration.py:4172-4470 | a run in which a rehearsal whose restore failed is recorded `failed_rolled_back` with PostgreSQL in the file |
| MigrationViews.ViewsMustRecheck | utils/arr_postgres_migration.py:3439-3447 | a run with two claims in which no request arrives while a thread is at work: a status request saves the record it read before the rollback of that job |
| MigrationViews.RecordOverwritten | utils/arr_postgres_migration.py:3439-3447 | a run in which that save overwrites the record of the rollback while it is under way |
| MigrationRaces.OffersBackedIffRollbacksWait | utils/arr_postgres_migration.py:4031-4052 | an offered rollback is a cutover whose cold backup is the database at the cold stop, in all reachable states, if and only if reservations wait |
| MigrationRaces.RollbackRestoresIffRollbacksWait | utils/arr_postgres_migration.py:4587-4598 | every step that records `rolled_back` leaves the cold-stop database (plus writes of a service it has restarted), SQLite in memory and on disk and no marker, if and only if reservations wait |
| MigrationRaces.AutomaticRollbackRestoresIffRollbacksWait | utils/arr_postgres_migration.py:4376-4470 | every step that records `failed_rolled_back` leaves SQLite in memory, the cold-stop database if there was a checkpoint, and SQLite in the file if the handler has saved it, if and only if reservations wait |
| MigrationRaces.RecordedRollbackOnSqliteIffGuarded | utils/arr_postgres_migration.py:1223-1232 | every step that records `failed_rolled_back` leaves SQLite in the file if and only if reservations wait and preflight looks at the file |
| MigrationRaces.RestartSeesColdStopIffRollbacksWait | utils/arr_postgres_migration.py:3843-3854 | whenever a rollback is about to restart the service, the database is exactly the cold-stop one, whatever failed or crashed before, if and only if reservations wait |
| MigrationRaces.FailedRollbackWithdrawsOfferIffRollbacksWait | utils/arr_postgres_migration.py:4561-4592 | a rollback that fails in process keeps its offer exactly if it had changed nothing, and then provider, marker and database are those it found, if and only if reservations wait |
| MigrationRaces.RunningRollbackStillOffersIffGuarded | utils/arr_postgres_migration.py:4728-4732 | a rollback that has not recorded its end is still offered by the stored job, in all reachable states, if and only if reservations wait and `get_job` saves no record that has changed |
| MigrationRaces.WithdrawnOffersStayIffGuarded | utils/arr_postgres_migration.py:4563-4592 | an offer that was used or withdrawn never comes back, in all runs, if and only if reservations wait and `get_job` saves no record that has changed |
| MigrationRaces.CrashRecoversIffRollbacksWait | utils/arr_postgres_migration.py:3439-3447 | a crash at any moment at which an active job offers its rollback, in the middle of a rollback too, leaves an interrupted job whose rollback is possible and reaches the cold-stop database, if and only if reservations wait |
| MigrationRaces.CompletionSwitchesIffRollbacksWait | utils/arr_postgres_migration.py:4282-4358 | every step that records a completed cutover leaves PostgreSQL in memory and in the file, the marker of that job, and an offered rollback with its checkpoint and backup, and every step that records a completed rehearsal leaves SQLite in memory and no offer, if and only if reservations wait |
| MigrationTheorems.RollbackReaches | utils/arr_postgres_migration.py:3760-3859 | a possible rollback, run without a further fault, ends `rolled_back` on the backup of its job with SQLite selected and no marker |
| MigrationReaches.RehearsalReaches | utils/arr_postgres_migration.py:3598-4300 | from rest, under every policy, a rehearsal without a fault completes and allows a cutover; the service, its database, the configuration, the marker and every other job are as before |
| MigrationReaches.CutoverReaches | utils/arr_postgres_migration.py:3598-4372 | after a rehearsal, and at rest, a cutover without a fault moves the service to PostgreSQL in memory, in the file and in what runs, under its own marker, and keeps the database of before for its rollback |
| MigrationReaches.RollbackUndoesCutover | utils/arr_postgres_migration.py:3598-4735 | rehearsal, cutover and rollback, one after the other, give back a service on SQLite with the very database of before |
| MigrationAdmission.CutoverNeedsRehearsal | utils/arr_postgres_migration.py:3692-3700 | in every run, under every policy: each stored cutover was committed by a request that held the admission since its own preflight, and that preflight found a stored completed rehearsal, the service running and SQLite selected |
| MigrationAdmission.AdmittedIffResolved | utils/arr_postgres_migration.py:3462-3482 | a creation, or a start of the service, passes its first test exactly if every stored job is over, said by its status, offer and manager |
| MigrationAdmission.ReservedIffOffered | utils/arr_postgres_migration.py:4624-4650 | a rollback is reserved exactly for a checkpointed, offered cutover with its backups that is not rolled back and is not active under the present manager |
| MigrationAdmission.AbandonedRequestGivesWay | utils/arr_postgres_migration.py:3616-3632 | a request that gives up frees the admission and changes nothing else, so the next creation is admitted as soon as all jobs are over |
| MigrationAdmission.FailureBeforeReplacingIsSafe | utils/arr_postgres_migration.py:3770-3860 | a rollback that fails before it has replaced anything counts as having changed nothing, and has not |
| MigrationCode.OffersAlwaysOk | utils/arr_postgres_migration.py:4728-4732 | in every run, with or without guards, an offered rollback belongs to a cutover with a checkpoint that is not rolled back |
| MigrationCode.RolledBackOnlyByOwnThread | utils/arr_postgres_migration.py:4455-4470 | in every run, with or without guards, only the job's own rollback thread records `rolled_back` and only the thread that ran it records `failed_rolled_back` |
| MigrationCode.RehearsalLeavesServiceAlone | utils/arr_postgres_migration.py:4376-4390 | in every run, with or without guards, no step of a rehearsal changes the service, its database, the provider in memory or the marker, and the file gets at most the provider in memory |
| MigrationCode.CodeRecoversWhenRollbacksWait | utils/arr_postgres_migration.py:4614-4732 | in the runs of the unchanged code in which no rollback is reserved while a thread is at work, every state is recoverable (backed offers, cold-stop restarts, withdrawn offers, crash recovery), both rolled-back states are recorded only over what they promise, and a completed cutover only over PostgreSQL under its marker |
| MigrationCode.CodeKeepsOffers | utils/arr_postgres_migration.py:4563-4732 | in those runs in which moreover no `get_job` call saves a record that has changed, a running rollback is still on offer and a used or withdrawn offer does not come back |
| MigrationCode.CodeKeepsClaimsUnique | utils/arr_postgres_migration.py:3598-3632 | in the runs of the unchanged code in which no request arrives while a thread is at work and no `get_job` call saves a record that has changed, at most one job holds a claim |
| MigrationCode.CodeRecordsSqliteWhenFileSeen | utils/arr_postgres_migration.py:1223-1232 | in the runs of the unchanged code in which no rollback is reserved while a thread is at work and no preflight meets PostgreSQL in the file, `failed_rolled_back` means SQLite in the file |
| ImportModel.ConvertIdempotent | utils/arr_postgres_migration.py:1727-1764 | converting a converted value changes nothing |
| ImportMeaning.ConvertMeans | utils/arr_postgres_migration.py:1727-1764 | conversion yields exactly the value that the source value means in a column of that type, and fails, with the error of the type, exactly if it means none; the meaning is said without the conversion |
| ImportMeaning.ConvertRowMeans | utils/arr_postgres_migration.py:1727-1764 | a row is converted exactly to the row of its meanings |
| ImportMeaning.NormalizeReads | utils/arr_postgres_migration.py:2084-2142 | the content check can read exactly the readable values of a column type |
| ImportMeaning.NormalizeTellsApart | utils/arr_postgres_migration.py:2084-2142 | it takes two readable values for equal exactly if they are the same number, truth value, bytes, UUID, time or text |
| ImportMeaning.DifferentIsNoticed | utils/arr_postgres_migration.py:2084-2142 | in particular different numbers, truth values and byte strings of one column never read alike |
| ImportMeaning.HashTellsApart | utils/arr_postgres_migration.py:2145-2173 | up to collisions, two rows have the same hash exactly if they hold the same values |
| ImportMeaning.SourceHash | utils/arr_postgres_migration.py:2145-2173 | a source row has the hash of the row that it means |
| ImportModel.NormalizeConverted | utils/arr_postgres_migration.py:2084-2142 | conversion does not change what the content check makes of a value |
| ImportModel.StoredHash | utils/arr_postgres_migration.py:2145-2173 | a source row and what the import made of it have the same hash, if PostgreSQL returns its converted values in a form that the check normalises like them |
| ImportModel.FoldPermutation | utils/arr_postgres_migration.py:2173-2182 | the count, xor and sum of a table do not depend on the order of its rows |
| ImportModel.FoldCounts | utils/arr_postgres_migration.py:2173-2182 | the digest has the number of rows and the sum of their hashes modulo 2^256 |
| ImportModel.DigestRows | utils/arr_postgres_migration.py:2145-2182 | the loop computes that digest, and fails exactly if a row has no hash, because a value cannot be normalised or the row not encoded, with the error of one |
| ImportBatches.ConvertedImportBatches | utils/arr_postgres_migration.py:2474-2525 | the batches are the converted rows in order, none empty, each within the bounds or a single row, and as few as any such split; before a conversion error they are a prefix |
| ImportBatches.BoundedBatches | utils/arr_postgres_migration.py:2502-2525 | with a byte limit, every batch but the last had no room for the row after it |
| ImportBatches.ChunkBatches | utils/arr_postgres_migration.py:2495-2500 | without a byte limit, the same for chunks of the batch size |
| ImportBatches.TightIsFewest | utils/arr_postgres_migration.py:2484-2488 | a split in which no batch has room for the next row has the fewest batches of all order-preserving splits within the bounds |
| ImportTarget.Target.Prepare | utils/arr_postgres_migration.py:1767-1817 | empties exactly the source tables, or changes nothing; it names a missing table exactly if a source table is missing from the target; an interruption may also come after the tables are durably empty |
| ImportTarget.Target.ImportTable | utils/arr_postgres_migration.py:2562-2617 | an emptied table receives exactly its converted rows, which are what its source rows mean, one commit a batch, or the import stops with an error of a row or dies |
| ImportTarget.Target.ValidateDigest | utils/arr_postgres_migration.py:2185-2230 | the content check of an imported table succeeds exactly if every row of source and target has a hash and the digests agree, whatever order the rows are returned in; otherwise its error says which of these failed |
| ImportTarget.AgreeingIsAccepted | utils/arr_postgres_migration.py:2185-2230 | if PostgreSQL agrees on the values of a table, the check accepts it exactly if every source row has a hash |
| ImportTarget.AgreeingNeverRefused | utils/arr_postgres_migration.py:2185-2230 | if PostgreSQL agrees on the values, validation refuses only for a source row without a hash, never for a mismatch |
| ImportTarget.OneChangedRowIsRefused | utils/arr_postgres_migration.py:2173-2230 | a table of which exactly one row has changed its hash is always refused |
| ImportTarget.ChangedValueIsRefused | utils/arr_postgres_migration.py:2185-2230 | up to collisions, a table in which exactly one value has come to read differently is always refused |
| ImportModel.FoldNoticesOne | utils/arr_postgres_migration.py:2173-2182 | the digest of equally many rows differs if exactly one hash differs |
| ImportTarget.Target.Import | utils/arr_postgres_migration.py:2528-2661 | from any contents that earlier attempts left, an import that returns leaves every source table equal, as a multiset, to what its rows mean, with agreeing digests, and touches no other table; it names a missing table exactly if there is one, and then changes nothing; otherwise its error is an interruption, an inconvertible row or a refused table |
| StartupScheduler.StartProcesses | main.py:884-933 | for any enabled set, dependencies and completion order: no key starts twice, and every start comes after the finish of each enabled dependency that the input names; the stall error is raised exactly if the enabled dependencies have a cycle, and names the greatest set of keys that wait for each other; otherwise all keys start and the failures are exactly the failed ones |
| StartupScheduler.SubmitReady | main.py:905-911 | every key whose enabled dependencies have all completed is submitted once, no such key is left, and the three key sets stay a partition |
| StartupScheduler.CollectDone | main.py:918-932 | finished keys move to completed and the failed ones to the failures |
| StartupScheduler.WaitingNeverStarts | main.py:904-911 | in no legal run does a key start that belongs to a set whose keys wait for each other |
| StartupScheduler.FindCycle | main.py:912-916 | a set of keys that each wait for another of the set contains a dependency cycle |
| StartupScheduler.CycleNeverStarts | main.py:904-905 | in no legal run does a key of a cycle ever start |
| PortReservation.PortAllocator.FindFreePort | main.py:63-67 | the least free port from the start on, or a search that never ends exactly if there is none |
| PortReservation.PortAllocator.ReservePort | main.py:70-100 | a port nobody else claims stays if it is available, else the owner gets the least free port above it; no other claim changes |
| PortReservation.PortAllocator.ReserveConfigPort | main.py:103-117 | the slot ends up with its reserved port, and a change is reported exactly if the slot changed |
| PortReservation.PortAllocator.ReserveTraefikPorts | main.py:120-162 | Traefik gets the least pair of consecutive free ports from its port on, or from the port of its address if it has no valid one, giving up only its own old claim, or an error exactly if there is none |
| PortReservation.PortAllocator.SeedUsedPorts | main.py:165-203 | the first slot of the configuration that names a port claims it, and nothing else is claimed |
| PortReservation.PortAllocator.ApplyGlobalPortReservations | main.py:206-263 | after both passes all valid ports are available and pairwise distinct, Traefik's pair included; first claimants of available ports keep them, others only move up; a save is asked for exactly if something changed, and a settled configuration does not change |
| PortReservation.PortAllocator.StartTwice | main.py:206-263 | a second start with the same availability changes nothing |
| PortReservation.ServingStep | main.py:215-260 | one reservation keeps every claim of the slots already served and of the first claimants still to come |
| PortReservation.ServingSettles | main.py:206-263 | when all slots are served their ports are distinct and available |
| LayerPaths.MappedIsInjective | utils/aiostreams_installer.py:80-87 | two image paths share a staging path only if one is the relocated allocator library |
| LayerPaths.WhiteoutHidesMappedPath | utils/aiostreams_installer.py:159-178 | the whiteout of a name other than `..` hides exactly where that path is mapped, and is skipped if it is mapped nowhere |
| LayerPaths.EscapesIffDotDot | utils/aiostreams_installer.py:159-178 | a member leaves its directory upwards exactly if it is a mapped whiteout whose hidden name is `..` |
| LayerLinks.EscapeHalts | utils/aiostreams_installer.py:159-178 | such a member stops the layer exactly if its directory is there, and by then what the parent of the directory holds is gone |
| LayerPaths.NormalizedIsClean | utils/aiostreams_installer.py:70-77 | an accepted member name has no empty, `.` or `..` part and no separator in a part |
| LayerPaths.NormalizeReadsPath | utils/aiostreams_installer.py:70-77 | a clean relative path, written with slashes, is read back part by part |
| LayerPaths.RefusedNames | utils/aiostreams_installer.py:70-77 | the empty name, absolute names and names with `..` are refused |
| LayerPaths.BackslashIsSlash | utils/aiostreams_installer.py:70-72 | a backslash reads as a slash |
| LayerPaths.DotSlashIsNothing | utils/aiostreams_installer.py:72-73 | a leading `./` changes nothing |
| LayerPaths.DotNumbersAre | utils/aiostreams_installer.py:24 | the allocator library is that name with any number of dotted numbers behind it |
| LayerMembers.EntryLands | utils/aiostreams_installer.py:198-250 | a member `app/...` that is no whiteout puts exactly its data, a directory or its link target at its path |
| LayerMembers.HardlinkLands | utils/aiostreams_installer.py:229-232 | a hard link waits at its path for the staging path of what it names |
| LayerMembers.OpaqueLands | utils/aiostreams_installer.py:159-178 | the opaque whiteout of a directory clears that directory |
| LayerMembers.WhiteoutLands | utils/aiostreams_installer.py:159-178 | a whiteout hides the entry whose name it holds |
| LayerMembers.DotWhiteoutLands | utils/aiostreams_installer.py:159-178 | a whiteout of no name or of a dot hides its own directory |
| LayerMembers.AllocatorLands | utils/aiostreams_installer.py:80-82 | the allocator library lands in `lib` |
| LayerMembers.ElsewhereIsSkipped | utils/aiostreams_installer.py:204-206 | every other path changes nothing |
| LayerMembers.AppliedIsNotRefused | utils/aiostreams_installer.py:198-240 | a layer that succeeds has no unsafe name, unsupported kind, outside link or application root that is no directory |
| LayerOverlay.ApplyWellFormed | utils/aiostreams_installer.py:198-250 | every entry keeps each parent a directory |
| LayerOverlay.ApplyKeepsOverlay | utils/aiostreams_installer.py:198-250 | one more entry takes the overlay of the entries before it to the overlay with it |
| LayerOverlay.ApplyAllIsOverlay | utils/aiostreams_installer.py:181-250 | for a layer whose whiteouts come before the entries they could affect, the in-place fold is the declarative overlay: at each path what the last entry of the layer leaves there, or else what the lower tree has unless a whiteout hides it |
| LayerOverlay.ApplyAllSucceedsIff | utils/aiostreams_installer.py:198-250 | the fold succeeds exactly if no entry is refused, escapes, or meets a file or link where the overlay so far needs a directory |
| LayerOverlay.OverlayUnique | utils/aiostreams_installer.py:181-250 | a layer has only one overlay |
| LayerLinks.LinkOrderIrrelevant | utils/aiostreams_installer.py:252-271 | two orders of the same pending links resolve alike and lead to the same tree |
| LayerLinks.Staging.LinkPass | utils/aiostreams_installer.py:254-266 | a pass creates every link whose target is a file by then; if it creates none, no pending target is a file |
| LayerLinks.Staging.CreateLinks | utils/aiostreams_installer.py:252-271 | the loop terminates, succeeds exactly if every link chain reaches a file, and then leaves each link with the file at the end of its chain |
| LayerLinks.Staging.ApplyMembers | utils/aiostreams_installer.py:198-250 | the loop over the members is the fold, counts the bytes it extracts within the limit and collects the hard links in order; it fails exactly if it reaches a member that stops it, with the error of that member and the tree that member leaves |
| LayerLinks.Staging.ApplyLayer | utils/aiostreams_installer.py:181-271 | a layer leaves its overlay with the links made, and succeeds exactly if its members do and every link resolves; for a layer of one member the tree is said outright by the shape of its name, and the size by its data; it ends in an escape, with the tree that is left then, exactly if it reaches an escaping whiteout whose directory is there |
| ConfigNormalization.SettlesIffDefaultsCoverTheirTemplates | utils/config_loader.py:350-364 | a second start changes nothing, for every configuration that loads, if and only if the default instances cover their templates |
| ConfigNormalization.MergeCovers | utils/config_loader.py:370-406 | merging with such defaults leaves a value for everything the defaults have one for |
| ConfigNormalization.PruneTwice | utils/config_loader.py:187-224 | pruning twice is pruning once |
| ConfigNormalization.PruneCovers | utils/config_loader.py:187-224 | pruning neither breaks nor creates coverage of the defaults |
| ConfigNormalization.StartKeepsUserValues | utils/config_loader.py:187-224 | a start keeps every instance, every `env` entry and every other value at a path the defaults know |
| ConfigNormalization.StartDropsUnknownValues | utils/config_loader.py:187-224 | a start leaves no value at a path the defaults do not know |
| ConfigNormalization.StartFillsDefaults | utils/config_loader.py:370-406 | a start gives a known path without a value the value of the defaults |
| ConfigIdentity.MapTokensTwice | utils/config_loader.py:77-118 | mapping the tokens to one name and then to another is mapping them to the other |
| Strings.SplitJoin | utils/config_loader.py:84-91 | splitting undoes joining for parts without commas |
| ConfigIdentity.CanonicalizedIsCanonical | utils/config_loader.py:120-123 | canonicalising is idempotent and removes the legacy name |
| ConfigTokens.ReadFromFile | utils/config_loader.py:77-123 | what is read from a file is what the file has, moved to the canonical service key: each string that names services keeps its parts in place but for the names of the service, which become the canonical one, and every other value stays |
| ConfigTokens.WrittenToLegacyFile | utils/config_loader.py:77-133 | the same for what is written in legacy form, with the legacy name |
| ConfigTokens.RuntimeNamesNoLegacy | utils/config_loader.py:77-123 | at run time no part of a string that names services, outside the top-level `zurg` block, folds to the legacy name |
| ConfigTokens.LegacyFileNamesNoCanonical | utils/config_loader.py:77-133 | in a file in legacy form none folds to the canonical name |
| ConfigIdentity.WriteThenRead | utils/config_loader.py:125-133 | writing a run-time configuration in either form and reading it back gives the same configuration |
| ConfigIdentity.RefusedIffBothNames | utils/config_loader.py:58-65 | a configuration is refused exactly if it has both service keys |
| ConfigIdentity.ZurgUntouched | utils/config_loader.py:80-82 | neither direction touches the top-level `zurg` block |
| ConfigStart.StartsRepeatIffDefaultsCanonical | utils/config_loader.py:232-364 | for defaults that cover themselves and name the service canonically: every start, from a file with either name of the service, is repeated by the next one, which writes nothing and runs with the same configuration, if and only if the tokens of the defaults are canonical as a first start writes them |
| ConfigStart.LoadedIsCanonical | utils/config_loader.py:242-346 | what a start runs with is canonical and normalised, names the service nowhere by its legacy name, and a legacy file nowhere by its canonical name; it has the service if the file names it |
| ConfigStart.NormalizedFixed | utils/config_loader.py:187-224 | completing and pruning canonical values gives canonical values, if pruning the defaults alone does |
| BroadcastInvariant.StepKeeps | api/connection_manager.py:15-101 | every step of connects, sends, broadcasts and disconnects keeps the invariant on locks, tasks and logs |
| BroadcastTheorems.SendsNeverOverlapIffConnectedOnce | api/connection_manager.py:27-37 | no two sends are inside one socket at once, in all runs, if and only if no socket is connected twice |
| BroadcastTheorems.LockTableMatchesConnections | api/connection_manager.py:15-25 | the lock table has exactly the connections |
| BroadcastTheorems.ConnectedIff | api/connection_manager.py:15-25 | a client is connected after a step exactly if it connects then, or was connected and does not disconnect |
| BroadcastTheorems.GoneStaysGone | api/connection_manager.py:15-48 | a disconnected client that does not reconnect is found by no later broadcast |
| BroadcastTheorems.ConnectedStaysConnected | api/connection_manager.py:15-48 | a client that does not disconnect is found by every later broadcast |
| BroadcastTheorems.BroadcastsArriveInOrder | api/connection_manager.py:39-48 | each client gets broadcasts in their global order, none twice, with their text, and only those that found it connected |
| BroadcastTheorems.ConnectedClientMissesNothing | api/connection_manager.py:39-48 | a client still connected between broadcasts has received exactly the broadcasts that found it connected |
| BroadcastTheorems.BroadcastCanEnd | api/connection_manager.py:39-48 | from every state of a broadcast the sends can all end by their own steps, so its lock is given back |
| UpdateCoordinator.OneUpdateAtATime | utils/auto_update.py:1404-1422 | at most one manual update runs, for any interleaving of callers |
| UpdateCoordinator.FollowerGetsLeadersAnswer | utils/auto_update.py:1424-1436 | a follower has its leader's signature; if its leader ended with a status it holds exactly that status, and otherwise the error answer |
| UpdateCoordinator.NoFollowerIsLeftWaiting | utils/auto_update.py:1438-1454 | a waiting follower can return exactly when no leader of its request is installing any more |
| UpdateCoordinator.OtherSignatureReturnsAtOnce | utils/auto_update.py:1413-1419 | a call is refused at once, naming the running service, exactly if an update of another signature is running |
| UpdateTiming.MetricsAreExact | utils/auto_update.py:228-243 | the reported downtime is the number of ticks at which the service was down, never more than the install took, and the status tells whether an outage happened and has ended |
| UpdateTiming.UpdateTimings.MarkDowntimeStarted | utils/auto_update.py:207-214 | adds one outage event to the history of its process, which begins an outage unless one is running; its start time and all other records stay, and all records stay exact |
| UpdateTiming.UpdateTimings.MarkServiceReady | utils/auto_update.py:216-225 | adds one ready event to the history of its process, which ends a running outage and adds its length; its start time and all other records stay, and all records stay exact |
| UpdateTiming.UpdateTimings.Finish | utils/auto_update.py:246-257 | removes exactly its record and reports the time since it began, the ticks at which the service was down, and whether there was an outage and is one still |
| UpdateHealth.WaitForUpdateHealth | utils/auto_update.py:4018-4055 | at any resolution of the clock: succeeds exactly if before the deadline an unbroken run of ready probes spans the stabilisation time with no failed probe until then; the number of rounds is bounded by the timeout, and each probe but a failed one is recorded as one outage event |
| UpdateHealth.CheckDecides | utils/auto_update.py:4039-4046 | the check against `ready_since` decides whether any unbroken run of ready probes is long enough |
| UpdateHealth.NextRunIsFirstSlot | utils/auto_update.py:2472-2486 | the next run is the first slot not before now, and less than an interval away once the start time has passed |
| UpdateHealth.NextCheckIsFirstSlot | utils/auto_update.py:2472-2491 | the next check is the least slot not before now, in steps of the configured interval or a minute, whichever is longer, from the configured start time on |
| UpdateHealth.Schedule.RunIfDue | utils/auto_update.py:2643-2656 | whatever start time and interval the configuration has by then: fires exactly if the stored or first slot is due, and then stores the first slot after now, in steps of the longer of a minute and the interval |
| UpdateHealth.Schedule.Reschedule | utils/auto_update.py:2119-2128 | replaces the stored slot by the first one of the new start time and interval, not before now |
| UpdateHealth.Schedule.Cancel | utils/auto_update.py:2086-2094 | drops the stored slot and nothing else |
| UpdateHealth.FiringsInOrder | utils/auto_update.py:2643-2656 | over any history of runs, reschedulings and cancellations: due times never decrease, and a slot is due after every earlier firing in whose second the schedule was not changed |
| UpdateHealth.SlotFiresTwiceOnlyAfterChange | utils/auto_update.py:2126-2128 | a slot fires twice only if it fired in its own second and the schedule was changed in that second |
| UpdateHealth.RescheduledSlotFiresTwice | utils/auto_update.py:2126-2128 | a rescheduling in that very second does make the slot fire twice |
| ConnectionString.ReadSegments | utils/database_health.py:1255-1277 | the index loop reads the segments that the quoting rules define |
| ConnectionString.ReadPrinted | utils/database_health.py:1255-1277 | reading printed fields gives one segment a field, with the quotes gone |
| ConnectionString.ParsePrinted | utils/database_health.py:1252-1302 | parsing a printed map gives the map with its values stripped, whatever quotes, semicolons and equals signs they contain |
| ConnectionString.ParseReadsNames | utils/database_health.py:1280-1302 | parsing printed fields gives each of the five settings the last value under any of its names, `Server`, `Data Source`, `Initial Catalog`, `User Id`, `Username` and `Pwd` included, and has no setting that no field names |
| ConnectionString.NoEqualsNoField | utils/database_health.py:1295-1299 | a segment without an equals sign sets nothing |
| ConnectionString.StripTakesSpace | utils/database_health.py:1297-1302 | stripping takes away white space at both ends and nothing else |
| ConnectionString.ParseUndoesPrintIffStripped | utils/database_health.py:1252-1302 | parsing undoes printing exactly for the maps whose values have no outer white space |

## Left out

- MigrationInvariant.StepKeepsBase: needs reservations that wait, because the code breaks it otherwise; the `...IffRollbacksWait` lemmas say so for each guarantee, and `CodeRecoversWhenRollbacksWait` what follows for the code.
- MigrationInvariant.StepKeeps: needs creations that wait and a `get_job` that rechecks as well (`CreateMustWait`, `ViewsMustRecheck`); `ClaimsUniqueIffGuarded` and `CodeKeepsClaimsUnique` say what follows for the code.
- The test for an active job and the start, restart or delayed auto-restart of the service in `utils/processes.py` are one step of the model; in the code a job may begin between the two.
- Cancellation of a task in the middle of a broadcast, and exceptions of `_safe_send` other than those it catches: `gather` would then give the broadcast lock back while sends are still running.
- Migration jobs of services other than InfiniDysk: their guards are looser and have many special cases.
- Schema and catalogue fingerprints, path and owner checks and health probes of the migration: they are choices that succeed or fail.
- Several saves in a row with the same content (progress events) are one save; progress messages are not modelled.
- `latest_job` picks the job with the newest timestamp; the model keeps the job saved last.
- MigrationAdmission.CutoverNeedsRehearsal: does not model that the rehearsal must be of the same installed version, schema and target database; the binding that says so is a choice that succeeds or fails.
- The staging databases and schema preparation of a migration: they change nothing the rollback depends on.
- Generated columns, sequences, primary-key digests and foreign-key checks of an import; `TRUNCATE ... CASCADE` into tables outside the source.
- SHA-256 and the JSON text of a row: the hash is a parameter, and nothing is claimed about rows whose hashes collide.
- NaN and infinite floating-point values, and rounding, in value conversion.
- The shutdown branches of the start scheduler, which cancel what is running.
- The host part of Traefik's entrypoint address: only its port matters here.
- Following symbolic links, file modes, ownership, and hard links as shared inodes (a link is a copy of its file).
- ImportTarget.Target.Import: does not model row counts taken while another client writes, because nobody else writes to the targets.
- PortReservation.PortAllocator.ApplyGlobalPortReservations: takes the order of the second pass as a parameter, because the two built-in services come first there wherever the file holds them.
- Release selectors, the one-off repository and path migrations of a start, environment overlay and schema validation of the configuration.
- The polling job behind an update schedule, and the local time zone: any start time of the day is possible at any moment.
- `schedule_broadcast` and its hand-over between threads; the close calls of a shutdown.
- Rounding of reported durations to milliseconds, and the status payload that carries them; outages shorter than a tick, since times are whole ticks of a clock as fine as one likes.
- The lazy creation of the update coordinator's lock, and the messages of its answers.
- The install itself, rollback snapshots of the updater, the transactional frontend swap, authentication, notifications and log handling: plumbing with easy claims.
