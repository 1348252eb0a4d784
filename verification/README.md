# Verified model of the object backup and its neighbours

A Dafny model of the parts of the VielHome backend whose correctness depends on more than one line of
code: above all the object-backup protocol of `src/backup`, in which any number of one-shot processes
claim requests from a shared table, capture each source object, copy it into a write-once store, read it
back, write a manifest and commit, while workers pause, crash and are replaced, the source is overwritten,
and an upload may leave anything behind. Beside it stand the CSV export, the
percent-encoder and canonical query string of the request signer, the day buckets of the analytics, the
lifecycle and delivery of advertising campaigns, the merging of cases, and pagination.

`dafny verify dfyconfig.toml` checks the whole project.

## How it is built

| file | content |
|---|---|
| `Tables`, `Execution`, `Protocol` | the rows and the atomic statements on them, the bounds of a process, and the protocol as a state machine whose events are single statements, storage calls, clock readings, crashes, signals and the passing of time |
| `Safety`, `Fencing`, `Captures`, `Lease`, `Budget` | what every run keeps: protection of verified requests, fencing by owner token, fresh keys, the timing bound, the retry budget |
| `Recovery` | from every reachable state, which requests can still be verified |
| `Integrity`, `Witness` | what each check of `runOne` decides, and concrete runs in which it passes and fails |
| `Monitor`, `Movements`, `Stamp`, `Reconcile` | the observers: what their columns count, event by event, and how far they agree with the protocol and with each other |
| `Runner`, `Repository`, `Storage` | the code itself as methods over mutable objects: `claim`, `runOne`, the drain loop, the row updates, the streaming read |
| `Csv`, `Sorting`, `SigV4` | printing against parsing |
| `Analytics`, `Campaigns`, `Delivery`, `Cases`, `Pagination` | the secondary components |

In `Protocol` every event is total: one that is not enabled changes nothing, so each sequence of events is
a run and `Reachable` means "after some sequence of events". In `Runner` the methods run inside an object
`World` in which, at every `await`, an arbitrary sequence of foreign events happens; each step of the code
is one enabled event of the protocol, so the theorems about reachable states hold of the code. Its tables are a
`Repository.BackupDatabase`, on which the process executes its statements by that class's methods.

## Assumptions

- `randomUUID` returns a value never returned before; ids of rows are numbers, keys are pairs of a request and a capture (`Storage.KeysAreDistinct` justifies the latter).
- Primary keys are not empty strings, so a cursor is truthy (`ProperIds` in `Reconcile`).
- An `updateMany` is atomic, and a `$transaction` makes all its updates or none.
- A PUT with `If-None-Match: *` writes an absent key and never overwrites; the destination store loses nothing, and a GET returns what is stored. Nothing is assumed of the bytes a PUT leaves behind, acknowledged or not: they may differ from those sent. A PUT whose answer is lost may still take effect at any later moment, once.
- A source object may be overwritten or deleted at any moment. A HEAD answers the current version's ETag, Last-Modified and Content-Length, and a GET with `If-Match` answers the current bytes if the current ETag is that one (section 13.1.1 of RFC 9110). No two versions of a source object have the same ETag, Last-Modified and size together; an ETag alone may recur, and the announced size need not be the true one.
- `Config.digest` and `Config.encode` (SHA-256 and the JSON printing of a manifest) are arbitrary functions; where the pattern `^[a-f0-9]{64}$` matters, digests are assumed to match it.
- Timing is assumed only where `Config.timed` is required: then a clock read at instant t shows a value in [t - early, t + late], forced-exit timers fire on time (a step at the very instant of the exit may still precede it), and `finalizedAt` is not in the future when a request is enqueued. Everything else holds for arbitrary clocks and pauses.
- The clock reading that goes into a statement (`now` in `verify` and in `fail`) and the effect of the statement are one event; the code takes the reading just before it sends the statement.
- A statement a process had issued before it died either took effect before its death or does not take effect; the ten-second statement timeout of the connection is not modelled.

## What turned out false, and the exact conditions

- The re-read after the compare-and-set may return another worker's token; two processes then hold one request. And a single process that pauses before its commit may lose its lease, so that LEASE_LOST is raised. Each of the three is excluded exactly when the forced exit is on time and 480 s + early + late < 600 s (`Lease.LeaseBoundIsExact`; the runs are `LeaseOverrun` and `LeaseExpiry`).
- The monitor can count a soundly verified request as invalid: `verifiedAt` is the worker's clock and `finalizedAt` another one's. It never does exactly when no clock runs behind (`Stamp.NoneInvalidIff`).
- No request is ever wedged, with one exception: a request that rests with ten attempts, which nothing ever claims again (`Recovery.CanBeVerifiedIff`, `Safety.ExhaustedPersists`).
- Expired leases are reclaimed without regard to the limit of ten attempts (`Budget.ReclaimedWithoutBound`); what is limited to ten is the number of failures.
- The CSV header is not escaped: the text parses back to the table exactly when there is a column and no column name needs quoting (`Csv.PrintThenParseIff`).
- The canonical query string depends on the order of its parameters exactly when one key has two values (`SigV4.OrderIsIrrelevantIff`).
- `updateCampaign` with the empty string as building id asks for conflicts in the scope `""` and stores the scope null; freedom from conflicts survives a run of atomic calls exactly while no update does that into an occupied slot (`Campaigns.RunKeepsConflictFree`). `transitionStatus` and `updateCampaign` write by id alone after their checks. So concurrent calls can restart an ended campaign: over every interleaving that happens exactly when a transition whose check read another status is written after the ending (`Campaigns.LateRunsKeepEnded`), and never if no other transition of the campaign is written between a check and its write (`OneAtATimeIsAllowed`). And they can make two running campaigns conflict: exactly when a write collides with what runs by then (`LateRunsKeepConflictFree`), and never if between a check and its write nobody touches the campaign or starts or moves another one into its slot, and no empty building id is sent (`CalmRunsStayFree`).
- `mergeCase` re-checks only the merged row when it updates, so two crossing merges close a cycle; the relation stays a forest exactly while no update hangs a case below its own tree (`Cases.RunKeepsForest`), which takes a target that is merged after it was looked at (`CycleIsCrossing`, `UncrossedRunsKeepForest`). `reopenCase` re-checks only the status, so a merged case is opened exactly by a reopening that was checked before the merge and still finds the status it expects (`Cases.RunKeepsMergedClosed`).
- `findEligibleForPlacement` is documented to order by priority; the code orders by slot position and code, and the re-check `isEligibleNow` treats an empty target as no target while the query does not (`Delivery.QueryAgreesWithEligibility`). The model follows the code.

## Model

| member | source | states |
|---|---|---|
| Execution.FirstSignalDecides | src/backup/backup.execution.ts:18-29 | however many termination signals arrive, the exit instant is fixed by the first (its grace of 30 s, or the 480 s bound if earlier), and nothing can be claimed afterwards |
| Execution.ExecutionControl.constructor | src/backup/backup.execution.ts:5-7 | a new process may claim exactly at readings before 240 s of its own clock, and exits 480 s after the timers are installed |
| Execution.ExecutionControl.Signal | src/backup/backup.execution.ts:24-29 | after a signal no reading allows a claim; the first one moves the exit to 30 s later if that is earlier, and no later one moves it |
| Execution.ExecutionControl.CanClaimNow | src/backup/backup.execution.ts:14 | the answer only ever changes from yes to no: yes means yes at every earlier reading, no means no at every later one |
| Repository.BackupDatabase.Enqueue | src/backup/backup.request.ts:4-21 | inserts one PENDING request for this document version, with its object, size and time, that is claimable at once; does nothing without a bucket, and refuses a second request for a reference, so that references stay unique |
| Repository.BackupDatabase.ClaimUpdate | src/backup/backup.repository.ts:37-46 | the conditional update in place is the atomic compare-and-set of the protocol; a row that was won is out of everyone's reach for exactly 600 s, a row that was lost is unchanged |
| Repository.BackupDatabase.CreateGeneration | src/backup/backup.repository.ts:52-63 | inserts one generation of this request and capture, under the two keys of the capture; no generation becomes verified by it |
| Repository.BackupDatabase.VerifyRequestRow | src/backup/backup.repository.ts:77-86 | the fenced update of the request row, its count, and what stays unchanged when it misses |
| Repository.BackupDatabase.VerifyGenerationRow | src/backup/backup.repository.ts:87-91 | the update of the generation row, and what stays unchanged when it misses |
| Repository.BackupDatabase.VerifyTransaction | src/backup/backup.repository.ts:64-95 | both updates or neither: the atomic statement of the protocol with its three outcomes; a committed request can never be claimed again, any other outcome changes nothing |
| Repository.BackupDatabase.FailUpdate | src/backup/backup.repository.ts:96-108 | changes the row exactly if the caller's token is still on it; the row is then claimable exactly after its back-off, if it has attempts left |
| Repository.DelaySeconds | src/backup/backup.repository.ts:97 | computes the back-off of the protocol |
| Repository.BackoffIsPower | src/backup/backup.repository.ts:97 | the delays are 30 * 2^min(n-1, 4) capped at 300, within [30, 300] from the first attempt, and never decrease |
| Safety.VerifiedIsProtected | src/backup/backup.runner.ts:15-45 | in every reachable state, whatever PUTs left behind and whoever overwrote the source, a VERIFIED request has exactly one verified generation; its ETag, Last-Modified and size name a version of the source object with its digest; the object at its key has the same size (the expected one when given) and digest; and the object at its manifest key is the manifest of that very evidence |
| Safety.ManifestIsTrue | src/backup/backup.manifest.ts:12-29 | in every reachable state the object at the manifest key of a verified generation is the print of a manifest that says, field by field, what is true: version 1, environment, source bucket, key and reference of the request, and size, ETag, Last-Modified, digest, destination, capture and both times of the generation |
| Safety.EvidenceMeansVerified | src/backup/backup.repository.ts:75-94 | conversely a verified generation belongs to a VERIFIED request |
| Safety.ProtectionPersists | src/backup/backup.storage.ts:107-116 | no later event of any run touches the verified row, its generation or its two objects, nor verifies a second generation |
| Safety.ExhaustedPersists | src/backup/backup.repository.ts:15-25 | a resting request with ten attempts stays exactly as it is for ever |
| Safety.CommitProtects | src/backup/backup.repository.ts:75-94 | a commit that goes through leaves a generation whose object and manifest are in the store |
| Safety.StepKeepsInv | src/backup/backup.runner.ts:11-50 | every event of every process keeps the invariant that ties rows, generations, store and workers together |
| Safety.RunKeepsInv | src/backup/backup.runner.ts:11-50 | hence so does every run |
| Safety.RunExtends | src/backup/backup.storage.ts:107-116 | over a run destination objects and source versions are never overwritten or forgotten, rows and keys never vanish, and what is verified or exhausted never changes |
| Integrity.FirstHeadDecides | src/backup/backup.runner.ts:15-17 | the first HEAD is accepted exactly when the source holds a usable version of the expected size; otherwise SOURCE_MISSING, INVALID_SOURCE_IDENTITY or SIZE_MISMATCH, each exactly in its case |
| Integrity.GetDecides | src/backup/backup.runner.ts:18 | the GET succeeds exactly when the current version has the ETag of the first HEAD; otherwise SOURCE_MISSING or SOURCE_CHANGED |
| Integrity.CaptureDecides | src/backup/backup.runner.ts:15-26 | in every reachable state the capture is accepted if and only if the version the first HEAD named is still current and has the size it announced, and the bytes are then that version's; otherwise one of three codes |
| Integrity.ReadBackDecides | src/backup/backup.runner.ts:30-32 | the read-back is accepted if and only if the stored object has the size and digest of the capture; otherwise BACKUP_MISSING or CHECKSUM_MISMATCH |
| Integrity.ReadManifestDecides | src/backup/backup.runner.ts:36-37 | the second read-back is accepted if and only if the store holds the manifest of this capture; otherwise BACKUP_MISSING or MANIFEST_MISMATCH |
| Integrity.CorruptObject | src/backup/backup.runner.ts:29-32 | a run whose acknowledged upload left other bytes behind, and which fails with CHECKSUM_MISMATCH |
| Integrity.CorruptManifest | src/backup/backup.runner.ts:35-37 | a run whose acknowledged manifest came out different, and which fails with MANIFEST_MISMATCH |
| Integrity.LateUpload | src/backup/backup.storage.ts:86-91 | a run in which the answer to an upload is lost, the worker fails, and the object appears afterwards |
| Integrity.OverwrittenSource | src/backup/backup.runner.ts:18-26 | a run whose GET went through on a newer version with the same ETag, and which fails with SOURCE_CHANGED |
| Fencing.CommitIffHolding | src/backup/backup.repository.ts:75-94 | a commit succeeds if and only if the row still carries the token the worker re-read and the lease has not run out on its clock; otherwise no row or generation changes and it fails with LEASE_LOST; GENERATION_MISMATCH never occurs |
| Fencing.FailIffHolding | src/backup/backup.repository.ts:96-107 | `fail` has an effect if and only if the worker still holds its row, and then rests that row alone |
| Fencing.ClaimFencesOthers | src/backup/backup.repository.ts:35-46 | a successful compare-and-set ends every earlier worker's hold of the row |
| Fencing.FencedForever | src/backup/backup.repository.ts:77-107 | a worker that has lost its row never holds it again, after any run and any pause |
| Fencing.DeadForever | src/backup/backup.repository.ts:35-46 | an owner token that is on no row and on its way to none never comes back |
| Fencing.RunKeepsTokens | src/backup/backup.repository.ts:35-48 | over every run tokens are on at most one row, belong to the process that made them, and a row with a worker's token is the row it re-read |
| Captures.PutIsNeverRefused | src/backup/backup.storage.ts:107-116 | in every reachable state the next conditional PUT finds its key absent, so GENERATION_EXISTS is never raised |
| Captures.RunKeepsCaptures | src/backup/backup.repository.ts:52-63 | over every run captures are fresh and no two workers write under the same keys |
| Lease.LeaseSuffices | src/backup/backup.execution.ts:2-23 | with clocks within the margin, at most one live process holds a request, the re-read returns the claimer's own token, every commit succeeds and LEASE_LOST is never raised |
| Lease.LeaseOverrun | src/backup/backup.repository.ts:37-48 | without the margin, timed or not, there is a run in which two processes hold one request and the first has adopted the second one's token |
| Lease.LeaseExpiry | src/backup/backup.repository.ts:77-86 | without the margin there is a run in which a single process, with nobody to interfere, fails with LEASE_LOST |
| Lease.LeaseBoundIsExact | src/backup/backup.execution.ts:18-23 | for every deployment, each of the three guarantees (one holder, own token, no LEASE_LOST) holds of every run if and only if the exit is on time and 480 s plus the clock disagreement is below the lease of 600 s |
| Lease.HeldIsNotEligible | src/backup/backup.repository.ts:13-27 | a request held by a live process is not eligible for any other, whatever its clock shows |
| Lease.CommitSucceeds | src/backup/backup.repository.ts:75-94 | within the margin a commit finds the row still leased to the committer |
| Lease.RunKeepsLease | src/backup/main.ts:24-41 | over every run a live process's row is leased to its own claim until after its forced exit |
| Budget.AttemptsBalance | src/backup/backup.repository.ts:15-46 | over every run `attempts` is the number of successful claims, and every ordinary claim but the current one was paid for by one effective failure |
| Budget.AtMostTenFailures | src/backup/backup.repository.ts:96-107 | over every run a request records at most ten effective failures |
| Budget.ReclaimedWithoutBound | src/backup/backup.repository.ts:25-43 | for every n some run drives `attempts` to n by crashes alone, the row still being claimable |
| Budget.RunKeepsSpacing | src/backup/backup.repository.ts:97-105 | over every run each claim comes at least the back-off after the previous one, less the clock spread |
| Budget.ClaimsAreSpaced | src/backup/backup.repository.ts:22-42 | under one clock, claims of a request within a window of T seconds number at most T/30 + 1 |
| Budget.ReclaimsWaitForTheLease | src/backup/backup.repository.ts:25-42 | whatever the clocks do, an expired lease is taken over no earlier than 600 s after the claim it came from, as both claimers read their clocks |
| Budget.QueueStep | src/backup/backup.repository.ts:15-46 | only an enqueue adds to the remaining ordinary attempts of the queue, and each ordinary claim uses one up |
| Budget.QueueBudget | src/backup/backup.operations.ts:53-58 | hence every run contains at most ten ordinary claims per request: the remaining attempts are a termination measure |
| Recovery.IsReached | src/backup/backup.repository.ts:28-48 | however many eligible requests come before it, some continuation claims an eligible request at the same instant |
| Recovery.CopiesIt | src/backup/backup.runner.ts:15-45 | a worker that nothing disturbs takes a claim on a sound source all the way to VERIFIED |
| Recovery.NeverWedged | src/backup/backup.runner.ts:11-50 | from every reachable state a request of this bucket that is neither verified nor exhausted, and whose source object is there in the right size, has a continuation that verifies it and leaves the source alone |
| Recovery.RunKeepsOurs | src/backup/backup.repository.ts:13-14 | over every run only requests of the worker's bucket ever leave PENDING |
| Recovery.CanBeVerifiedIff | src/backup/backup.repository.ts:13-27 | exactly which requests can still become VERIFIED: those of this bucket that do not rest with ten attempts and do not ask for a negative size |
| Monitor.HexDigits | src/backup/backup.queue-metrics.ts:13 | a digest is complete exactly with sixty-four lower-case hexadecimal digits |
| Monitor.CoverageIff | src/backup/backup.queue-metrics.ts:10-18 | on any table whatever the three counts say: there is a verified generation, and each is complete, stamped in time and of one digest |
| Monitor.CoveredIff | src/backup/backup.queue-metrics.ts:6-20 | on reachable states the query's `protected` is exactly VERIFIED and stamped no earlier than finalization |
| Monitor.MonitorAgrees | src/backup/backup.queue-metrics.ts:22-39 | the five states sum to the total, copying = active + expired, no lease is invalid, unprotected = total - measured, measured + invalid = verified, and nothing is invalid exactly when no verified request was stamped too early |
| Monitor.FailureMoves | src/backup/backup.queue-metrics.ts:24-28 | an effective failure moves one from copying to sourceMissing if the code is SOURCE_MISSING and to failed otherwise |
| Monitor.ClaimMoves | src/backup/backup.queue-metrics.ts:23-28 | a successful claim moves one to copying from the column its row was in; taking over an expired lease moves nothing |
| Monitor.CommitMoves | src/backup/backup.queue-metrics.ts:24-33 | a commit moves one from copying to verified |
| Monitor.EnqueueMoves | src/backup/backup.queue-metrics.ts:22-23 | a new request of the bucket adds one to total and to pending |
| Monitor.OldestIsMaximum | src/backup/backup.queue-metrics.ts:57-59 | the oldest age is exceeded by no unprotected request and, unless it is 0, attained by one |
| Movements.EventMoves | src/backup/backup.queue-metrics.ts:22-33 | in every reachable state every event of every process moves the six state columns exactly so, and no other event moves any |
| Movements.ColumnsBalance | src/backup/backup.queue-metrics.ts:22-33 | after any run each column holds what the events have moved into it less what they have moved out of it |
| Monitor.UnhealthyIffAlarms | src/backup/backup.operations.ts:10-23 | the age threshold adds nothing to the other alarms |
| Monitor.HealthyIffOnTrack | src/backup/backup.operations.ts:10-23 | the monitor is silent if and only if every request is protected or on its way and at most fifteen minutes old |
| Stamp.NoneInvalid | src/backup/backup.queue-metrics.ts:33-36 | with no clock running behind, measured = verified and invalidVerified = 0 in every reachable state |
| Witness.StampedRun | src/backup/backup.runner.ts:33-44 | a fault-free run that verifies a request with whatever instant the worker's clock showed |
| Stamp.NoneInvalidIff | src/backup/backup.queue-metrics.ts:10-16 | invalidVerified = 0 in every reachable state if and only if no clock runs behind |
| Reconcile.FindUnique | src/backup/backup.reconciliation.ts:63-72 | finds the request of a document version, if there is one |
| Reconcile.FoundIsDocument | src/backup/backup.reconciliation.ts:63-69 | what is found is of this bucket, of reference type DOCUMENT_VERSION, and for this version |
| Reconcile.EnqueuedIsFound | src/backup/backup.request.ts:11-20 | the row that the upload enqueues for a version is the one the reconciliation finds for it, and the version does not count as missing |
| Reconcile.EnqueuedStaysFound | src/backup/backup.reconciliation.ts:63-91 | whatever happens afterwards it is found again, the version never counts as missing, and once VERIFIED it adds nothing to the report |
| Reconcile.FindPage | src/backup/backup.reconciliation.ts:55-60 | the hundred versions after the cursor, in id order |
| Reconcile.GenerationColumns | src/backup/backup.reconciliation.ts:75-90 | on any table whatever: invalid metadata means a VERIFIED request that names another object or has no verified generation or an incomplete one, and a conflict means two verified digests |
| Reconcile.ReportColumns | src/backup/backup.reconciliation.ts:73-99 | on reachable states each column of the report is the number of rows it is meant to count, said without the lookup: versions that no request of that reference and object covers; unprotected versions older than fifteen minutes, with a missing source, with an unreadable one; versions whose verified request names another object; and no conflicting generations |
| Reconcile.ScanPage | src/backup/backup.reconciliation.ts:61-100 | a page is examined version by version, asking before each whether to go on |
| Reconcile.NextPage | src/backup/backup.reconciliation.ts:53-101 | one turn of the loop: the versions seen continue those seen before, in id order; it stops only on a question answered no |
| Reconcile.Run | src/backup/backup.reconciliation.ts:44-103 | the cursor loop terminates, visits every version exactly once in id order wherever pages end, completes if and only if it is never told to stop, and its report is then the one-pass report |
| Reconcile.RunKeepsUniqueReferences | src/backup/backup.request.ts:11-20 | over every run at most one request exists per bucket and reference |
| Reconcile.GensOfRequest | src/backup/backup.reconciliation.ts:75-90 | on reachable states all verified generations are complete, there is one exactly for VERIFIED requests, and they agree on one hash |
| Reconcile.ObserversAgree | src/backup/backup.reconciliation.ts:10-24 | the document query (a join on reference and object) and the reconciliation see the same protection, and the queue query the same except for requests stamped too early |
| Runner.World.Yield | src/backup/backup.runner.ts:11-50 | between two steps any foreign events may happen; the process keeps its own phase and wins nothing meanwhile |
| Runner.World.Own | src/backup/backup.runner.ts:11-50 | each step of the code is one event of the protocol |
| Runner.World.Executed | src/backup/backup.repository.ts:35-108 | a statement that the database object has executed is the event of the protocol, no more and no less |
| Runner.World.CanClaimNow | src/backup/backup.execution.ts:14 | the question the claim loop asks is answered for the clock reading it takes |
| Runner.World.HeadSource | src/backup/backup.storage.ts:93-103 | the identity answered is that of the version current at that moment; it moves the worker on as the protocol says, or a code that can be raised is thrown |
| Runner.World.ReadSource | src/backup/backup.storage.ts:104-106 | the bytes answered are the current version's, whose ETag is the one asked for, or a code is thrown |
| Runner.World.CreateGeneration | src/backup/backup.repository.ts:52-63 | the generation is inserted under a fresh capture, or a code is thrown |
| Runner.World.PutNew | src/backup/backup.storage.ts:107-116 | an acknowledged PUT has stored something under the key, which was absent; what, the read-back must tell; a lost answer is an error although the object may land all the same |
| Runner.World.ReadBackup | src/backup/backup.storage.ts:117-120 | the bytes answered are those the store holds under the key |
| Runner.World.VerifyRequest | src/backup/backup.repository.ts:64-95 | success means that the request is verified by this generation with this evidence |
| Runner.World.FailRequest | src/backup/backup.repository.ts:96-108 | within the clock margin the row rests with this code afterwards, unless a commit had gone through unheard |
| Runner.World.CompareAndSet | src/backup/backup.repository.ts:37-46 | a win takes a row that was not verified and moves the worker to the re-read, a loss to the next candidate; alone, it wins exactly if the row is eligible |
| Runner.World.Reread | src/backup/backup.repository.ts:47-48 | the row re-read, whatever happened to it since, is what the worker holds |
| Runner.CommitOutcome | src/backup/backup.repository.ts:75-94 | a commit either verifies a request that was not verified, with exactly this evidence, or changes nothing; it never meets a missing generation, and within the clock margin it always succeeds |
| Runner.FailOutcome | src/backup/backup.repository.ts:96-107 | within the clock margin `fail` leaves its row resting with the code, or verified |
| Runner.VerifiedStays | src/backup/backup.repository.ts:15-26 | what is verified at one moment of a trace is verified at every later one, and the clock has not run back |
| Runner.FindMany | src/backup/backup.repository.ts:28-32 | the candidate query has an answer: the earliest 25 eligible rows, ties in any order |
| Runner.TryCandidate | src/backup/backup.repository.ts:33-49 | one candidate: a win is re-read and held, a loss leaves the process where it was |
| Runner.TryCandidates | src/backup/backup.repository.ts:33-50 | the candidates in order: the request won was not verified before; alone, the first candidate is won |
| Runner.Claim | src/backup/backup.repository.ts:11-51 | exactly one successful claim or none; a lone process, while requests keep arriving, takes an eligible request with minimal `finalizedAt` of those listed, and an empty answer without being told to stop means that nothing in the table is eligible |
| Runner.TakeCapture | src/backup/backup.runner.ts:15-26 | the bytes are those of the version both HEADs named, which is the current one still, of the announced and the expected size, or a code is thrown |
| Runner.Upload | src/backup/backup.runner.ts:28-32 | the object is stored and read back under the new generation, or a code is thrown |
| Runner.Seal | src/backup/backup.runner.ts:33-44 | the manifest is stored, read back and the request committed, or a code is thrown; what is then stored describes the generation field by field |
| Runner.Copy | src/backup/backup.runner.ts:15-45 | the whole `try`: verified by a named generation, or a code that can be raised |
| Runner.RunOne | src/backup/backup.runner.ts:11-50 | under any interference one call wins exactly one claim unless idle; `verified` means a request that was not verified now is; a failure never carries GENERATION_EXISTS or GENERATION_MISMATCH, nor within the clock margin LEASE_LOST, and then leaves the row resting with its code unless it is verified; idle, for a process alone while it claims, means told to stop or nothing eligible |
| Runner.Operate | src/backup/backup.operations.ts:51-58 | the drain loop terminates within 100 claims; `verified` is the number of requests that became verified by it, and verified + failed the number of successful claims; alone while it claims and not told to stop, it ends below 100 only when nothing in the table is eligible |
| Runner.NoClaimOnceBarred | src/backup/backup.repository.ts:12-37 | after a stop or the claim deadline a process wins at most the one compare-and-set it had already issued, whatever happens |
| Storage.ReadBody | src/backup/backup.storage.ts:69-85 | for every chunking: the whole body, byte j of chunk k at the sum of the lengths before k plus j, if the lengths add up to at most the limit, and OBJECT_TOO_LARGE otherwise, at the first chunk beyond the limit; the most it keeps are the bytes before that chunk |
| Storage.JoinedInOrder | src/backup/backup.storage.ts:79-85 | joining puts the chunks one after the other, each byte at its offset |
| Storage.Concat | src/backup/backup.storage.ts:85 | the buffer has every byte of every chunk at its offset and nothing else |
| Storage.IdentityIsValid | src/backup/backup.storage.ts:93-103 | a HEAD is accepted exactly when its three headers are usable and the size is within the cap, and the identity it yields is the one they spell |
| Storage.KeysAreDistinct | src/backup/backup.repository.ts:54-60 | printed keys are equal only for the same request, capture and kind |
| Csv.ToCsv | src/common/csv/csv.util.ts:26-37 | the loop prints the header and one escaped line per row |
| Csv.FieldRoundTrip | src/common/csv/csv.util.ts:27-31 | an escaped cell is parsed back, whatever it contains |
| Csv.EscapesOnlyIfNeeded | src/common/csv/csv.util.ts:30 | a cell is printed as it is exactly when it has no comma, quote or line feed, and in quotes otherwise |
| Csv.CellIs | src/common/csv/csv.util.ts:28-29 | a null or missing value prints as nothing, any other as its string |
| Csv.RecordRoundTrip | src/common/csv/csv.util.ts:34 | so is a whole record |
| Csv.PrintThenParse | src/common/csv/csv.util.ts:26-37 | parsing the text under section 2 of RFC 4180 returns the header and every cell |
| Csv.PrintThenParseIff | src/common/csv/csv.util.ts:32 | it does so exactly when there is a column and no name needs quoting |
| Csv.PrintingIsInjective | src/common/csv/csv.util.ts:26-37 | two tables that print alike agree cell by cell, whatever the column names |
| Csv.HeaderIsNotEscaped | src/common/csv/csv.util.ts:32 | a column name with a comma is read back as two |
| Sorting.SortSorts | src/common/storage/sigv4.ts:82 | the stable sort returns a sorted permutation |
| Sorting.SortedUnique | src/common/storage/sigv4.ts:82 | when the order tells the elements apart there is only one sorted permutation |
| SigV4.UriEncode | src/common/storage/sigv4.ts:50-64 | the nested loops produce the character-wise encoding |
| SigV4.Utf8Injective | src/common/storage/sigv4.ts:57 | no two strings of scalar values have the same UTF-8 bytes |
| SigV4.DecodeEncode | src/common/storage/sigv4.ts:50-64 | percent-decoding the result yields exactly the UTF-8 bytes of the input, slash preserved or not |
| SigV4.EncodeInjective | src/common/storage/sigv4.ts:50-64 | no two strings encode alike |
| SigV4.EncodeSafe | src/common/storage/sigv4.ts:53-58 | with the slash encoded, only unreserved characters and percent signs come out |
| SigV4.KeptAsItIs | src/common/storage/sigv4.ts:53-56 | a text is left as it is exactly when it has only letters, digits and -_.~ of ASCII, and slashes if they are not to be encoded |
| SigV4.BeforeIff | src/common/storage/sigv4.ts:82 | the order of the keys: one is before another at the first position where they differ, or as its proper beginning |
| SigV4.QueryRoundTrip | src/common/storage/sigv4.ts:79-85 | splitting the canonical query string recovers the encoded pairs, all of them, in key order, each of which decodes to the UTF-8 bytes of its key and of its value |
| SigV4.QueryDeterminesParams | src/common/storage/sigv4.ts:79-85 | equal canonical strings come from the same parameters |
| SigV4.QueryIgnoresOrder | src/common/storage/sigv4.ts:79-85 | unless one key has two values, two lists have the same string if and only if they hold the same parameters |
| SigV4.SortFirst | src/common/storage/sigv4.ts:82 | the sort keeps the order of pairs with equal keys |
| SigV4.OrderMatters | src/common/storage/sigv4.ts:82 | with two values under one key some rearrangement changes the string |
| SigV4.OrderIsIrrelevantIff | src/common/storage/sigv4.ts:79-85 | the string is independent of the order exactly when every key has one value |
| SigV4.RepeatedKey | src/common/storage/sigv4.ts:82 | a concrete list whose order matters |
| Analytics.BuildDayKeys | src/modules/analytics/application/analytics.service.ts:52-61 | the keys are the consecutive days from the first to the last, none when the range is empty |
| Analytics.ResolveRange | src/modules/analytics/application/analytics.service.ts:135-165 | which of the four errors is thrown, or the whole days of the range and their keys, 1 to 90 of them |
| Analytics.DefaultRange | src/modules/analytics/application/analytics.service.ts:145-147 | without a start the range has exactly 30 days |
| Analytics.BucketCount | src/modules/analytics/application/analytics.service.ts:167-174 | one pass with a map gives every day the count of a naive filter |
| Analytics.BucketCountAmount | src/modules/analytics/application/analytics.service.ts:176-196 | the same for counts and amounts together |
| Analytics.BucketsConserve | src/modules/analytics/application/analytics.service.ts:167-196 | the buckets together hold exactly the rows, and amounts, of the covered days |
| Analytics.SelectedRowsConserve | src/modules/analytics/application/analytics.service.ts:92-131 | for the rows the query selects, counts sum to the number of rows and amounts to the total |
| Analytics.SeriesConserves | src/modules/analytics/application/analytics.service.ts:176-196 | whatever buckets are returned for the days of a range, their counts sum to the number of selected rows and their totals to the total |
| Analytics.Series | src/modules/analytics/application/analytics.service.ts:89-131 | one series end to end: it fails exactly when the range does; otherwise 1 to 90 buckets, one per day in order, each with the count and the amount that the whole table has on that day, together with every row of the days of the range and its amount once |
| Analytics.SelectedExactly | src/modules/analytics/application/analytics.service.ts:92-107 | the query selects every row in range, both ends included, as often as it is there, and no other |
| Analytics.SelectedAnswers | src/modules/analytics/application/analytics.service.ts:92-131 | for a day of the range, counting and adding up the rows selected is counting and adding up the table |
| Campaigns.FirstRuleDecides | src/modules/advertising/application/ad-campaign.service.ts:663-697 | an input is refused exactly when it breaks one of the ten rules, and with the error of the first it breaks |
| Campaigns.AllowedByTarget | src/modules/advertising/application/ad-campaign.service.ts:116-121 | any campaign can be ended unless it is, only drafts and paused ones started, only running ones paused |
| Campaigns.ConflictIff | src/modules/advertising/infrastructure/repositories/ad-campaign.repository.ts:127-139 | two proper schedules conflict exactly when they share slot and scope and would run at one instant |
| Campaigns.CampaignService.CreateCampaign | src/modules/advertising/application/ad-campaign.service.ts:233-271 | stores the input field by field as a DRAFT with a proper schedule exactly when no rule is broken and the image is fine, and otherwise throws and stores nothing |
| Campaigns.CampaignService.TransitionStatus | src/modules/advertising/application/ad-campaign.service.ts:273-316 | changes the status and nothing else if the campaign exists, the transition is allowed and, when starting, it has a slot and no running campaign conflicts; otherwise the error of the first that fails, and no change |
| Campaigns.CampaignService.UpdateCampaign | src/modules/advertising/application/ad-campaign.service.ts:318-391 | each field becomes what the caller gave or stays, a building id of the empty string means none, status and creation time stay and the schedule is proper; or nothing changes |
| Campaigns.RunKeepsSchedules | src/modules/advertising/application/ad-campaign.service.ts:670-672 | over every run every stored schedule ends after it starts, and no row is scoped to the empty string |
| Campaigns.RunKeepsLifecycle | src/modules/advertising/application/ad-campaign.service.ts:116-121 | over every run rows stay, ENDED is never left and DRAFT never entered again |
| Campaigns.ConflictFreeStore | src/modules/advertising/infrastructure/repositories/ad-campaign.repository.ts:127-139 | writing one row keeps the running campaigns free of conflicts if and only if the query finds none for it |
| Campaigns.StepKeepsConflictFree | src/modules/advertising/application/ad-campaign.service.ts:285-377 | an atomic call keeps them so if and only if it is not an update that passes the input checks, names the empty building and moves into an occupied slot |
| Campaigns.RunKeepsConflictFree | src/modules/advertising/application/ad-campaign.service.ts:343-377 | over every run of atomic calls they stay so exactly while no update slips |
| Campaigns.NoEmptyBuilding | src/modules/advertising/application/ad-campaign.service.ts:341-377 | callers that never send an empty building id never see a conflict |
| Campaigns.AnUpdateSlips | src/modules/advertising/application/ad-campaign.service.ts:349-376 | a concrete update that makes two running campaigns conflict |
| Campaigns.LateCommit | src/modules/advertising/infrastructure/repositories/ad-campaign.repository.ts:119-125 | a status update that runs after its checks went stale is right if and only if it would still be granted |
| Campaigns.UninterruptedIsStep | src/modules/advertising/application/ad-campaign.service.ts:273-377 | a call whose read, conflict query and write nothing interrupts is the atomic call, whether it is granted or throws |
| Campaigns.LateRunsKeepConflictFree | src/modules/advertising/infrastructure/repositories/ad-campaign.repository.ts:115-139 | over every interleaving of the reads, queries and writes of any number of calls the running campaigns stay free of conflicts exactly while no write collides with what runs by then |
| Campaigns.LateRunsKeepEnded | src/modules/advertising/application/ad-campaign.service.ts:280-303 | over every interleaving ENDED is left exactly when a transition whose check read another status is written after an event, between the two, that ended the campaign |
| Campaigns.OneAtATimeIsAllowed | src/modules/advertising/application/ad-campaign.service.ts:116-121 | if no other transition of a campaign is written between a check and its write, every status change is one the table allows, so ENDED is never left |
| Campaigns.CalmRunsStayFree | src/modules/advertising/application/ad-campaign.service.ts:293-377 | if between a check and its write nobody touches the campaign, or starts or moves another one into its slot, and no empty building id is sent, running campaigns never conflict |
| Campaigns.LateRunsKeepRows | src/modules/advertising/application/ad-campaign.service.ts:670-672 | over every interleaving schedules and scopes stay proper, rows stay, and DRAFT is never entered again |
| Campaigns.ConcurrentActivations | src/modules/advertising/application/ad-campaign.service.ts:293-303 | a run in which two activations, both queried before either update, start two conflicting campaigns |
| Campaigns.ConcurrentEndAndResume | src/modules/advertising/application/ad-campaign.service.ts:285-303 | a run in which a resumption checked before an ending restarts an ended campaign |
| Campaigns.ConcurrentUpdateAndActivation | src/modules/advertising/application/ad-campaign.service.ts:345-376 | a run in which a draft moved into an occupied schedule and started concurrently conflicts, although both checks passed |
| Delivery.QueryAgreesWithEligibility | src/modules/advertising/application/ad-campaign.service.ts:401-409 | the re-check never rejects what the query selects, and exactly which eligible rows the query misses |
| Delivery.EligibleButNotSelected | src/modules/advertising/infrastructure/repositories/ad-campaign.repository.ts:203-216 | in every context with a city there is an eligible campaign the query misses |
| Delivery.InterstitialAgrees | src/modules/advertising/infrastructure/repositories/ad-campaign.repository.ts:168-189 | the interstitial query selects what the rule accepts of direct campaigns but for empty targets, and from nowhere only what is not targeted at all |
| Delivery.RankingIsTotal | src/modules/advertising/application/ad-campaign.service.ts:534-539 | specificity, priority, age and id form a strict order that tells campaigns with different ids apart |
| Delivery.UnbeatenIsUnique | src/modules/advertising/application/ad-campaign.service.ts:532-540 | at most one candidate on a slot ranks before all others |
| Delivery.WinnerIsUnbeaten | src/modules/advertising/application/ad-campaign.service.ts:532-541 | the winner is that candidate, and there is none exactly when nobody is on the slot |
| Delivery.WinnerDominates | src/modules/advertising/application/ad-campaign.service.ts:144-145 | nobody on the slot is more narrowly targeted than the winner (building, city, country), nor, targeted alike, of higher priority, nor then older, nor then of a smaller id |
| Delivery.WinnerIgnoresOrder | src/modules/advertising/infrastructure/repositories/ad-campaign.repository.ts:168-189 | the winner depends on which rows the query selects, not on the order of its answer |
| Delivery.SharedInstant | src/modules/advertising/infrastructure/repositories/ad-campaign.repository.ts:127-139 | two running campaigns of one scope share a slot only at the instant one ends and the other starts |
| Delivery.ScopeDecides | src/modules/advertising/application/ad-campaign.service.ts:142-145 | away from those instants the building's own campaign wins, or else the only candidate there is |
| Cases.CaseService.CreateCase | src/modules/cases/application/cases.service.ts:119-145 | adds one open, unmerged case if the building exists and the unit, if given, is one of its units; otherwise throws and adds nothing |
| Cases.CaseService.UpdateMany | src/modules/cases/infrastructure/repositories/case.repository.ts:194-230 | the conditional update changes one row or none, and its count says which |
| Cases.GrantedIff | src/modules/cases/application/cases.service.ts:374-446 | when each of the five calls is granted, said of the case, its target and the caller |
| Cases.GrantedDoes | src/modules/cases/infrastructure/repositories/case.repository.ts:88-230 | what a granted call changes: one case, its status and, for a merge, its target |
| Cases.RefusedFor | src/modules/cases/application/cases.service.ts:423-446 | a call is refused for a reason that holds, and a merge for the first in the order of its checks |
| Cases.CaseService.MergeCase | src/modules/cases/application/cases.service.ts:423-446 | throws the first failing check and changes nothing, or hangs the case, closed, below an unmerged case of its building |
| Cases.CaseService.ReopenCase | src/modules/cases/application/cases.service.ts:374-393 | opens a resolved or closed case that is not merged, or changes nothing |
| Cases.RootIsUnique | src/modules/cases/application/cases.service.ts:437-444 | a chain ends at one root only, and that root is unmerged |
| Cases.MergeRoots | src/modules/cases/infrastructure/repositories/case.repository.ts:222-226 | after a merge every case of the merged tree has the target's root, and every other case its own |
| Cases.ChecksGrant | src/modules/cases/application/cases.service.ts:430-446 | what the checks of a call still guarantee when its update runs late |
| Cases.WriteKeepsForest | src/modules/cases/infrastructure/repositories/case.repository.ts:222-230 | an update, however late, keeps the forest if and only if it does not hang a case below its own tree |
| Cases.MergedForGood | src/modules/cases/infrastructure/repositories/case.repository.ts:222-226 | whatever the interleaving of reads and updates, rows stay, and a merged case keeps its target and is never merged again |
| Cases.UninterruptedIsStep | src/modules/cases/application/cases.service.ts:374-446 | a call whose reads and update nothing interrupts is the atomic call |
| Cases.RunKeepsForest | src/modules/cases/infrastructure/repositories/case.repository.ts:194-230 | over every interleaving of the reads and updates of any number of calls the relation stays a forest exactly while no update closes a cycle |
| Cases.CycleIsCrossing | src/modules/cases/application/cases.service.ts:433-446 | an update that closes a cycle belongs to a merge whose target was itself merged after the merge had looked at it |
| Cases.UncrossedRunsKeepForest | src/modules/cases/application/cases.service.ts:433-446 | if no case is merged while a merge into it is under way, the relation is a forest at every moment |
| Cases.WriteKeepsMergedClosed | src/modules/cases/infrastructure/repositories/case.repository.ts:212-219 | whatever was checked before, one update opens a merged case exactly if it is a reopening that finds the status it expects |
| Cases.RunKeepsMergedClosed | src/modules/cases/infrastructure/repositories/case.repository.ts:212-219 | over every interleaving merged cases stay closed exactly while no reopening is written that was checked before an event, between the two, that merged its case, and that still finds the status it expects |
| Cases.AtomicCallIsSafe | src/modules/cases/application/cases.service.ts:430-446 | without interference the checks suffice for both |
| Cases.AtomicRunsKeepForest | src/modules/cases/application/cases.service.ts:374-446 | on every run of atomic calls merged cases form a forest below unmerged roots and never change again |
| Cases.CrossingMerges | src/modules/cases/application/cases.service.ts:433-446 | a run in which two merges, both checked before either update, close a cycle |
| Cases.ReopenedAfterMerge | src/modules/cases/application/cases.service.ts:388-393 | a run in which a reopening checked before another reopening and a merge opens the merged case |
| Pagination.ParsePagination | src/common/pagination/pagination.util.ts:47-61 | any raw query gives a page of at least 1 and a limit in 1 to 100, keeping usable values |
| Pagination.PagesArePrefix | src/common/pagination/pagination.util.ts:64-66 | pages 1 to k are the first k * limit items |
| Pagination.TotalPagesExact | src/common/pagination/pagination.util.ts:69-75 | the announced number of pages is the least that reaches the end, and at least 1 |
| Pagination.PagesAreTheList | src/common/pagination/pagination.util.ts:64-75 | the announced pages in order are the whole list |
| Pagination.OnExactlyOnePage | src/common/pagination/pagination.util.ts:64-75 | every item is on exactly one page, an announced one |
| Pagination.EmptyPages | src/common/pagination/pagination.util.ts:64-75 | a page is empty exactly when it comes after the last one or the list is empty |

## Left out

- HTTP, presigned URLs, status-code mapping, timeouts and aborts of the storage client: every failure they cause is an arbitrary error of the call.
- Prisma, SQL execution and isolation levels beyond the assumptions above; the monitor's two SQL queries are modelled by the sets they count.
- `maxProtectionLatencySeconds`, `lateVerifiedCount` and the safe-integer checks of `queueMetrics`; the failure and age columns of `backupMetrics`, whose protected predicate is modelled.
- Exit codes, log events, the mode argument and `readBackupConfig`: branching without a property across steps. `main` appears as the order in which control, timers and the first claim come.
- An exception thrown by `fail`'s own update ends the process, which the model covers as a crash.
- SHA-256, HMAC, the signing key derivation and `buildCanonicalRequest`, a plain join.
- UTF-16 strings with unpaired surrogates, which have no UTF-8 form, in `uriEncode`.
- Conversion of values to strings by `toCsv` (`String(value)`, dates): a cell is its string.
- Instants outside the range of JavaScript dates, years that print with more than four digits, and the parsing of date strings in the analytics; amounts are unbounded integers.
- Weak ETags and byte ranges; a source or destination that answers a GET with other bytes than it holds.
- The texts of a campaign, image clean-up, the slot's own fill policy and the gate that shows no interstitial on an unsuitable slot; an image check is a given answer of the environment.
- The comparison of campaign ids by `localeCompare` is taken as a strict order on generated ids.
- Case assignment roles, visibility, messages and field edits; support cases, which repeat the merging of cases in another module.
- Page numbers beyond the range in which JavaScript numbers are exact.
- Access control, finance, voting, gamification, uploads and the other modules of the backend.
