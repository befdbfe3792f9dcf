# Verification of the sync coordinator

This project models the server's object-mutation coordinator and everything that
shares its state, and proves what clients rely on. The model follows the
program's structure:

- `tables.dfy`, `mutations.dfy`: the rows, and each committed SQL transaction as
  a function on the database (create, update, delete, reservation, recovery,
  collection claim and delete, staging, purging, adoption, expiry).
- `promises.dfy`: what callers are promised, said on the tables alone: who gets which
  answer, and what each answer means for every row. The transactions keep it, and the
  contracts of the methods state it.
- `server.dfy`, `jobs.dfy`: the coordinator and the background jobs as methods
  that change tables step by step; each is proved to do exactly what those
  functions say.
- `worlds.dfy`: runs. A step is one transaction, one file operation or one
  after-commit callback. Steps carry arbitrary arguments and clock readings and
  come in any order, so requests are interleaved, repeated and abandoned at every
  point where the program can be interrupted. A removal may fail; a file may be
  written long after its row.
- `conservation.dfy`, `once.dfy`, `history.dfy`, `ledger.dfy`, `safety.dfy`,
  `claims.dfy`, `lifetimes.dfy`, `replay.dfy`, `pages.dfy`, `replica.dfy`: theorems about all runs.
- `scripts.dfy`, `careless.dfy`, `advance.dfy`: runs written out, which show that
  each condition of a theorem is needed and that a documented rule fails.
- `sync_runs.dfy`: server, event stream and replica together, end to end.
- `locks.dfy`: the same mutations under row locks, split into lock, bump, write and
  commit, for the order in which changes become visible.
- `doorbell.dfy`, `doorbell_runs.dfy`, `listener.dfy`: the notification path.
- `wire.dfy`, `utf8.dfy`, `batch_codec.dfy`, `frame_stream.dfy`, `frame_decoder.dfy`: the two
  binary formats.
- `retention.dfy`, `timestamps.dfy`, `timestamp_scan.dfy`, `cutoffs.dfy`: result
  retention under SQL's three truth values, and timestamps compared as text.
- `tokens.dfy`, `key_revision.dfy`, `rate_limit.dfy`: vault key rotation and the
  login limiter.

Ids that the program draws at random are arguments, required only to be new.
Clocks are arguments, and may run backwards unless a theorem says otherwise.

Where code and documentation differ, the model follows the code:

- docs/API.md:528-531 lets a client advance its cursor whenever
  `collectionVersion` is `cursor + 1`. A delete of an object already deleted
  answers with the current collection version although it changed nothing, so the
  rule also needs `change_seq` to equal `collectionVersion`
  (`Replica.DocumentedRule` gives the exact condition).
  For creates and updates the rule is sound (`AdvanceRule.MutationsAnswerOwnChange`);
  docs/openapi.yaml:1504-1506 extends it to every mutation, and there it fails on
  a run given in `AdvanceRule.DocumentedRuleFails`. `AdvanceRule.AdvancesExactly`
  has the condition for every answer, however late.
- docs/API.md:255-257 and DESIGN.md:278-279 promise that an abandoned create claim becomes missing after
  24 hours. That holds on Postgres. On SQLite, the default engine, `->>` yields an
  integer for the status the coordinator stores, `IN ('102', 'pending')` compares it
  with texts and is false, and so the 24-hour statement removes none of the
  coordinator's rows; a claim becomes missing after thirty days
  (`Retention.AbandonedClaim`, `Retention.SQLiteExpiresLater`; the run is
  `Retention.AbandonedInRun`).
  docs/SQLite by default plan.md:133-134 takes the status for a text. All theorems
  about runs hold for both engines: the two expiry steps take the engine.
- DESIGN.md:365-366 has maintenance remove a blob's bytes before its ledger row and
  keep the row when the removal fails. The code removes the row first
  (internal/jobs/jobs.go:195-209), so a failed removal leaves a file without a row,
  which reconciliation adopts for another object to claim.
- DESIGN.md:356-357 says a claim is for exactly one object version. The release names
  the blob key alone (internal/objects/objects.go:662-667). In any run, live objects
  keep their claims exactly until an update of a tombstone whose old key is another
  live object's claim (`LiveClaims.ClaimsHoldExactly`), and one failed file removal
  is enough to get there (`CarelessRuns.LiveBlobCanBeLost`).

## Model

| member | source | states |
|---|---|---|
| `Servers.Server.PrepareMutation` | internal/objects/objects.go:286-309 | a reservation is made exactly for a well-formed Mutation-Id without a row; nothing else changes |
| `Servers.Server.SaveResult` | internal/objects/objects.go:319-343 | the request's row, and no other, holds the outcome, with the creation time of its reservation |
| `Servers.Server.ReserveCreate` | internal/objects/objects.go:426-463 | settled exactly when the Mutation-Id was taken, with the recorded answer, a mismatch or pending |
| `Servers.Server.CreateReserved` | internal/objects/objects.go:475-562 | which of replay, mismatch, 404, not staged and success, exactly when; the new row; every other row of every table; a notification of the new version exactly when the collection moved |
| `Promises.CreateIsKept` | internal/objects/objects.go:475-562 | the create transaction keeps that promise on every database |
| `Servers.CreateQueues` | internal/objects/objects.go:555-555 | the commit of the runs queues exactly the notification the method returns |
| `Servers.Server.UpdatePrepared` | internal/objects/objects.go:587-683 | the same for an update: a conflict exactly for a version other than the next, with the version and key found; the new blob claimed, the old one released now, no other row touched |
| `Promises.UpdateIsKept` | internal/objects/objects.go:587-683 | the update transaction keeps that promise on every database |
| `Servers.Server.DeletePrepared` | internal/objects/objects.go:707-832 | the same for a delete: a conflict exactly for an expected version other than the current one, also on a tombstone; a re-delete changes nothing and rings nobody |
| `Promises.DeleteIsKept` | internal/objects/objects.go:707-832 | the delete transaction keeps that promise on every database |
| `Servers.Server.RecoverCreate` | internal/objects/objects.go:844-877 | pending, not found and conflict exactly for their recorded statuses; a success is the recorded response, marked replayed |
| `Replays.RecoveredAsAnswered` | internal/objects/objects.go:844-877 | after any run in which its collection still exists, a successful create is recovered with the very response it had |
| `Servers.Server.CreateBlobObject` | cmd/server/objects.go:238-275 | reserve, stage, create; a settled reservation stages no blob and changes nothing |
| `Servers.Server.List` | internal/objects/objects.go:147-183 | exactly the user's rows of the collection after the cursor, whole, in (change_seq, id) order, the first `limit` of them, and whether there are more |
| `Servers.Server.Stage` | internal/blobs/blobs.go:36-47 | the row, then the file |
| `Servers.Server.DeleteBlob` | internal/blobs/blobs.go:72-104 | granted exactly for a key in the user's namespace whose row, if any, is staged; the row goes first, and a failed file removal leaves the file |
| `Servers.Server.ClaimCollection` | internal/collections/collections.go:48-77 | one collection per user: the oldest wins, and one is made exactly when there is none |
| `Servers.Server.DeleteCollection` | internal/collections/collections.go:120-156 | its claimed and retained blobs are purgeable and collectable at every time, its objects and results are gone, every other row is as it was |
| `Promises.DropIsKept` | internal/collections/collections.go:136-153 | the transaction does exactly that, and for another user's collection nothing |
| `Jobs.DeletedCollectionIsCollected` | internal/jobs/jobs.go:180-226 | garbage collection at a steady clock then leaves none of these rows, and none of their files but those it was refused |
| `Conservation.CursorsOfEveryRun` | internal/objects/objects.go:532-555 | in every run a collection's cursor is the sum of its objects' versions and the largest change_seq, change_seqs are distinct, and the versions published or awaiting their callback are 1 to the cursor, each once |
| `Conservation.VersionsConserved` | internal/objects/objects.go:651-678 | the invariant behind it, kept by every run from any state that has it |
| `CreateOnce.NoDuplicateCreate` | internal/objects/objects.go:426-562 | in every run no two existing objects were created under one Mutation-Id |
| `CreateOnce.RecoveryDefinitive` | internal/objects/objects.go:844-877 | on an existing collection, recovery finds an object created under that Mutation-Id, and a 404 or conflict proves there is none |
| `CreateOnce.OnceInEveryRun` | internal/jobs/jobs.go:138-171 | each existing object made under a Mutation-Id keeps its create/201 row through retries, expiry and other deletes |
| `Histories.CommittedCreateRecovered` | internal/objects/objects.go:844-877 | a create once committed is recovered at any later moment at which its collection exists |
| `Histories.NoLostUpdate` | internal/objects/objects.go:627-637 | every object's versions run 1, 2, 3, … with one accepted mutation each, applied to the row before it; one delete at most takes effect and `deleted` never reverts |
| `Histories.AcceptedUpdateIsNext` | internal/objects/objects.go:627-637 | an update is accepted only for the version after the one it found, else nothing changes |
| `Histories.UpdateIsExpected` | internal/objects/objects.go:627-637 | in terms of the history: any other version is a conflict with the version and key found, and changes nothing |
| `Histories.DeleteIsExpected` | internal/objects/objects.go:760-772 | a delete that names a version is accepted only on the number of mutations accepted so far, and otherwise is a conflict that changes nothing, live or tombstone |
| `Histories.ObjectsStay` | internal/collections/collections.go:120-156 | objects last as long as their collection |
| `LedgerRuns.EveryClaimIsAnObject` | internal/objects/objects.go:532-549 | in every run a claimed row names an existing object with that key, version, collection, size and owner |
| `LedgerRuns.OneClaimPerObject` | internal/objects/objects.go:651-671 | no object has two claimed rows |
| `LedgerRuns.LedgerCorrespondence` | internal/objects/objects.go:796-820 | the correspondence is kept by every run, and legacy_shared rows are never changed |
| `LedgerRuns.NeverClaimableAndCollectable` | internal/objects/objects.go:357-366 | staged rows keep their insertion time, so no row is claimable and collectable at one instant |
| `Lifetimes.UpdateReleases` | internal/objects/objects.go:662-667 | a blob an update releases is garbage exactly from 365 days after the update |
| `Lifetimes.DeleteReleases` | internal/objects/objects.go:816-820 | the same for a delete |
| `Lifetimes.RetainedForAYear` | internal/jobs/jobs.go:228-283 | in every run a released blob's row stays as it was until garbage is collected more than 365 days after the release or its collection is deleted |
| `Lifetimes.AncestorReadable` | internal/blobs/blobs.go:36-47 | in a run that obeys the rules, the file of every recorded blob is there with its recorded size, so superseded versions stay readable |
| `LiveData.LiveObjectsReadable` | internal/blobs/blobs.go:36-47 | in every run that obeys the six rules, a live object's key is claimed for it and its version, its file is there with exactly size_bytes bytes, and no object shares the key |
| `LiveData.UpdateKeepsClaims` | internal/objects/objects.go:662-667 | an accepted update keeps all live objects claimed if and only if the object's old key is not another live object's claim |
| `LiveData.DeleteKeepsClaims` | internal/objects/objects.go:796-820 | a delete never takes a live object's claim, and only a tombstone's key can be another's |
| `CarelessRuns.EveryRuleIsNeeded` | internal/blobs/blobs.go:72-104 | for each of the six rules, and any non-empty blob content, a run from empty that breaks it alone and leaves a live object whose blob is not claimed or has no file |
| `CarelessRuns.LiveBlobCanBeLost` | internal/objects/objects.go:662-667 | the run for failed removals: a live object's blob ends up retained |
| `CarelessRuns.AdoptFromStaleSighting` | internal/jobs/jobs.go:48-131 | the run in which a walk adopts a file removed since it was seen |
| `LiveClaims.ClaimsHoldExactly` | internal/objects/objects.go:651-671 | in any run, whatever keys are used and whatever removals fail, live objects keep their claims throughout if and only if no accepted update finds its object's old key claimed by another live object |
| `Replays.SettledInEveryRun` | internal/objects/objects.go:255-284 | a settled row survives every run that neither expires it nor deletes its collection |
| `Replays.CreateRetried` | internal/objects/objects.go:426-462 | after any such run every retry of a create gets the first outcome, changes nothing and is settled before staging |
| `Replays.UpdateRetried` | internal/objects/objects.go:587-626 | after any such run a retried update gets the first outcome and changes nothing |
| `Replays.DeleteRetried` | internal/objects/objects.go:707-759 | the same for a delete |
| `Replays.OtherIntentsMismatch` | internal/objects/objects.go:270-277 | a different intent under a settled Mutation-Id is a mismatch and changes nothing |
| `Replica.ReplicaConverges` | cmd/server/objects.go:57-89 | with server steps between pages, pulls and late responses in any order, the client agrees with the server on every object up to its cursor |
| `Replica.LastPageIsCollection` | internal/objects/objects.go:147-183 | a page without hasMore makes the replica equal to the collection at that moment and its cursor the current_version |
| `Replica.PullAgrees` | internal/objects/objects.go:147-183 | one page keeps agreement, whatever its limit; the last one brings the cursor to current_version |
| `Replica.NewClientFollows` | docs/API.md:522-522 | a client that starts from cursor 0 agrees with any server that ran from empty |
| `Replica.DocumentedRule` | docs/openapi.yaml:1498-1506 | after a delete answered now whose collectionVersion is cursor + 1, advancing keeps agreement if and only if change_seq equals collectionVersion |
| `AdvanceRule.AdvancesExactly` | docs/openapi.yaml:1498-1506 | for any answer ever given, replayed or late: if and only if change_seq equals collectionVersion or the skipped change has been overtaken |
| `AdvanceRule.MutationsAnswerOwnChange` | docs/API.md:528-531 | in every run, creates and updates answer, fresh or replayed, with change_seq equal to collectionVersion, so on them the documented rule is sound |
| `AdvanceRule.DocumentedRuleFails` | internal/objects/objects.go:773-794 | a run from empty whose last step, a re-delete, answers a client at cursor 2 with collectionVersion 3 and change_seq 2: on advancing, agreement is lost |
| `SyncRuns.ReplicaIsServer` | cmd/server/sync.go:25-65 | server, event stream and replica together, the client pulling and advancing on its own answers: whenever the stream is open and nothing is under way, the replica of each collection is that collection and its cursor the current_version |
| `SyncRuns.SyncedInEveryRun` | internal/events/events.go:85-185 | every server step is the doorbell's turn, every pull the replica's, and the joint invariant is kept |
| `Locks.PrefixVisible` | internal/objects/objects.go:345-355 | no snapshot shows a change_seq while a write with a smaller one in that collection is uncommitted |
| `Locks.LaterCommitsComeLater` | internal/objects/objects.go:532-560 | whatever changes after a snapshot comes after every version of it; rollbacks leave no gap and no two rows of a collection share a change_seq |
| `Locks.FreshIsOrderly` | internal/db/migrations/sqlite/001_baseline.sql:20-20 | empty collections with nothing running satisfy what the two theorems start from |
| `Doorbell.Subscription.Enqueue` | internal/events/events.go:141-154 | keeps the larger version per collection and buffers one token; never sends on a closed channel |
| `Doorbell.Subscription.Drain` | internal/events/events.go:172-185 | returns what was pending, once each in collection order, and empties it; reports a closed subscription |
| `Doorbell.Subscription.Close` | internal/events/events.go:156-164 | closes the channel once, however often it is called |
| `Doorbell.Hub.Subscribe` | internal/events/events.go:85-98 | adds a fresh open subscription to that user and no other |
| `Doorbell.Hub.Unsubscribe` | internal/events/events.go:101-114 | removes and closes it |
| `Doorbell.Hub.Publish` | internal/events/events.go:117-123 | every subscription of the owner gets the notification, and no other |
| `Doorbell.Hub.CloseAll` | internal/events/events.go:128-139 | every subscription is closed and none is left |
| `Doorbell.Tx.Commit` | internal/db/db.go:181-189 | callbacks run in order, and only after a successful commit |
| `DoorbellRuns.RingsInEveryRun` | internal/events/events.go:85-185 | something pending always has a token or a consumer about to drain; drained and pending cover every version published since Subscribe; each collection is up to date or news of it is on its way |
| `DoorbellRuns.NoLostWakeup` | cmd/server/sync.go:25-65 | a client that pulls on ready and on every change has every cursor at current_version whenever nothing is under way |
| `Listener.NoGapSurvives` | internal/events/listener.go:25-51 | when the listener is connected and past its CloseAll, every open stream has each commit since it subscribed queued or heard, and none was open during a deaf interval; the backoff stays between 1 and 30 seconds |
| `Listener.AttentiveInEveryRun` | internal/events/listener.go:65-87 | the invariant behind it, with the link dropping at any moment before the listener notices |
| `Jobs.EligibleBlobKeys` | internal/jobs/jobs.go:228-251 | the first 500 collectable keys in text order |
| `Jobs.GarbageCollectBlobs` | internal/jobs/jobs.go:180-226 | the batched loop purges only rows collectable at some reading of its clock, touches nothing else, and at a steady clock leaves no collectable row; its counts are the rows gone, the files gone and the files refused |
| `Jobs.CollectKey` | internal/jobs/jobs.go:253-283 | one key: the row goes if still collectable, then the file; a missing file is not counted, a failed removal is |
| `Jobs.ReconcileStorage` | internal/jobs/jobs.go:48-131 | adopts exactly the files in an existing user's directory that have no row, in walk order up to 500, staged with their size at their own reading of the clock; changes no row; counts the others |
| `Jobs.OwnerIsPrefix` | internal/jobs/jobs.go:72-77 | the owner of a key is the part before its first slash |
| `Jobs.ExpireMutationResults` | internal/jobs/jobs.go:138-171 | removes exactly the rows either statement finds on this engine, and counts them |
| `Retention.PendingRuleIsDecode` | internal/jobs/jobs.go:141-144 | for any JSON whose fields are spelled status, body and error, and either engine, exactly when the 24-hour predicate agrees with decoding as 102: on Postgres unless a 102 lacks its body or a non-integer reads as pending, on SQLite unless a 102 has its body |
| `Retention.OtherRuleIsDecode` | internal/jobs/jobs.go:153-165 | on all three forms results have had, the 30-day predicate holds exactly when the result decodes to neither 102 nor a 2xx create, and on SQLite also for a numeric 102 |
| `Retention.OtherRuleExactly` | internal/objects/objects.go:205-239 | for which JSON of any form (fields spelled as above), and on which engine, the 30-day predicate and the decoder agree |
| `Retention.StatusWithoutBody` | internal/objects/objects.go:217-237 | a wrapped status without a body decodes as a success, and is removed nevertheless |
| `Retention.RulesDisjoint` | internal/jobs/jobs.go:141-165 | no row matches both predicates |
| `Retention.NumbersAreNotFound` | docs/SQLite by default plan.md:133-134 | on SQLite the 24-hour predicate misses every numeric status, also what decodes as pending, which the 30-day predicate then takes |
| `Retention.SQLiteExpiresLater` | internal/jobs/jobs.go:141-165 | on every row of a run, SQLite's 24-hour statement deletes nothing and its 30-day statement what Postgres deletes by either, pending rows 29 days later |
| `Retention.AbandonedClaim` | docs/API.md:255-257 | after both statements an abandoned claim is missing if and only if it is a day old on Postgres or thirty days old on SQLite, and otherwise pending |
| `Retention.AbandonedInRun` | internal/objects/objects.go:286-309 | the same at the end of a run from empty that reserves a create and expires results |
| `Retention.ExpiryIsTheStatements` | internal/jobs/jobs.go:138-171 | on every row of a run and on either engine, the two statements delete what the transactions of the model delete |
| `Timestamps.TextOrderIsTimeOrder` | internal/db/db.go:279-281 | timestamps of years with as many digits compare as text as their milliseconds do, and are equal only for one millisecond |
| `Timestamps.TextOrderExactly` | internal/db/db.go:279-281 | across the year 10000 the text order is right if and only if the first digits of the later year are no less than the earlier year |
| `TimestampScan.ScanOfTimestamp` | internal/db/db.go:286-303 | what was written is read back to the millisecond up to the year 9999, and not at all past it |
| `TimestampScan.EpochText` | internal/db/db.go:279-281 | the epoch is rendered 1970-01-01T00:00:00.000Z |
| `Cutoffs.ClaimableByText` | internal/objects/objects.go:357-366 | the claim's age test, on the text of the clock in nanoseconds less 24 hours, is the model's on milliseconds |
| `Cutoffs.CutoffStamp` | internal/db/db.go:279-281 | a clock reading less a span is written as the text of its millisecond less the span |
| `Cutoffs.CollectableByText` | internal/jobs/jobs.go:228-251 | the same for the two cleanup cutoffs |
| `Cutoffs.ExpiryByText` | internal/jobs/jobs.go:138-171 | the same for the two expiry cutoffs |
| `Utf8.ValidExactly` | cmd/server/objects.go:380-386 | the UTF-8 check accepts exactly the encodings of Unicode scalar values, RFC 3629 section 3 |
| `Promises.UuidGroups` | internal/objects/objects.go:112-129 | the id check accepts exactly five groups of 8, 4, 4, 4 and 12 hexadecimal digits between dashes |
| `Wire.AsciiIsUtf8` | cmd/server/objects.go:380-386 | identifiers of either alphabet pass the UTF-8 check |
| `BatchCodec.ParseBatch` | cmd/server/objects.go:360-423 | the loop accepts a body if and only if it is the encoding of 1 to 200 valid entries, and returns those entries; a refusal names what is wrong after the valid entries the body starts with |
| `BatchCodec.BatchEntryFrame` | cmd/compare/frames.go:58-65 | operation, length, identifier, version, length and blob, in network order |
| `BatchCodec.Exact` | cmd/server/objects.go:360-423 | the parser inverts the encoder on every batch, and any accepted body is the re-encoding of its result |
| `BatchCodec.EncodedParses` | cmd/compare/frames.go:58-65 | the encoding of a valid entry parses to it, whatever follows |
| `BatchCodec.EncodingInjective` | cmd/compare/frames.go:58-65 | two batches with one encoding are one batch |
| `FrameStream.Writer.WriteFrameHeader` | cmd/server/blobs.go:229-237 | key length, key, status and blob length in network order |
| `FrameStream.Writer.StreamBlobBatch` | cmd/server/blobs.go:167-227 | completes if and only if the stream described next exists, and then writes it |
| `FrameStream.CompletedExactly` | cmd/server/blobs.go:167-227 | a transfer breaks off only for an own file that cannot be opened or one being sent that does not yield what its header says |
| `FrameStream.PlanIsStream` | cmd/server/blobs.go:163-227 | one frame per key in order with the right status and bytes; omitted blobs are those that do not fit after another shipped; the total through any later OK frame is at most 33554432 |
| `FrameStream.StreamUnique` | cmd/server/blobs.go:163-227 | that description allows one stream only |
| `FrameStream.FirstAvailableShips` | cmd/server/blobs.go:163-166 | the first available blob ships, however large |
| `FrameStream.AskingAgainIsShorter` | cmd/server/blobs.go:200-206 | fewer keys are omitted than were asked for |
| `FrameStream.FetchDelivers` | cmd/server/blobs.go:163-227 | asking again for the omitted keys ends with exactly the available blobs, each whole |
| `FrameStream.SteadyFetch` | cmd/server/blobs.go:163-227 | and succeeds whenever every file can be opened and keeps its size |
| `FrameDecoder.DecodeDownloadFrames` | cmd/compare/frames.go:14-39 | succeeds exactly on encodings, with the frames encoded; an error names the field cut short after the frames before it |
| `FrameDecoder.EncodingInjective` | cmd/compare/frames.go:14-39 | no two lists of frames have one encoding |
| `Tokens.TokenInjective` | internal/collections/key.go:24-26 | different instants have different tokens |
| `Tokens.TokenText` | internal/collections/key.go:24-26 | date and time to the second, the fraction without trailing zeros if there is one, and Z |
| `KeyRevision.KeyTable.PutKey` | internal/collections/key.go:112-155 | only the owner is ever shown a key; without a token the stored key or a first claim, with the stored token a replacement, with another the stored key as a conflict; what is stored is the input at the next revision |
| `KeyRevision.KeyTable.GetKey` | internal/collections/key.go:70-86 | the key of an own collection, and of no other |
| `KeyRevision.NextRevision` | internal/collections/key.go:93-102 | the clock's millisecond, or one past the stored revision if that is later |
| `KeyRevision.NextStored` | internal/collections/key.go:143-150 | what the update returns is the revision it was given, or an error past the year 9999 |
| `KeyRevision.PutKeepsOrReplaces` | internal/collections/key.go:112-155 | a call changes a key only by a first claim or by presenting its token, to a strictly later revision, and changes no other row |
| `KeyRevision.ClaimNeverOverwrites` | internal/collections/key.go:131-134 | a call without a token returns the stored key and changes nothing |
| `KeyRevision.RotatesExactly` | internal/collections/key.go:135-142 | a rotation succeeds, and changes anything, if and only if it presents the current token and the new revision can be stored |
| `KeyRevision.RevisionsRise` | internal/collections/key.go:86-102 | in every run of calls, whatever the clock, a stored revision is the same key or strictly later |
| `KeyRevision.OneRotationPerToken` | internal/collections/key.go:86-102 | one token admits one rotation in a run |
| `KeyRevision.EveryKeyWasPresented` | internal/collections/key.go:104-155 | a key that changed over a run is the input of a call that presented its predecessor's token |
| `RateLimit.RateLimiter.Allow` | internal/auth/ratelimit.go:30-50 | the new window table, the verdict and the waiting time |
| `RateLimit.OnlyYoung` | internal/auth/ratelimit.go:34-38 | after each call only windows younger than a minute remain |
| `RateLimit.AtMostNineteen` | internal/auth/ratelimit.go:9-13 | the limit is ten a window, and any half-open minute, wherever it starts, admits at most nineteen attempts of a key |
| `RateLimit.NineteenReached` | internal/auth/ratelimit.go:30-50 | and a run that reaches nineteen |
| `RateLimit.RetryAfterIsExact` | internal/auth/ratelimit.go:28-49 | after a refusal attempts are refused until retryAfter has passed, and the first one from then on is admitted |

## Left out

- HTTP handlers, cookies, JSON text, logging and panic recovery. Stored results are values; of their JSON, `retention.dfy` models the three fields both readers look at.
- Retention.PendingRuleIsDecode: fields are spelled exactly status, body and error. Go's decoder also takes them in other cases, which `->>` does not find; the server never writes them so.
- SQL text, drivers and pools: a transaction is one atomic step, or, in `locks.dfy`, the steps between its row locks. A statement that fails rolls its transaction back and is not a step.
- The file system: files are a map from key to bytes, writes are atomic, removals may fail.
- Users are fixed: sessions, passwords, tokens, user creation and deletion are not part of this model.
- Migrations and their legacy rows: runs start empty, or from any state that satisfies the stated invariant. legacy_shared rows may be present; they name no object.
- handleBatchBlobObjects beyond its parser: it applies the entries one after another through the calls modelled here.
- The methods of `server.dfy` and `jobs.dfy` run alone; what happens between their transactions is the subject of `worlds.dfy`, where the same transactions are separate steps.
- Replica.ReplicaConverges: of a tombstone the replica keeps version and change_seq, because a delete's own answer has no more; the pages themselves carry whole rows (`Pages.IsPage`).
- Servers.Server.DeletePrepared: a delete answers with the tombstone's id, version and change_seq only, so a client that learned of it that way is compared on these (`View`).
- LiveData.LiveObjectsReadable: needs its six rules: creates, updates and deletes name only keys Stage returned, removals succeed, what is adopted is still there, and nothing is adopted while a removal of its file is outstanding. CarelessRuns.EveryRuleIsNeeded breaks each alone and loses data; for the first three rules the client must have guessed a key the server is only about to stage, random part included.
- DoorbellRuns.NoLostWakeup: one subscription and the in-process publisher; the pull that answers an event is one step that reaches current_version, with any pages before it as steps of their own, as Replica.LastPageIsCollection justifies.
- The event-stream handler and the listener are steps (`DoorbellRuns.Take`, `Listener.Act`), not loops, because other goroutines run between any two of their statements.
- Keep-alive pings of the event stream and write errors to a client that is gone: both end in CloseSubscription or change nothing.
- Locks.PrefixVisible: lock waits and deadlocks are not modelled, only what is visible; a transaction that never gets its lock takes no step.
- FrameStream.Writer.StreamBlobBatch: errors of the connection itself are left out; they end the transfer like an unreadable file. Keys are at most 65535 bytes, which the handler's limit of 128 characters ensures.
- Timestamps.TextOrderIsTimeOrder: instants before the year 0 are left out.
- KeyRevision.KeyTable.PutKey: the key columns are read and written together; JSON normalisation of key_kdf by the database is left out.
