# RelayShelf verification model

A Dafny model of the parts of RelayShelf whose correctness rests on the order of small steps, with proofs of what they
promise. `dafny verify dfyconfig.toml` checks all of it.

## The upload pipeline

`Pipeline` is a state machine over everything a crash leaves behind (`upload_sessions`, `upload_parts`, `file_objects`,
`message_attachments`, thumbnail jobs, staging files, commit temps, final objects) and the threads that work on it: creating an
upload, writing a part, completing and finalizing, cleaning an expired upload, sweeping staging, reconciling and erasing objects.
One step is one SQL transaction, one file operation or one lock acquisition. Between any two steps any other thread may run, time
may pass, references may be bound, copied, removed or garbage-collected, and the process may crash: that discards every thread
and every in-process lock, may garble every byte not synced since it was written, and keeps rows, file names and file lengths.

- `PipelineInvariant` states what every reachable state satisfies, `PipelineSteps` and `PipelineRuns` prove it step by step, and
  `PipelineTheorems` draws the promises, up to the end-to-end one: what an attachment serves is byte for byte what was uploaded.
- `PipelineOverRuns` carries the promises of single steps along whole runs: the lease of a completed upload, the storage quota,
  and what a held lock protects between two steps of its holder.
- `PipelineReferences` says that an upload is taken by one message only, that a READY object is left alone for a day, and what
  exactly a collection removes.
- `PipelineCoverage` says exactly when a step can leave a final object without a row: when a finalizer renames for a reservation
  that lost its row, or a reconciler removes a row whose final object has appeared since it looked. As long as no reconciler works
  on a row whose finalizer is still running, every final object has a row.
- `Uploads` is `PutPart`, `Complete` and `Finalize` as they are written: loops, early returns, the `keepPending` cleanup. Any
  operation may fail, and before each one the other threads may have changed everything the held lock does not protect. Every
  operation is proved to be a step of `Pipeline`, in an order the protocol allows. Under `Calm` (nothing fails, nobody else
  runs) the contracts give the exact outcome: when a part is committed, and what becomes of an upload for each state of the row
  with its content. What the held lock protects is a hypothesis there (`Respectful`, `Sharing`) and a theorem of `Pipeline`
  (`StagingFrozenAlong`, `LengthKeptAlong`).
- `UploadsInPipeline` puts the two together. The steps a method of `Uploads` logs, woven into any steps of others, form a run of
  `Pipeline`, so every theorem about runs holds of them. And in every reachable state an undisturbed `Complete` or `Finalize`
  delivers the upload, unless its object is being erased or the quota refuses; leftovers of a crash do not stand in the way.
- `PipelineExample` shows that a complete upload is reachable, and that a final object can lose its row.
- `Locks` proves what `Pipeline` assumes of the lock registries; `Reconcile` is the cursor loop over unsettled rows; `Parts` and
  `Admission` hold the arithmetic.

## The other parts

`Messages`, `MessageStore` and `MessageRuns` are the message operations as a specification, as the imperative service, and as
theorems over runs, with the scheduler's `Batches`; `MessageEffects` says of each operation, without that specification, when it
succeeds and what the tables hold afterwards. `Encoding` and `Idempotency` are the request encodings and the replay of repeated keys. `Tokens`, `Like`,
`SearchQuery` and `SearchService` are search from the typed tokens to the page. `Keyset`, `Paging` and `Listings` are the paged
listings. `Jobs` is the job queue, `Totp` and `TotpLogin` the second factor, `UploadScheduler` the browser's scheduler and
`ArchiveNames` the naming of ZIP entries.

## Assumptions

- One server process, since the lock registries and the job worker live in it. A SQL transaction is one step with a definite
  result; `READ COMMITTED` anomalies inside a transaction do not arise where rows are locked as the code locks them.
- SHA-256 is an arbitrary function. That it has no collisions is a hypothesis (`Collisionless`) only of the theorems that speak of
  bytes or requests instead of hashes. HMAC-SHA1 is an arbitrary function with 20-byte results; encryption is a pair of functions
  with decryption undoing encryption (`Faithful`).
- Identifiers are fresh when drawn.
- A directory entry is durable once visible. A rename may take effect and still be reported as failed.
- Case folding works character by character, maps none of `\ % _` to another character or another character to them, and is the
  same for Go and PostgreSQL; for ZIP names it leaves digits, blanks and parentheses alone.
- Clock readings are integers after Go's zero time. Readings taken before a transaction may be out of order between requests.

Where the code and an expected property differ, the code is followed: `Edit` ignores a supplied body when the message has none
(`EditSetsBodyExactly` gives the exact condition, `EditCanDropItsBody` an instance), and the encoding of a creation request does
not separate tags from uploads (`CreateEncodingExact`, `TagCanPassForUpload`).

## Model

| member | source | states |
|---|---|---|
| PipelineRuns.RunsKeepInv | internal/uploads/finalize.go:106-270 | every state of every run, with crashes between any two steps and all other threads interleaved, satisfies the invariant |
| PipelineRuns.NextInv | internal/files/service.go:273-352 | each single step of any kind keeps it |
| PipelineRuns.CrashWorld | cmd/relayshelf/failpoints.go:13-26 | a crash at any point, garbling all unsynced bytes, keeps it |
| PipelineRuns.GcWorld | internal/files/service.go:173-212 | garbage collection with a stale clock reading keeps it |
| PipelineSteps.ValidatedIsJoined | internal/uploads/service.go:216-241 | if all part markers pass Complete's check, the staging file is the in-order concatenation of the part bodies |
| PipelineTheorems.ReadyMeansStored | internal/uploads/finalize.go:491-514 | a READY row has a synced final object of exactly its size and hash |
| PipelineTheorems.RowsAreUnique | internal/uploads/finalize.go:418-468 | no two rows share hash and size |
| PipelineTheorems.ReferencesResolve | internal/messages/attachments.go:51-178 | every attachment, every completed unconsumed upload and every live thumbnail job points to a READY row, whose object exists |
| PipelineTheorems.ServedBytesAreUploadedBytes | internal/uploads/service.go:129-252 | what an attachment serves is, byte for byte, the concatenation of the bodies committed when Complete accepted its upload, through dedup, forwarding, crashes and collection |
| PipelineTheorems.SealComesFromComplete | internal/uploads/repository.go:181-233 | that content was fixed by exactly one Complete transaction and never changed after it |
| PipelineTheorems.MarkerMeansBytes | internal/uploads/service.go:150-194 | a part marker of an active upload means its region holds exactly the committed body, also after crashes and beside concurrent writes |
| PipelineTheorems.ActiveUploadsKeepTheirFile | internal/uploads/service.go:297-327 | no sweep, cleanup or expiry takes the staging file of an active upload, and it keeps its declared length |
| PipelineTheorems.ExclusiveFreezesStaging | internal/uploads/service.go:214-215 | while a finalizer works on an upload nobody else changes its staging file |
| PipelineTheorems.ChunkLockKeepsLength | internal/uploads/service.go:130-131 | while a part is being written nobody else removes the staging file or changes its length |
| PipelineTheorems.ReapsOnlyOrphans | internal/uploads/finalize.go:121-148 | a reservation being reconciled under the content lock is owned by no running finalizer |
| PipelineOverRuns.LeaseOverRun | internal/files/service.go:182-207 | along every run, until 24 hours after its completion an upload that no message took and whose user stays keeps its session, READY row and object |
| PipelineOverRuns.LeaseFromCompletion | internal/uploads/finalize.go:470-514 | the 24 hours count from the clock of the step that completed the upload |
| PipelineOverRuns.QuotaOverRun | internal/uploads/finalize.go:438-448 | in every run whose reservations were made under quotas up to q the stored total stays within q |
| PipelineOverRuns.StagingFrozenAlong | internal/uploads/service.go:214-215 | between two steps of a finalizer, however many steps of others leave its staging file as it was |
| PipelineOverRuns.LengthKeptAlong | internal/uploads/service.go:130-131 | between two steps of a part write, however many steps of others keep the staging file and its length |
| PipelineReferences.TakenOnce | internal/messages/attachments.go:51-121 | in every run an upload becomes an attachment of one message only, once |
| PipelineReferences.ReadyForADay | internal/files/service.go:173-212 | along every run the row of an object stays what it is for 24 hours after it became READY |
| PipelineReferences.GcMeaning | internal/files/service.go:173-212 | a collection deletes exactly the uploads completed 24 hours ago or earlier, with their parts, marks READY rows DELETING, and changes nothing else |
| PipelineTheorems.StagingBudgetHolds | internal/uploads/service.go:76-82 | declared sizes of active uploads never exceed the staging limit, in any run |
| PipelineExample.ServedReachable | internal/uploads/finalize.go:183-270 | the whole way to a bound attachment is possible |
| PipelineCoverage.CoveredExactly | internal/files/service.go:278-283 | in every reachable state where each final object has a row, a step keeps that if and only if it is neither a rename without a row nor a reconciler's removal of a row with a final object |
| PipelineCoverage.CoveredWithoutOverlap | internal/uploads/finalize.go:183-249 | if no reconciler works on a row whose finalizer is running, each final object has a row, in every run |
| PipelineExample.FinalWithoutRowReachable | internal/files/service.go:278-283 | the exception is reachable |
| Uploads.Server.PutPart | internal/uploads/service.go:129-208 | takes only protocol steps and commits only on success, with the stream's content; undisturbed, it succeeds if and only if part number, declared and delivered length fit, the stream does not break, and the upload is open and unexpired; otherwise the row says which refusal; what arrives goes to the part's place and nowhere else |
| Uploads.Server.CheckParts | internal/uploads/service.go:224-240 | accepts exactly the complete lists of parts |
| Uploads.ListedMeaning | internal/uploads/service.go:227-239 | parts are complete exactly when the sorted list reads 0, 1, 2, ... with the declared sizes |
| Uploads.InOrder | internal/uploads/service.go:228-231 | a sorted list of all part numbers, and nothing else, has each in its place |
| Uploads.Server.Complete | internal/uploads/service.go:210-252 | takes only protocol steps and reports completion exactly when it happened; undisturbed, it finalizes exactly the uploads that are open, unexpired and all there, or accepted before; for every other state of row, staging file and parts it states the answer and the effect |
| Uploads.RepeatedCompleteIsAnswered | internal/uploads/repository.go:199-204 | a Complete after one that completed the upload answers that it is completed, and changes nothing |
| Uploads.Server.Finalize | internal/uploads/finalize.go:106-270 | whatever fails and whatever others do: only protocol steps, Completed exactly when one of them completed the upload, with that object READY; undisturbed: result and new state, for each state of the row with the content |
| UploadsInPipeline.EntryIsStep | internal/uploads/finalize.go:106-270 | each logged step is a step of the protocol and keeps its invariant |
| UploadsInPipeline.LogIsRun | internal/uploads/finalize.go:106-270 | the whole log, interleaved with any steps of others, extends a run to a run |
| UploadsInPipeline.RunsSettle | internal/uploads/finalize.go:470-514 | in every run the row an upload points to is there and is no waiting reservation |
| UploadsInPipeline.AcceptedUploadsFinish | internal/uploads/finalize.go:106-270 | in every reachable state an undisturbed Finalize completes an accepted upload with a READY object of its size and hash, except for Retryable while that object is being erased, and Quota when nothing with that content is stored and storing it would exceed the quota |
| UploadsInPipeline.CompleteUploadsFinish | internal/uploads/service.go:210-252 | likewise Complete, for every open, unexpired upload whose parts are all there, with their concatenation |
| Uploads.Server.HashStaging | internal/uploads/finalize.go:285-333 | hashes the whole staging file however the reads are cut |
| Uploads.Server.ReconcilePending | internal/uploads/finalize.go:381-416 | a waiting reservation becomes READY or is gone, or the finalizer ends without completing |
| Uploads.Server.ReservePending | internal/uploads/finalize.go:418-468 | returns an owned new row, or the existing one, or ends; refuses over quota |
| Uploads.Server.StoredTotal | internal/uploads/finalize.go:442-445 | the sum over all rows |
| Uploads.Server.CopyToTemp | internal/uploads/finalize.go:195-237 | copies and syncs the whole staging file, or gives the reservation up |
| Uploads.Server.Rename | internal/uploads/finalize.go:243-249 | commits the object; keeps the row unless the final object is known not to exist |
| Uploads.Server.ReadyAndComplete | internal/uploads/finalize.go:491-514 | publishes the object and completes the upload in one step, or keeps the row for reconciliation |
| Uploads.Server.Cleanup | internal/uploads/finalize.go:183-189 | the deferred cleanup is a legal end of the protocol whichever of its parts fails |
| Locks.MutualExclusion | internal/uploads/locks.go:52-81 | two threads inside for one key are chunk holders of different parts sharing one lock object, for any interleaving of lock creation and removal |
| Locks.RegistryMatchesUsers | internal/uploads/finalize.go:53-71 | an entry exists exactly while someone uses it and counts its users |
| Locks.RegistryDrains | internal/uploads/locks.go:43-50 | the registry is empty when no thread is inside |
| Locks.SomeoneCanMove | internal/uploads/locks.go:52-81 | the locks do not deadlock, even if waiting writers hold back new readers |
| Locks.NextKeeps | internal/uploads/locks.go:31-50 | every step keeps counts, registration and reader/writer exclusion |
| Reconcile.Service.Reconcile | internal/files/service.go:213-272 | terminates whatever fails; visits each unsettled row at most once, oldest first, settles at most batch, and all of them if it settles fewer; one error for each row not settled, a failing scan and a failing cleanup |
| Reconcile.Service.ReconcilePending | internal/files/service.go:273-305 | settles one PENDING row and touches nothing else |
| Reconcile.Service.DeleteObject | internal/files/service.go:306-352 | settles one DELETING row and touches nothing else |
| Reconcile.Service.CleanupTemps | internal/files/service.go:353-373 | removes exactly the commit temps that nobody owns and that can be removed, and reports whether anything failed |
| Reconcile.SettleIsSafe | internal/files/service.go:278-305 | publishes only what was verified, with the time of publication, removes only unreferenced rows, erases only objects of DELETING rows |
| Reconcile.HealthyPass | internal/files/service.go:213-272 | on healthy storage a large enough pass leaves no PENDING or DELETING row and no commit temp |
| Parts.PartCount | internal/uploads/model.go:35-40 | a part number is in range exactly if its offset lies inside the file |
| Parts.PartSize | internal/uploads/model.go:42-50 | a part in range is not empty, not longer than a chunk and inside the file; any other is -1 |
| Parts.PartsTileTheFile | internal/uploads/model.go:35-50 | every byte lies in exactly one part |
| Parts.ClientAgreesWithServer | web/src/features/uploads/manager.ts:28-32 | the browser sends for each part exactly the range the server accepts |
| Parts.AllRegionsJoin | internal/uploads/service.go:167-176 | a file whose part regions hold the bodies is their concatenation |
| Sums.TotalRemove | sql/generated/uploads.sql.go:31-35 | a table's sum does not depend on the order of summation |
| Admission.Admit | internal/uploads/service.go:77-95 | admits exactly when file limit, budget and remaining free space allow it; no 64-bit operation overflows |
| Admission.MinimumFree | internal/uploads/service.go:92 | the exact ceiling of total * percent / 100 without forming the product |
| Admission.WithinQuota | internal/uploads/finalize.go:446-448 | accepts exactly the sizes that keep the total within the quota, without overflow |
| Messages.ApplyOk | internal/messages/service.go:209-574 | every operation keeps every message well-formed |
| Messages.DecideOk | internal/messages/service.go:247-574 | so does each single command on a message |
| Messages.DropTagOk | internal/tags/repository.go:66-90 | deleting a tag takes it off every message, and exactly those that had it move one version on |
| Messages.NewMessageOk | internal/messages/service.go:54-79 | a new message is well-formed, at version 1, and has content exactly if its body is not empty |
| Messages.WithoutOk | internal/messages/attachments.go:224-262 | removing an attachment keeps the others in display order |
| MessageStore.Service.Create | internal/messages/service.go:97-160 | succeeds exactly for a fitting draft with own tags and usable uploads; then adds exactly one message of the owner's with that title, body, tags and files and consumes exactly those uploads; otherwise changes nothing |
| MessageStore.Service.DirectSend | internal/messages/service.go:581-651 | succeeds exactly for a fitting draft, an active recipient and usable uploads of the sender's; then adds exactly one message, the recipient's, TEMPORARY, with that body and those files; otherwise changes nothing |
| MessageStore.Service.Forward | internal/messages/service.go:658-752 | succeeds exactly for a readable untrashed message in the named version with READY files and an active recipient; then adds exactly one message, the recipient's, with the same title, body and files in order; otherwise changes nothing |
| MessageStore.Service.Mutate | internal/messages/service.go:209-245 | carries a command out exactly if version and message accept it, changes what it names and nothing else, and moves the version on if something changed |
| MessageStore.Service.Change | internal/messages/service.go:371-574 | the field-by-field closures compute the specified change |
| MessageStore.Service.EditFields | internal/messages/service.go:269-314 | the closure of Edit computes the specified change |
| MessageStore.Service.BindUploads | internal/messages/attachments.go:51-121 | binds all uploads in order and consumes exactly them, or names the first misfit |
| MessageStore.Service.AddAttachments | internal/messages/attachments.go:180-222 | appends the files of the sender's usable uploads behind the last display order and consumes them, or changes nothing |
| MessageStore.Service.RemoveAttachment | internal/messages/attachments.go:224-262 | removes exactly that attachment, unless the message would be empty |
| MessageStore.Service.PermanentlyDelete | internal/messages/service.go:759-781 | deletes only the owner's trashed message |
| MessageStore.Service.DeleteTag | internal/tags/repository.go:66-90 | the transaction has the specified effect, or none |
| MessageStore.Service.ExpireTemporary | internal/jobs/scheduler.go:156-194 | trashes lapsed TEMPORARY messages batch by batch: all of them, or as many as the limit on batches allows, and changes no other |
| MessageStore.Service.PurgeTrash | internal/jobs/scheduler.go:196-229 | deletes trashed messages whose time has come, in the same way |
| Batches.BatchMeaning | internal/jobs/scheduler.go:167 | a batch takes as many due rows as there are up to the limit, longest due first |
| MessageEffects.BindErrorMeaning | internal/messages/attachments.go:51-101 | uploads can be bound exactly if they are distinct, the sender's own, completed, unconsumed and READY |
| MessageEffects.CreateEffect | internal/messages/service.go:97-160 | what a creation comes to, in terms of the tables |
| MessageEffects.DirectEffect | internal/messages/service.go:581-651 | what a direct send comes to |
| MessageEffects.ForwardEffect | internal/messages/service.go:658-752 | what a forward comes to |
| MessageEffects.DecideEffect | internal/messages/service.go:247-574 | for each command: which messages accept it, which fields it sets to what, and that it changes no other |
| MessageEffects.MutateEffect | internal/messages/service.go:209-245 | the same in the tables, with version and time |
| MessageEffects.AttachEffect | internal/messages/attachments.go:180-222 | what adding attachments comes to |
| MessageEffects.DetachEffect | internal/messages/attachments.go:224-262 | what removing one comes to |
| MessageEffects.ExpireEffect | internal/jobs/scheduler.go:156-194 | due are exactly the untrashed TEMPORARY messages past their expiry; they are trashed for the period in force |
| MessageRuns.MessagesStayWellFormed | internal/messages/service.go:54-79 | in every reachable state: TEMPORARY iff expiry, favourite only if PERMANENT, trashed iff purge time, sensitive iff encrypted and no plaintext, some content, existing tags of the owner, distinct display orders |
| MessageRuns.VersionCountsChanges | internal/messages/service.go:227-233 | the version counts the committed changes and so identifies the content |
| MessageRuns.NoLostUpdate | internal/messages/service.go:220-222 | after a committed change every operation still naming the old version is refused |
| MessageRuns.PurgedAfterFullPeriod | internal/jobs/scheduler.go:156-229 | a message is purged only after the trash period in force when it was trashed, uninterrupted |
| MessageRuns.TrashedSince | internal/messages/service.go:418-448 | a trashed message was put there by its owner or by expiry and has stayed since |
| MessageRuns.EditSetsBodyExactly | internal/messages/service.go:284-300 | an accepted edit sets the supplied body exactly when there was one and it is not also cleared |
| MessageRuns.EditCanDropItsBody | internal/messages/service.go:297 | an edit with a body that is accepted and changes nothing |
| Encoding.HashCreate | internal/messages/idempotency.go:54-70 | hashes the encoding that CreateEncodingExact characterises |
| Encoding.HashDirect | internal/messages/idempotency.go:71-82 | hashes an encoding that determines the request |
| Encoding.HashForward | internal/messages/idempotency.go:83-89 | hashes an encoding that determines the request |
| Encoding.DirectInjective | internal/messages/idempotency.go:71-82 | the encoding determines the whole direct send |
| Encoding.ForwardInjective | internal/messages/idempotency.go:83-89 | the encoding determines the whole forward |
| Encoding.CreateEncodingExact | internal/messages/idempotency.go:54-70 | equal exactly when the scalars and sorted tags followed by uploads are equal |
| Encoding.TagOrderIgnored | internal/messages/idempotency.go:61-65 | tags may be permuted |
| Encoding.TagCanPassForUpload | internal/messages/idempotency.go:63-68 | two different creations with one encoding |
| Encoding.CreateInjectiveWithEqualCounts | internal/messages/idempotency.go:54-70 | with equally many tags the encoding determines the creation up to tag order |
| Encoding.FramedPrefix | internal/messages/idempotency.go:31-36 | a length-prefixed value is recognised in front of anything |
| Idempotency.Store.ClaimKey | internal/messages/repository.go:210-237 | finds, refuses or drops the claim under a key |
| Idempotency.Store.Serve | internal/messages/service.go:596-643 | one request has the specified effect and reply |
| Idempotency.RepeatsReplay | internal/messages/repository.go:210-241 | for 24 hours a used key creates nothing: the same request gets the original message, receipt and version, another is refused |
| Idempotency.CreationsAreSpaced | internal/messages/repository.go:224-241 | two creations under one key are at least 24 hours of clock readings apart |
| Idempotency.FreeKeyCreates | internal/messages/repository.go:210-241 | a key without a creation in the last 24 hours creates, or fails if creating fails |
| Idempotency.CreationMeaning | internal/messages/service.go:596-643 | the reply and the stored claim of a creation, times included |
| Idempotency.ReplaysAreOriginal | internal/messages/repository.go:257-268 | a replay comes from an earlier creation with the same key and hash |
| Idempotency.NeverCorrupt | internal/messages/repository.go:257-261 | no stored receipt is ever found invalid |
| Idempotency.DifferentDirectSendRefused | internal/messages/service.go:581-604 | a different direct send under a used key is refused |
| Idempotency.DifferentForwardRefused | internal/messages/service.go:658-676 | a different forward under a used key is refused |
| Idempotency.CreateRefusedExactly | internal/messages/service.go:97-119 | the exact condition for a creation |
| Like.LikePattern | internal/search/query.go:49-61 | builds the escaped pattern |
| Like.PatternMeansContains | internal/search/query.go:49-61 | the pattern matches exactly the strings containing the token, whatever is in it |
| Like.PatternMeansContainsFolded | internal/search/repository.go:52 | the same, case folded |
| Tokens.NormalizeTokens | internal/search/query.go:16-47 | accepts exactly the acceptable lists and reports the first fault otherwise |
| Tokens.CheckMeaning | internal/search/query.go:25-35 | a field passes exactly if it is one word of 2 to 128 characters; otherwise which fault is named |
| Tokens.AcceptableMeaning | internal/search/query.go:16-47 | at most 16 such words, and at most 1024 bytes written with blanks between them |
| Tokens.DedupedKeys | internal/search/query.go:36-41 | deduplication keeps each token once, case aside |
| Tokens.NormalizeIsIdempotent | internal/search/query.go:16-47 | normalizing again changes nothing |
| SearchQuery.BuildQuery | internal/search/repository.go:34-170 | the statement selects exactly the messages in which every token occurs somewhere and all filters hold, whatever the tables contain; each selected message is the owner's, not trashed, and PERMANENT or unexpired, and without tokens and filters exactly those are selected |
| SearchQuery.WantedPlainly | internal/search/repository.go:24-170 | what a query asks for, field by field: visibility, where a token may occur, and each filter |
| SearchQuery.BuildTokens | internal/search/repository.go:41-109 | the same for the token conditions |
| SearchQuery.TokenClauses | internal/search/repository.go:47-108 | the UNION lookup and the row-by-row condition both mean that the token occurs |
| SearchQuery.SameTokens | internal/search/repository.go:41-44 | order and repetition of tokens do not matter |
| SearchService.Search | internal/search/service.go:24-86 | a valid request gets exactly its page of the wanted messages, all of them the owner's and visible; an invalid one the error it deserves |
| SearchService.UniqueTags | internal/search/service.go:53-64 | each tag once, refusing the nil id |
| SearchService.NormalizedMeansSame | internal/search/service.go:34-64 | normalizing a query does not change what it selects |
| Paging.List | internal/users/admin.go:61-83 | a page is the first rows behind the cursor, with a cursor exactly when more remain |
| Paging.PagesAreTheList | internal/messages/service.go:187-197 | following the cursors ends and yields the whole list in order |
| Paging.FirstPageReadsEverything | internal/search/service.go:70-76 | sorted, complete, each row once |
| Keyset.ScanMeaning | sql/generated/messages.sql.go:255-269 | ORDER BY and LIMIT take the first rows in order |
| Listings.ListMessages | internal/messages/service.go:173-207 | the page of the active list or of the trash |
| Listings.ListShowsEachOnce | internal/messages/service.go:173-207 | turning the pages shows each visible message that passes the filter exactly once, newest first, or each trashed one by the time it was trashed |
| Listings.ListUsers | internal/users/admin.go:49-84 | the page of the user list |
| Listings.UsersShownOnce | internal/users/admin.go:49-84 | turning the pages shows each user exactly once, by time of creation |
| Jobs.Backoff | internal/jobs/backoff.go:5-17 | min(30 * 2^(n-1), 1800) seconds |
| Jobs.Repository.Claim | internal/jobs/repository.go:29-40 | claims the job that is due and first by time, creation and id, or none if every PENDING job lies in the future |
| Jobs.WaitsForItsTime | internal/jobs/repository.go:29-40 | along every run a waiting job stays as it is until it is claimed, and that never before its time |
| Jobs.WrittenMeaning | internal/jobs/repository.go:42-121 | completion, last failure, or another try after 30 s, 60 s, ... up to 30 minutes |
| Jobs.Repository.Attempt | internal/jobs/repository.go:42-121 | writes the outcome if the job is RUNNING, otherwise reads whether that was already done |
| Jobs.Repository.Persist | internal/jobs/worker.go:124-144 | however many answers are lost, the row is written exactly once |
| Jobs.Repository.RecoverStuck | internal/jobs/repository.go:127-175 | recovers exactly the jobs running longest of those running for more than 15 minutes, up to the batch: due at once, or failed after eight attempts |
| Jobs.RecoversLongestStuck | internal/jobs/repository.go:136-138 | no job left stuck started before one recovered, and none is left if the batch has room |
| Jobs.AttemptsBounded | internal/jobs/repository.go:29-40 | PENDING has attempts left, RUNNING is at 1 to 8, no job is claimed more than 8 times |
| Jobs.WritesTakeEffectOnce | internal/jobs/worker.go:112-144 | after a write took effect its repetitions change nothing and are answered as done |
| Jobs.LostClaimsAreLost | internal/jobs/repository.go:83-121 | the still-running answer cannot occur with one worker; a lost claim is reported only if the write never took effect |
| Totp.TOTPCode | internal/auth/totp.go:56-72 | the code of section 5.3 of RFC 4226 |
| Totp.StandardExample | internal/auth/totp.go:56-72 | the worked example of section 5.4 of RFC 4226 gives 872921 |
| Totp.FourBytes | internal/auth/totp.go:62-66 | masking and shifting four bytes gives their low 31 bits |
| Totp.Padded | internal/auth/totp.go:71 | exactly so many decimal digits, of that value |
| Totp.ValidateTOTP | internal/auth/totp.go:77-105 | the least unused step whose code matches among the 30-second steps that contain the reading or are next to it (section 5.2 of RFC 6238), or none if there is none |
| TotpLogin.Repository.CompleteTOTPLogin | internal/auth/repository.go:288-330 | claims the step, consumes the challenge and adds the session, or changes nothing |
| TotpLogin.Repository.ClaimTOTPStep | sql/generated/totp.sql.go:23-29 | takes a step only of an enabled enrollment and only if it is later than the last one, and clears failures and lock |
| TotpLogin.Repository.ConsumeTOTPChallenge | sql/generated/totp.sql.go:84-88 | consumes only an unexpired challenge of the same user that nobody consumed |
| TotpLogin.Repository.ConfirmTOTPEnrollment | sql/generated/totp.sql.go:45-57 | enables an enrollment only if it is pending and still the one that was read |
| TotpLogin.AcceptedStepsIncrease | internal/auth/totp_service.go:129-214 | accepted steps strictly increase within an enrollment, the confirming one included |
| TotpLogin.SessionsAreDistinct | internal/auth/repository.go:288-330 | one session per challenge and per step, whatever is in flight together |
| TotpLogin.SessionOrigin | internal/auth/repository.go:288-330 | every session comes from an unexpired, unconsumed challenge of its own user and a later step than any used, after a check of the code for that step on an unlocked row |
| TotpLogin.FailureMeaning | internal/auth/totp_service.go:129-214 | the fifth failure locks the row for exactly five minutes |
| TotpLogin.ConfirmsWhatItValidated | internal/auth/totp_service.go:290-330 | confirmation enables exactly the secret its code was checked against |
| UploadScheduler.Scheduler.Enqueue | web/src/features/uploads/scheduler.ts:10-13 | counts every task started, keeps the limits, starts tasks of a file in order, leaves nothing startable waiting |
| UploadScheduler.Scheduler.Remove | web/src/features/uploads/scheduler.ts:15 | drops exactly the waiting tasks of one file |
| UploadScheduler.Scheduler.Finish | web/src/features/uploads/scheduler.ts:33-38 | frees one slot, of the file and in all, and fills it only with tasks started now, in order |
| UploadScheduler.Scheduler.Drain | web/src/features/uploads/scheduler.ts:19-31 | terminates with nothing startable waiting |
| UploadScheduler.Scheduler.FindIndex | web/src/features/uploads/scheduler.ts:21 | the first startable task |
| UploadScheduler.StartKeepsOrder | web/src/features/uploads/scheduler.ts:21-25 | taking the first startable task keeps every file's order |
| ArchiveNames.Archive.ArchiveName | internal/files/zip.go:64-98 | terminates for every set of used names; the name is new case aside, safe and not reserved: the plain name if that is free, else the one with the least free number before its extension |
| ArchiveNames.Archive.NameAll | internal/files/zip.go:64-98 | any list of files gets pairwise distinct names, case aside |
| ArchiveNames.SuffixedInjective | internal/files/zip.go:93-95 | numbered names differ, case aside |
| ArchiveNames.TriedAll | internal/files/zip.go:93-95 | the loop tries a new name every time, so it cannot try more than are used |
| ArchiveNames.PlainNameKeeps | internal/files/zip.go:64-83 | a proper file name stays what it is and loses any directory in front |
| ArchiveNames.SuffixedIsFine | internal/files/zip.go:84-95 | a number does not make a name reserved |

## Left out

- HTTP handlers, authentication of requests, sessions, settings, audit, realtime events and the user interface: no protocol of their own.
- Thumbnails and other derivatives: `deleteObject` removes them before the object; only their jobs appear, as protection against collection.
- Finalizer slots, the write semaphore, the free-space test of the finalizer and cancellation: each only makes an operation fail, which any operation here may do.
- `cleanupTemps` in Pipeline: testing for an owner and deleting the temp are one step; identifiers are fresh, so no owner can appear in between. Verifying a final object is one step too, since final objects do not change.
- User deletion: appears as removal of the user's uploads and attachments; the deletion of the user's messages, tags and other rows is not modelled.
- Uploads.Server.Complete: does not model the overflow test on the sum of part sizes, which the size of the upload keeps out of reach, because sizes are unbounded there.
- Ownership of uploads: Pipeline and Uploads have no users; a request for somebody else's upload is one for a missing upload.
- Uploads: which operating-system error each failing file operation returns is not modelled; the outcomes are.
- Rows locked by others, which SKIP LOCKED passes over: where runs are concerned any due job may be claimed, and any due messages or stuck jobs may form a batch.
- Messages: source links, device ids and body previews; other parts of the server create tags and change upload rows freely between operations, and only `DeleteTag` deletes a tag.
- Idempotency: the creation itself is abstract there (it succeeds with a receipt or fails); Messages models it.
- The content-type classifier of search: recognising a fenced code block in a body is an arbitrary predicate.
- Invalid UTF-8 in tokens and file names: strings are sequences of characters.
- TotpLogin: a claimed step is not said to have been validated against the secret in force at the claim, because ClaimTOTPStep compares steps only. The login limiter and devices are left out.
- UploadScheduler: a task that calls back into the scheduler while it is being started is not modelled.
