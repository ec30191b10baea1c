# PromptDock relay: a verified model

This project models the stateful core of the PromptDock relay server and proves what it
promises over every run, every schedule and every input:

- **Result pages** (`ResultPages`, `OutboxWorker`, `ResultRuns`, `ResultGuarantees`,
  `ResultRevocation`, `ResultRetention`, `ResultAnswers`, `ResultService`, `SealContext`). The tables `results`,
  `result_shares`, `result_actions` and `notification_outbox` with the statements that change them:
  publish, resend, revoke, body purge, outbox retention, the delivery worker, ingress and the
  schema's trigger on notice status. A run is any sequence of these with any clock readings.
- **Retention** (`RetentionTables`, `RetentionService`, `RetentionBacklogs`). The seven batched
  statements of a round, any of which may fail, and the loop that repeats them.
- **The administrator's list** (`AdminListing`): pages, cursors and state filters.
- **Admin-login grants** (`LoginGrants`, `LoginGrantRuns`, `LoginGrantGuarantees`). The registry
  object, and a state machine in which every call is a thread that moves from one access of shared
  data to the next; a run is any schedule.
- **Device credentials** (`DeviceAuth`, `DeviceRevision`, `TokenFormat`): the lifecycle,
  authentication with interference between its read and its fenced write, the revision byte
  stream, and the token text.
- **The rate limiter** (`RateLimit`), **run-tree validation** (`RunTree`) and **recent message keys**
  (`RecentKeys`).

`Basics` and `Delivery` hold what they share. `dafny verify dfyconfig.toml` checks everything.

How things are modelled:

- A write transaction is one atomic step (SQLite serialises writers). Reads outside a transaction
  are separate steps: between a publication's lookup and its insert, and between an authentication's
  read and its fence, any other transactions may run. A publication's commit may be lost: it takes
  effect and is answered with an error.
- Clock readings, random ids, secrets, cancellation polls and failures are arguments. Ids and secrets are
  drawn fresh; a draw that is not fresh leaves the tables as they were.
- The cipher is ideal: what is sealed under one context opens only under that context
  (`SealContext.AadsDiffer` shows that the bytes of two contexts differ). Hashes are as good as
  what they are taken of.
- `ORDER BY ... LIMIT n` is the set of rows with fewer than `n` rows before them.
- The limiter's arithmetic is exact, over reals.

## What the proofs turned up

- `retention.rs` adds two batch counts and compares the sum with one batch size, so a run can report
  completion with due notices or bundles left, and can ask for another round with nothing left.
  `CombinedCountMisjudges` says exactly when, in terms of the tables a round starts from;
  `MisjudgedBacklogs` shows both at the end of a run from empty tables, in which one device's
  notifications are accepted, expire and grow old. Purged bodies are never counted (`BodiesAfterRounds`).
- A run reports completion exactly when its last round was not full, whether or not that round got to
  its end (`RunOnce`). Cut short at its first poll a round has done nothing, at its second only the
  outbox part, at its third all but selections and confirmations; `CompletionMeans` says which
  tables a reported completion vouches for in each case.
- `resend` inserts with `OR IGNORE`: if the device has already queued a notification under the key
  `result-resend:<row>:<request>`, the resend is recorded and nothing is queued
  (`PreemptedResendIsSwallowed`; `ResendQueuedIff` gives the condition, and `ResendCanBePreempted`
  brings it about from every reachable state with an open page, with a notification that passes
  every check of its ingress route).
- The worker moves a blocked notice to `retry_wait` when it unblocks it, which the domain crate's
  transition relation does not allow; every other move it makes is allowed (`WorkerFollowsDomain`).
- "No grant begins after its device was invalidated" is false for a begin that read the generation
  before the bump and commits after it (`BeginCanOvertakeBump`); `BeginDecides` gives the exact
  condition. A finish and an authorization check have the same window (`FinishCanOvertakeBump`,
  `MatchCanOvertakeBump`); those that read after the bump are refused.
- `finish_consumption` takes any consumption, and ends the grant it names even if no begin handed it
  out. On a grant that is still active this leaves an index entry behind (`MadeUpFinishSpoils`); the
  index is one to one exactly when no such entry is left (`CorrespondsUnlessSpoilt`), and always when
  callers finish only what they were handed (`HandedFinishesKeepTheIndex`).
- The schema's trigger already keeps `results.notification_status` equal to the live notice, so the
  copy before deletion never changes it (`ReportedIsStored`); without the trigger the copy would
  still suffice (`RetentionKeepsReceipts`).
- The limit of 16 conditions on a run and the byte limit on its label never decide
  (`LimitNeverDecides`, `ByteLimitNeverDecides`).

## Model

| member | source | states |
|---|---|---|
| `Basics.FirstNSize` | apps/server/src/retention.rs:164-171 | A batch holds exactly min(rows, limit) rows and only rows of the query |
| `Basics.FilteredBatch` | apps/server/src/retention.rs:191-230 | A row in the first n of the unfiltered order is in the first n of any filtered order that contains it |
| `Basics.BatchSortsFirst` | apps/server/src/retention.rs:164-171 | What is in a batch sorts before every row of the query that is not |
| `Basics.TextLessMeans` | apps/server/src/retention.rs:164-171 | One id sorts before another exactly when, where they first differ, it has the smaller character or has ended |
| `TokenFormat.SymbolIsListed` | apps/server/src/auth.rs:742-745 | The sixty-four symbols are the URL-safe alphabet of RFC 4648 in its order |
| `TokenFormat.PackKeepsNumber` | apps/server/src/auth.rs:742-745 | Three bytes and the four sextets they become spell the same 24-bit number |
| `TokenFormat.HexAt` | apps/server/src/auth.rs:797-803 | The two hexadecimal digits of every byte, the high one first, in lower case |
| `TokenFormat.DecodeEncoded` | apps/server/src/auth.rs:742-745 | base64url without padding: decoding undoes encoding, for byte strings of every length |
| `TokenFormat.EncodeDecoded` | apps/server/src/auth.rs:778-786 | Every text the decoder accepts is the encoding of what it decodes to |
| `TokenFormat.DeviceIdRoundTrip` | apps/server/src/auth.rs:797-803 | The printed form of a UUID parses back to it and contains no dot |
| `TokenFormat.ParsePrinted` | apps/server/src/auth.rs:742-745 | Every printed (device, secret) parses back to itself |
| `TokenFormat.PrintParsed` | apps/server/src/auth.rs:764-795 | Every accepted token is exactly the printing of what it parses to |
| `TokenFormat.TokenIsCanonical` | apps/server/src/auth.rs:764-795 | A text parses to (device, secret) if and only if it is their printing |
| `SealContext.ContextsDiffer` | apps/server/src/results.rs:762-774 | The unseparated associated data of bodies, share tokens and link notices are equal if and only if the contexts are |
| `SealContext.LengthsAreNeeded` | apps/server/src/results.rs:762-764 | That rests on the fixed length of the hash: without it two contexts can have the same bytes |
| `SealContext.Utf8Injective` | apps/server/src/results.rs:762-774 | Two texts with the same UTF-8 bytes are the same text |
| `SealContext.AadsDiffer` | apps/server/src/results.rs:762-774 | Two associated data of the sealed columns have the same bytes if and only if they are the same, barring a collision of their hashes |
| `OutboxWorker.StepsAreLegal` | apps/server/src/outbox/claim.rs:9-144 | No worker statement reopens a finished notice or changes its letter, and a claim is held exactly while sending |
| `OutboxWorker.ExpiryIsExact` | apps/server/src/outbox/claim.rs:46-93 | The two expiry statements take exactly the waiting and blocked notices past their time, and exactly the claimed ones; every other notice stays as it is |
| `OutboxWorker.ClaimIsExact` | apps/server/src/outbox/claim.rs:9-44 | A claim takes the notice it names exactly when it is unexpired and pending past its not-before time or waiting past its next attempt, and counts the attempt |
| `OutboxWorker.RecoveryIsExact` | apps/server/src/outbox/claim.rs:70-114 | Exactly the unexpired claims older than five minutes, or without a time, wait again at once |
| `OutboxWorker.ReleaseIsExact` | apps/server/src/outbox/claim.rs:116-144 | Only the holder of a claim can release it; the attempt is given back, and an expired notice expires |
| `OutboxWorker.ClaimIsExclusive` | apps/server/src/outbox/claim.rs:9-144 | No claim, release or finish with another token changes a claimed notice |
| `OutboxWorker.FinishIsExact` | apps/server/src/outbox/retry.rs:39-151 | What the holder's completion makes of a notice for each outcome: accepted whatever the time, expired, waiting by the schedule of its kind of failure, blocked, or dead; no other notice moves |
| `OutboxWorker.DelaysAgree` | apps/server/src/outbox/retry.rs:109-156 | The schedules: network failures 5 s, 30 s, 2 min, 10 min, 30 min, rate limits 30 s, 2 min, 10 min, then dead; context failures once, then blocked |
| `OutboxWorker.UnblockIsExact` | apps/server/src/outbox/retry.rs:10-37 | Exactly the unexpired notices blocked for the reason given wait again at once |
| `OutboxWorker.RetriesAreInTime` | apps/server/src/outbox/retry.rs:39-151 | A notice that waits after a failed send waits for a time from now on and before it expires, after at most five tries |
| `OutboxWorker.WorkerFollowsDomain` | crates/relay-domain/src/lib.rs:229-257 | Every move of the worker is allowed by the domain relation if and only if it is not an unblock |
| `ResultRuns.PublishInv` | apps/server/src/results.rs:67-176 | A publication keeps all invariants: unique keys, one share per result, ids tied to their row, sealed contents faithful |
| `ResultRuns.ResendInv` | apps/server/src/results.rs:222-299 | A resend keeps all invariants and takes nothing back |
| `ResultRuns.RevokeInv` | apps/server/src/results.rs:389-422 | A revocation, with the trigger it fires, keeps all invariants and takes nothing back |
| `ResultRuns.WorkInv` | crates/relay-storage-sqlite/migrations/001_init.sql:562-579 | Every worker statement with the trigger keeps all invariants, in particular stored status equals live status |
| `ResultRuns.RetentionCommits` | apps/server/src/retention.rs:191-217 | In every reachable state the status copy never writes NULL, so the outbox transaction commits |
| `ResultRuns.ApplyInv` | apps/server/src/results.rs:67-422 | Every step of the system keeps the invariant; results, shares and actions are never deleted or renamed, versions never go back |
| `ResultRuns.RunInv` | apps/server/src/results.rs:67-422 | The same over every run |
| `ResultGuarantees.PublishedPageReadable` | apps/server/src/results.rs:300-351 | In every run an open page of an active owner has a link whose token returns exactly the published body; `ResultAnswers.ReadIsExact` says when it does not |
| `ResultGuarantees.OneResultPerKey` | apps/server/src/results.rs:134-152 | In every run each (device, result id) and each (device, dedupe key) has at most one result, and every result exactly one share with a token of its own |
| `ResultGuarantees.NoLinkOutlivesItsPage` | apps/server/src/results.rs:91-93 | In every run a link notice expires no later than the page it links to |
| `ResultGuarantees.NeverContentUnavailable` | apps/server/src/results.rs:527-535 | `content_unavailable` is never reported at a time no earlier than the last sweep |
| `ResultGuarantees.ReceiptsMoveForward` | apps/server/src/results.rs:504-540 | Page state moves only available to expired or revoked and expired to revoked; the version never decreases; identity is fixed |
| `ResultGuarantees.ReportedIsStored` | crates/relay-storage-sqlite/migrations/001_init.sql:562-579 | The status a receipt reports is the stored one in every reachable state |
| `ResultGuarantees.EveryTransitionIsVisible` | crates/relay-storage-sqlite/migrations/001_init.sql:562-579 | Every change of a current notice is reported by its receipt and strictly raises the version, even within one millisecond |
| `ResultGuarantees.TerminalReceiptIsDurable` | apps/server/src/retention.rs:188-217 | Once a receipt reports a final status it reports that status for ever, until a new resend replaces its notice |
| `ResultGuarantees.ResendIsAnswered` | apps/server/src/results.rs:239-297 | A new request on an open page always finds its first notice, commits, and strictly raises the version |
| `ResultGuarantees.ResendIsIdempotent` | apps/server/src/results.rs:254-261 | A repeated request id changes nothing and answers with the current receipt |
| `ResultGuarantees.ResentTextIsTheSame` | apps/server/src/results.rs:266-289 | The text of every resent notice is the text of the first, sealed for its own id |
| `ResultGuarantees.ResendQueuedIff` | apps/server/src/results.rs:291 | A committed resend queues a notice if and only if its dedupe key was free |
| `ResultGuarantees.PreemptedResendIsSwallowed` | apps/server/src/results.rs:291-295 | If the key was taken the resend is recorded, the receipt names a notice that was never queued |
| `ResultGuarantees.ResendCanBePreempted` | apps/server/src/results.rs:291-295 | From every reachable state with an open page and an unused request id, a plain notification under the resend's key passes the ingress checks unless the key is taken, and the resend after it is recorded without a notice |
| `ResultGuarantees.OneNoticePerRequest` | apps/server/src/results.rs:291-293 | The notification ids ever minted for a result number one plus its distinct resend requests |
| `ResultGuarantees.NoticesEverQueued` | apps/server/src/results.rs:67-297 | In every run the notices ever queued for a result number one plus the resends of it that committed while their key was free |
| `ResultGuarantees.EveryResendIsQueued` | apps/server/src/results.rs:222-297 | In every run whose ingress leaves resend keys alone they number one plus its distinct resend requests |
| `ResultRevocation.RevokeCancels` | apps/server/src/results.rs:412-413 | A revocation cancels exactly the waiting notices of its row: status, next attempt and version, nothing else; claimed, finished and other notices stay as they are |
| `ResultRevocation.RevokeStampsOnce` | apps/server/src/results.rs:402-405 | The first revocation sets the time and strictly raises the version; later ones keep the time |
| `ResultRevocation.RepeatedRevokeIsQuiet` | apps/server/src/results.rs:402-413 | A repeated revocation with nothing waiting changes no row and no notice |
| `ResultRevocation.RevokeTwice` | apps/server/src/results.rs:389-422 | Revoking again right after a revocation changes no row and no notice |
| `ResultRevocation.NoNoticeAfterRevoke` | apps/server/src/results.rs:262-265 | In every run after a revocation no notification id is minted for the result |
| `ResultRevocation.RevokedStaysClosed` | apps/server/src/results.rs:300-351 | In every later state and at every time `public_body` refuses every text that decodes to the page's token, `link` and every new resend by device and result id are refused, and the worker sends none of its notices |
| `ResultRevocation.RunFrozen` | crates/relay-domain/src/lib.rs:221-233 | In every run a finished notice is never queued as anything else |
| `ResultRevocation.CancelledForGood` | apps/server/src/results.rs:412-413 | A notice waiting at the revocation is cancelled and, while it exists, cancelled in every later state |
| `ResultRetention.DeletedIsCopied` | apps/server/src/retention.rs:191-230 | A current notice in the deleted batch is always in the copied batch |
| `ResultRetention.RetentionKeepsReceipts` | apps/server/src/retention.rs:183-242 | One outbox transaction commits and changes no reported status, on any tables whose notification ids are tied to their own result |
| `ResultRetention.OnlyOldFinishedNoticesGo` | apps/server/src/retention.rs:218-230 | Only finished notices past the age for their status are deleted, and none of a page still open |
| `ResultRetention.RunsAreTied` | apps/server/src/retention.rs:191-217 | Reachable tables are tied in that sense |
| `ResultRetention.BudgetHolds` | apps/server/src/results.rs:121-133 | From any state within budget, every run keeps the summed bytes of unpurged bodies within `max_retained_body_bytes` |
| `ResultRetention.RunFromEmptyIsWithinBudget` | apps/server/src/results.rs:121-133 | So does every run from empty tables |
| `ResultRetention.PublishedBodyFits` | apps/server/src/results.rs:85-93 | A new result is within `max_body_bytes`, its page is open for exactly the configured days, and its notice expires within that span |
| `ResultAnswers.ShareTokenIsCanonical` | apps/server/src/results.rs:783-795 | A text decodes to a share token if and only if it is its encoding |
| `ResultAnswers.ReadIsExact` | apps/server/src/results.rs:300-351 | In every reachable state, for every text and time: refused unless the text is the token of a page that is neither revoked nor expired and whose owner is enabled and not revoked; then the published body, or `Unavailable` without a cipher |
| `ResultAnswers.ReadSucceedsIff` | apps/server/src/results.rs:300-351 | From the last sweep on a read succeeds if and only if there is such a page |
| `ResultAnswers.NothingElseIsRead` | apps/server/src/results.rs:300-351 | Even by a clock behind the last sweep, whatever is read is the published body of such a page |
| `ResultAnswers.LinkIsExact` | apps/server/src/results.rs:185-205 | `link`: not found exactly without a result of that device and id, refused exactly when it is revoked or expired, unavailable without a cipher, otherwise the address of its own token |
| `ResultAnswers.SentIffOpen` | apps/server/src/outbox/repository.rs:43-100 | With a cipher the worker sends the text of a link exactly while its page is open, and then the text of that page |
| `ResultAnswers.SentTextCarriesLink` | apps/server/src/results.rs:775-779 | The text begins with the title and ends in the address `link` gives |
| `ResultAnswers.PrepareMeans` | apps/server/src/results.rs:82-93 | The checks before the transaction, in order, with the error of each |
| `ResultAnswers.InsertDecides` | apps/server/src/results.rs:121-164 | The write transaction: over budget, a key that is taken, no owner or a notice that cannot be queued, or published; each exactly when, in this order |
| `ResultAnswers.PublishCommitsIff` | apps/server/src/results.rs:67-176 | A publication changes the tables if and only if it is admissible, within budget, its keys are free and its notice can be queued |
| `ResultAnswers.PublishedRows` | apps/server/src/results.rs:134-164 | The result, share and notice a publication inserts, column by column, and that it changes nothing else |
| `ResultAnswers.RetainedIsStored` | apps/server/src/results.rs:121-126 | What a row counts against the budget is the length of the body it still stores |
| `ResultAnswers.ResendIsExact` | apps/server/src/results.rs:222-299 | A resend's answer in every case: invalid request, no such result, replayed, closed page, no cipher, resent; each exactly when |
| `ResultAnswers.ResentRows` | apps/server/src/results.rs:266-297 | The notice, action and columns a resend writes, and that it writes nothing else |
| `ResultAnswers.ResentNoticeLastsAsThePage` | apps/server/src/results.rs:281-291 | A resent notice expires with its page and goes to the target of the first |
| `ResultAnswers.RevokeIsExact` | apps/server/src/results.rs:389-422 | A revocation's answer exactly, and its action recorded once per request |
| `ResultAnswers.RevokeKeepsOthers` | apps/server/src/results.rs:402-413 | A revocation changes no other result |
| `ResultAnswers.RevokeMovesItsRow` | apps/server/src/results.rs:402-413 | Of its own it changes the first stamp, the version, and the status exactly when it cancels the current notice |
| `ResultAnswers.ReceiptIsExact` | apps/server/src/results.rs:504-540 | Not found exactly without such a result; otherwise every column of the receipt in terms of the row, the time and the current notice |
| `ResultAnswers.TriggerIsExact` | crates/relay-storage-sqlite/migrations/001_init.sql:562-579 | A statement on notices moves a result exactly when it changes its own current notice: to that status, with a later version |
| `ResultService.ExistingMeans` | apps/server/src/results.rs:462-503 | The replay lookup returns the row that holds the publication, a conflict exactly when a row under its keys holds another, nothing exactly when both keys are free |
| `ResultService.ReplayIsTheSameResult` | apps/server/src/results.rs:76-81 | Rows holding one publication of a device at any two moments of a run are one row with one identity |
| `ResultService.PublishedReceiptReadsBack` | apps/server/src/results.rs:165-175 | The receipt of a first publication is the one a replay would read back |
| `ResultService.ResultService.SumRetained` | apps/server/src/results.rs:121-126 | The row-by-row sum is the retained total |
| `ResultService.ResultService.Lookup` | apps/server/src/results.rs:462-475 | Computes the replay lookup |
| `ResultService.OutcomeAnswers` | apps/server/src/results.rs:121-176 | The write transaction's outcome is the one `InsertDecides` gives for the tables it found |
| `ResultService.ResultService.PublishOnce` | apps/server/src/results.rs:67-176 | With any transactions between its reads: a lookup that finds the publication answers with its receipt, one that finds a dispute conflicts, whatever the configuration; with both keys free the answer is that of the first check to fail, and a success exactly if none does; success names the row that holds the publication; an error inserts nothing unless it is that of a lost commit; the second lookup never comes back empty |
| `ResultService.ResultService.Publish` | apps/server/src/results.rs:45-66 | The same over at most four attempts, retried only after a database error; the whole call is a run of the system; every attempt answers for what its lookup found and for the checks after it, and for a result that was there when the call began the first lookup that does not fail answers the replay with its receipt or refuses the differing request |
| `ResultService.CommitIsFound` | apps/server/src/results.rs:52-81 | Whatever follows a commit, even one whose answer was lost, the replay lookup finds its row and answers with its receipt |
| `ResultService.ResultService.Resend` | apps/server/src/results.rs:222-299 | Is the resend step; success returns the receipt of the current notice; it fails exactly when the step is refused, and then changes nothing |
| `ResultService.ResultService.Revoke` | apps/server/src/results.rs:389-422 | Is the revocation step; succeeds exactly for a known row and a valid request id, with the error of each otherwise, and its receipt says revoked |
| `RetentionTables.DoomedSize` | apps/server/src/retention.rs:243-261 | A statement deletes a full batch or everything due, and nothing that is not due |
| `RetentionTables.SweepLeaves` | apps/server/src/retention.rs:265-282 | The due rows left by a statement are those beyond its batch |
| `RetentionTables.BatchTakesFirst` | apps/server/src/retention.rs:164-171 | A batch takes only due rows, five hundred or all of them, and none that stays sorts before one that goes |
| `RetentionTables.BundlesTaken` | apps/server/src/retention.rs:243-261 | Bundles: due exactly when finished and past the age for their status; the first batch by update time goes |
| `RetentionTables.PurgeTakesContents` | apps/server/src/outbox/bundles.rs:27-52 | The first batch of due contents by retention time is purged, every other bundle stays as it is |
| `RetentionTables.InboundTaken` | apps/server/src/retention.rs:265-282 | Inbound commands: due exactly when replied or dead-lettered and past the terminal days, or expired and past the expired days; the first batch by update time goes |
| `RetentionTables.SelectionsTaken` | apps/server/src/retention.rs:284-297 | Selections: due exactly when expired; the first batch by expiry goes |
| `RetentionTables.ConfirmationsTaken` | apps/server/src/retention.rs:298-316 | Confirmations: due exactly when expired and not pending; the first batch by expiry goes |
| `RetentionTables.BundlesSwept` | apps/server/src/retention.rs:243-261 | Bundles: rows deleted, rows due afterwards and table size are in balance |
| `RetentionTables.BundleBodiesLeft` | apps/server/src/outbox/bundles.rs:27-52 | The content purge keeps every bundle and leaves due exactly the bodies beyond one batch |
| `RetentionTables.DueAfterPurge` | apps/server/src/outbox/bundles.rs:33-44 | The bundles due after the content purge are those due before it that it did not touch |
| `RetentionTables.InboundSwept` | apps/server/src/retention.rs:265-282 | The same for inbound commands; `InboundTaken` says which |
| `RetentionTables.SelectionsSwept` | apps/server/src/retention.rs:284-297 | The same for selection contexts |
| `RetentionTables.ConfirmationsSwept` | apps/server/src/retention.rs:298-316 | The same for confirmations that are not pending |
| `RetentionTables.PendingIsNeverDoomed` | apps/server/src/retention.rs:302-310 | A pending confirmation is never taken by its age |
| `RetentionTables.CascadeLeavesNoOrphans` | crates/relay-storage-sqlite/migrations/001_init.sql:469 | The confirmations that go with deleted commands are exactly those that refer to them |
| `RetentionService.NoticesSwept` | apps/server/src/retention.rs:218-242 | The same for notices |
| `RetentionService.NoticesTaken` | apps/server/src/retention.rs:218-242 | Notices: due exactly when finished, past the age for their status and not of an open page; the first batch by update time goes and every other notice stays as it is |
| `RetentionService.PurgeTakesBodies` | apps/server/src/retention.rs:164-178 | Bodies: the first batch past their time loses body and gains the time of purging; no other row or column changes |
| `RetentionService.OutboxKeeps` | apps/server/src/retention.rs:164-242 | The purge and the outbox transaction of a round keep the invariant and every reported status |
| `RetentionService.OutboxCountsWhatGoes` | apps/server/src/retention.rs:163-263 | The count of a round's outbox part is one batch of due notices plus one of due bundles the purge does not touch, and with what is due afterwards makes up what was due before |
| `RetentionService.CombinedCountMisjudges` | apps/server/src/retention.rs:163-263 | For the tables a round starts from: exactly when the combined count says "no more" with due rows left, and exactly when it says "more" with none |
| `RetentionBacklogs.LapsedAreDue` | apps/server/src/outbox/ingress.rs:182-225 | After the run in which a device sends any list of valid notifications with distinct ids and they expire and grow old, exactly those are due |
| `RetentionBacklogs.OverflowIsMissed` | apps/server/src/retention.rs:163-263 | More than 500 of them beside one old bundle whose content an earlier round purged: the round says "no more" and due rows stay |
| `RetentionBacklogs.FullBatchAsksForMore` | apps/server/src/retention.rs:163-263 | Exactly 500 of them and no bundle: the round asks for another with nothing left |
| `RetentionBacklogs.MisjudgedBacklogs` | apps/server/src/retention.rs:163-263 | Both happen, for any device, time and number from 501 to 10,000, with ids and row ids written out |
| `RetentionService.BodiesAfterRounds` | apps/server/src/retention.rs:164-178 | After rounds at one time the bodies still due are those beyond one batch per round, whatever the counts say |
| `RetentionService.PartsMakeRound` | apps/server/src/retention.rs:138-161 | A whole round deletes what it reports, leaves the chat tables drained unless a batch was full, and the outbox drained if its count is below one batch |
| `RetentionService.CompletionMeans` | apps/server/src/retention.rs:119-131 | Which tables a last round that was not full has drained, by the poll that cut it short if one did, both ways: the chat tables, and the outbox exactly when neither of its tables exceeded a batch |
| `RetentionService.RetentionService.DeleteOutboxAt` | apps/server/src/retention.rs:163-263 | Which notices, bundles, contents and bodies go, row by row, and that the rest stay; the accounting, and exactly when the outbox is drained; if one of its statements fails, what those before it did |
| `RetentionService.RetentionService.DeleteInboundAt` | apps/server/src/retention.rs:265-282 | Which commands go, by status, age and order, and that the rest stay; the accounting; exactly the confirmations that refer to deleted ones go with them |
| `RetentionService.RetentionService.DeleteSelectionsAt` | apps/server/src/retention.rs:284-317 | Which selections and confirmations go, and that the rest stay, or selections alone if the second statement fails; the accounting; no pending confirmation goes |
| `RetentionService.RetentionService.RunRoundAt` | apps/server/src/retention.rs:138-161 | A round with its three cancellation polls and seven statements: it fails exactly when it reaches the statement that does; for each poll and each failure, the parts it did, what they deleted and left, and the tables it did not touch |
| `RetentionService.RetentionService.RunOnce` | apps/server/src/retention.rs:100-136 | Terminates; fails exactly when a statement of its last round does; otherwise reports completion exactly when it had a round and its last one was not full, and if not was cancelled before the next; the last round did what its polls let it; a whole last round leaves no inbound command, selection or settled confirmation due; a run no poll cut short under one clock reading deletes exactly the commands, selections and, unless its last count was misjudged, notices that were due, and no bundle that was not, as long as no u64 counter can saturate; every reported status is kept, even by a run that fails |
| `AdminListing.ListPage` | apps/server/src/results.rs:352-388 | A page is given exactly for limits 1 to 100, is never longer than the limit, and has a cursor only when full |
| `AdminListing.CursorMeansMore` | apps/server/src/results.rs:374-386 | A cursor is given exactly when a wanted row is left, so no page it leads to is empty |
| `AdminListing.FollowListsTheRest` | apps/server/src/results.rs:364-387 | From any cursor the pages together are exactly the rows past it in descending order |
| `AdminListing.PagesListEveryRowOnce` | apps/server/src/results.rs:352-388 | From the first page, following cursors terminates and lists every wanted row once, newest first |
| `AdminListing.FiltersAgreeWithReceipts` | apps/server/src/results.rs:366 | A state filter selects a row if and only if its receipt reports that state |
| `AdminListing.FiltersPartition` | apps/server/src/results.rs:366 | The four filters partition the rows |
| `LoginGrants.WellFormedMeans` | apps/server/src/wechat_admin_login.rs:296-312 | A grant token is accepted for lookup if and only if it is the encoding of some 32 bytes |
| `LoginGrants.CleanupTakes` | apps/server/src/wechat_admin_login.rs:533-542 | Cleanup takes exactly the expired grants; the others stay as they were |
| `LoginGrants.InsertTakes` | apps/server/src/wechat_admin_login.rs:270-285 | A new grant takes the place of exactly the expired ones and its device's active one |
| `LoginGrants.CancelTakes` | apps/server/src/wechat_admin_login.rs:374-384 | Cancelling takes exactly the expired grants and the named one if it is the caller's and active |
| `LoginGrants.SweepTakes` | apps/server/src/wechat_admin_login.rs:386-396 | An invalidation takes exactly the device's grants and index entry; every other device's stay as they were |
| `LoginGrants.CleanupIndexed` | apps/server/src/wechat_admin_login.rs:533-542 | Cleanup makes active grants and index one to one, whatever entries were spoilt |
| `LoginGrants.InsertIndexed` | apps/server/src/wechat_admin_login.rs:270-285 | Replacing a device's active grant keeps index and active grants together and spoils no entry |
| `LoginGrants.CancelIndexed` | apps/server/src/wechat_admin_login.rs:374-384 | Cancelling makes them one to one |
| `LoginGrants.GrantRegistry.Issue` | apps/server/src/wechat_admin_login.rs:239-291 | The new grant is the device's only active one, of its current generation, and no spoilt entry is left; exactly the expired grants and the one it replaces go; each error exactly when its own check is the first to fail, and then nothing changes |
| `LoginGrants.GrantRegistry.BeginConsume` | apps/server/src/wechat_admin_login.rs:293-346 | Succeeds exactly for the token of a live active grant of the current generation and epoch, and hands out its consumption; that grant is consuming, exactly the expired go, the others stay as they were |
| `LoginGrants.GrantRegistry.FinishConsumption` | apps/server/src/wechat_admin_login.rs:348-370 | Consumed exactly when everything still holds, otherwise failed; no other grant changes; the index is one to one afterwards exactly when it was before and the grant was not active, and an active grant is spoilt |
| `LoginGrants.GrantRegistry.CancelOwned` | apps/server/src/wechat_admin_login.rs:374-384 | Exactly the expired grants and the named one, if it is the caller's and active, go; one to one whatever was spoilt before |
| `LoginGrants.GrantRegistry.InvalidateDevice` | apps/server/src/wechat_admin_login.rs:386-396 | The device's grants and index entry are gone and its generation is one higher, modulo the word size; every grant, index entry and generation of every other device is as it was |
| `LoginGrants.AuthorizedUntilInvalidated` | apps/server/src/wechat_admin_login.rs:386-407 | What a check accepts it accepts, whatever other devices are invalidated, until its own device is, and again only after 2^64 times; a closed registry accepts nothing |
| `LoginGrants.GrantRegistry.Clear` | apps/server/src/wechat_admin_login.rs:412-418 | Closed, empty, next epoch |
| `LoginGrantRuns.StepInv` | apps/server/src/wechat_admin_login.rs:239-418 | Every step of every thread, finishing any consumption at all, keeps the lock discipline, the index but for spoilt entries, the grants' birth generations, single use, and what each thread has read |
| `LoginGrantRuns.RunInv` | apps/server/src/wechat_admin_login.rs:239-418 | The same over every schedule |
| `LoginGrantGuarantees.OneActiveGrantPerDevice` | apps/server/src/wechat_admin_login.rs:270-285 | In every schedule a device has at most one active grant, and its index entry names it |
| `LoginGrantGuarantees.EveryGrantHasItsFate` | apps/server/src/wechat_admin_login.rs:239-418 | In every schedule each step takes a grant if and only if it expired, is replaced, cancelled, invalidated, consumed or cleared by that very step, moves its state if and only if the step begins or finishes it, and otherwise leaves it as it was |
| `LoginGrantGuarantees.OthersKeepTheirGrants` | apps/server/src/wechat_admin_login.rs:386-396 | In every schedule an invalidation leaves the grants and index entries of other devices as they were |
| `LoginGrantGuarantees.CorrespondsUnlessSpoilt` | apps/server/src/wechat_admin_login.rs:270-370 | In every schedule active grants and index correspond one to one if and only if no index entry names a grant that a finish ended while it was active |
| `LoginGrantGuarantees.HandedFinishesKeepTheIndex` | apps/server/src/wechat_admin_login.rs:348-370 | In every schedule whose finishes are of consumptions that were handed out they correspond one to one |
| `LoginGrantGuarantees.MadeUpFinishSpoils` | apps/server/src/wechat_admin_login.rs:348-370 | A schedule in which a made-up consumption ends an active grant and leaves its index entry behind |
| `LoginGrantGuarantees.UsedAtMostOnce` | apps/server/src/wechat_admin_login.rs:320-370 | In every schedule a grant is begun at most once and finished successfully at most once, after it was begun |
| `LoginGrantGuarantees.GrantsAreOfEpochZero` | apps/server/src/wechat_admin_login.rs:264-269 | In every schedule every grant and consumption carries epoch zero |
| `LoginGrantGuarantees.BeginDecides` | apps/server/src/wechat_admin_login.rs:320-335 | Exactly when a begin succeeds: token, state, expiry, epoch zero, and invalidations between the two generation reads a multiple of 2^64 |
| `LoginGrantGuarantees.FinishDecides` | apps/server/src/wechat_admin_login.rs:353-370 | Exactly when a finish of any consumption succeeds: handed out, grant consuming and unexpired, open, epoch zero, invalidations a multiple of 2^64; the comparisons with the grant's own fields decide only whether it was handed out |
| `LoginGrantGuarantees.CheckDecides` | apps/server/src/wechat_admin_login.rs:398-407 | Exactly when an authorization check passes: open, then a generation that agrees with the invalidations modulo 2^64, then the epoch |
| `LoginGrantGuarantees.StaleGrantNeverBegins` | apps/server/src/wechat_admin_login.rs:326-335 | With fewer than 2^64 invalidations, no call that starts after one begins an older grant, even one inserted after the sweep |
| `LoginGrantGuarantees.StaleConsumptionNeverFinishes` | apps/server/src/wechat_admin_login.rs:353-370 | Nor finishes an older consumption, and none finishes that was not handed out |
| `LoginGrantGuarantees.StaleAuthorizationNeverMatches` | apps/server/src/wechat_admin_login.rs:398-407 | Nor passes a check on what an older consumption carries |
| `LoginGrantGuarantees.PassesReadWhatTheyCarry` | apps/server/src/wechat_admin_login.rs:320-407 | Every recorded success read, after its start, the generation it succeeded on |
| `LoginGrantGuarantees.ClearedForGood` | apps/server/src/wechat_admin_login.rs:412-418 | After a clear returns, whatever was in flight, the registry stays empty and no grant is issued, begun, finished or matched |
| `LoginGrantGuarantees.BeginCanOvertakeBump` | apps/server/src/wechat_admin_login.rs:386-396 | A schedule in which a begin that read before a bump is about to commit after it |
| `LoginGrantGuarantees.FinishCanOvertakeBump` | apps/server/src/wechat_admin_login.rs:348-396 | A schedule in which a finish that read before a bump is about to succeed after it |
| `LoginGrantGuarantees.MatchCanOvertakeBump` | apps/server/src/wechat_admin_login.rs:386-407 | A schedule in which a check that read before a bump is about to pass after it |
| `DeviceRevision.StreamInjective` | apps/server/src/auth.rs:907-937 | The bytes fed to the revision hash are equal if and only if device, hash, version, enabled flag, revocation time and scope set are |
| `DeviceRevision.ListedCounts` | apps/server/src/auth.rs:930 | The scopes listed number the size of the scope set |
| `DeviceRevision.FeedScopes` | apps/server/src/auth.rs:931-935 | The loop appends exactly the length-prefixed scopes in set order |
| `DeviceRevision.FeedRevision` | apps/server/src/auth.rs:915-936 | The updates of the hasher, in order, are the specified stream |
| `DeviceAuth.TrimTakesEnds` | apps/server/src/auth.rs:805-811 | A name is trimmed of white space at its ends and of nothing else |
| `DeviceAuth.VerdictMeans` | apps/server/src/auth.rs:301-350 | A text authenticates if and only if it is the printed token of an enabled, unrevoked device with its stored secret, and then as that device; it is told of a revocation if and only if that device is not so |
| `DeviceAuth.LeaseMeans` | apps/server/src/auth.rs:481-552 | Each answer of a lease exactly when: active, disabled, missing, and revoked otherwise |
| `DeviceAuth.RunInv` | apps/server/src/auth.rs:40-299 | Over every run: enabled implies unrevoked, scopes are never empty, hashes are unique, the first revocation time is kept, last-seen moves forward by at least a minute |
| `DeviceAuth.SeenWithinAMinute` | apps/server/src/auth.rs:358-368 | After an authentication the recorded time is less than a minute old, and is rewritten only to the present |
| `DeviceAuth.RotatedOutForGood` | apps/server/src/auth.rs:79-172 | A rotated-out token is unauthorized in every later state |
| `DeviceAuth.RotationRetires` | apps/server/src/auth.rs:79-121 | A rotation of an enabled, unrevoked device to some scope retires the old secret; the new token authenticates with exactly the new scopes |
| `DeviceAuth.PreservingRotationRetires` | apps/server/src/auth.rs:129-172 | The same with scopes and enabled flag unchanged |
| `DeviceAuth.RevokedForGood` | apps/server/src/auth.rs:237-299 | A revoked device keeps its first time, never authenticates and never yields an active lease, in every later state |
| `DeviceAuth.RevokedIsToldToHolders` | apps/server/src/auth.rs:336-350 | The revoked answer is given only to a holder of the stored secret |
| `DeviceAuth.LeaseAgreesIffUnchanged` | apps/server/src/auth.rs:481-552 | An authenticated revision and a later active lease agree if and only if hash and scopes are unchanged |
| `DeviceAuth.LeaseFollowsAuthentication` | apps/server/src/auth.rs:448-466 | The fence's own write does not change the revision: a lease read next agrees |
| `DeviceAuth.DeviceAuthService.CreateDevice` | apps/server/src/auth.rs:40-77 | Succeeds exactly for a name of 1 to 80 characters and some scope, with the error of each otherwise; the new row column by column, no other changes; the token returned authenticates |
| `DeviceAuth.DeviceAuthService.RotateDevice` | apps/server/src/auth.rs:79-121 | Succeeds exactly for some scope and the printed id of a known device that is enabled and not revoked, with the error of each refusal; the secret, its version and time and the scopes of that row change and nothing else; the token returned is that of the new secret |
| `DeviceAuth.DeviceAuthService.RotatePreservingScopes` | apps/server/src/auth.rs:129-172 | Succeeds exactly for the printed id of a known device that is not revoked, with the error of each refusal; the secret, its version and time change and nothing else; the scopes returned are those stored |
| `DeviceAuth.DeviceAuthService.RevokeDevice` | apps/server/src/auth.rs:237-260 | Fails exactly for a malformed or unknown id; the row is disabled and keeps its first revocation time, no other changes; afterwards no lease is active |
| `DeviceAuth.DeviceAuthService.SetDeviceEnabled` | apps/server/src/auth.rs:265-299 | Refused exactly for a malformed or unknown id and when enabling a revoked device; only the flag of that row changes |
| `DeviceAuth.DeviceAuthService.FencedTransaction` | apps/server/src/auth.rs:352-466 | Answers exactly what the committed state says of the credential; all it changes is the time the device was last seen |
| `DeviceAuth.DeviceAuthService.Authenticate` | apps/server/src/auth.rs:301-467 | Linearizable: with any transactions in between, the answer is the verdict of the state first read or of the state the fence saw, and a success is the latter's; all it changes itself is the time last seen |
| `RateLimit.TokensAreTheTightestRoom` | apps/server/src/rate_limit.rs:172-187 | The tokens a call finds equal the room left by the tightest window ending at it |
| `RateLimit.AdmittedIffEveryWindowFits` | apps/server/src/rate_limit.rs:172-187 | A call is admitted if and only if one more fits every window ending at it |
| `RateLimit.WindowBound` | apps/server/src/rate_limit.rs:172-187 | Over any span of effective time, readings in any order, admitted calls are at most capacity plus rate times span |
| `RateLimit.WaitIsExact` | apps/server/src/rate_limit.rs:182-186 | After a refusal a call succeeds if and only if it reaches the effective time plus the wait |
| `RateLimit.PollingDoesNotDelay` | apps/server/src/rate_limit.rs:172-187 | Asking again too early does not move the moment of success |
| `RateLimit.BurstThenWait` | apps/server/src/rate_limit.rs:10-43 | Calls that come all at once are admitted up to 20, 40, 5 and 5 for the four operations, and the rest told to wait 1, 0.5, 6 and 6 seconds |
| `RateLimit.Consume` | apps/server/src/rate_limit.rs:172-187 | The refilled and spent bucket and its answer |
| `RateLimit.LocalRateLimiter.Check` | apps/server/src/rate_limit.rs:137-149 | Every bucket is what its own readings make it; other buckets are untouched; the answer is that of the history |
| `RunTree.CheckConditions` | crates/relay-transport-gateway/src/run.rs:275-287 | Accepts exactly at most 16 conditions without repetition |
| `RunTree.LimitNeverDecides` | crates/relay-transport-gateway/src/run.rs:275-278 | The limit of 16 is implied by having no repetition |
| `RunTree.ByteLimitNeverDecides` | crates/relay-transport-gateway/src/run.rs:316-320 | The byte limit of a label is implied by its character limit |
| `RunTree.ValidateNode` | crates/relay-transport-gateway/src/run.rs:244-272 | Accepts exactly the subtrees that fit the remaining depth and count; the counter moves by the node count and never overflows |
| `RunTree.ValidateTree` | crates/relay-transport-gateway/src/run.rs:221-226 | Accepts exactly at most 100 nodes, depth at most 4, every node locally valid |
| `RunTree.NamespacesMeanEveryNode` | crates/relay-transport-gateway/src/protocol.rs:874-882 | The namespace walk accepts exactly when every node has a `run_` handle |
| `RunTree.ValidateTreeResponse` | crates/relay-transport-gateway/src/protocol.rs:780-785 | Both together accept exactly the trees of at most 100 nodes and depth at most 4 whose every node has a `run_` handle, a safe label, consistent counts, no condition twice, and an outcome exactly when finished |
| `RecentKeys.LatestMoves` | crates/wechat-ilink/src/credentials.rs:67-74 | Seeing a key moves it to the end of the order of latest occurrences |
| `RecentKeys.BoundedFollows` | crates/wechat-ilink/src/credentials.rs:67-82 | The bounded update and the unbounded order agree on the last 256 keys |
| `RecentKeys.RemoveKey` | crates/wechat-ilink/src/credentials.rs:67-73 | Finds and removes the first occurrence |
| `RecentKeys.SessionSecrets.RememberMessageKey` | crates/wechat-ilink/src/credentials.rs:62-83 | The list stays the last 256 of the accepted history by latest occurrence; a key is accepted exactly when non-empty and at most 256 bytes |
| `RecentKeys.SessionSecrets.CheckKeys` | crates/wechat-ilink/src/credentials.rs:87-100 | The key checks of `validate` |
| `RecentKeys.SessionSecrets.ListIsSound` | crates/wechat-ilink/src/credentials.rs:87-100 | A remembered list has no key twice and passes those checks |

## Left out

- RateLimit.WaitIsExact: exact arithmetic; the rounding of `f64` and of `Duration::from_secs_f64` is not modelled.
- OutboxWorker.ClaimIsExact: the claim may name any claimable notice; the order in which `claim_next_at` picks one (priority, due time, creation) is not modelled.
- RetentionService.RetentionService.RunOnce: no other transaction runs between the statements of a run; what other transactions and retention do to each other is in the runs of `ResultRuns`.
- SQLite itself, WAL checkpoints, migrations and backups: the engine is taken to serialise write transactions and to enforce the schema's keys.
- The strength of the ciphers and hashes, constant-time comparison and zeroization.
- The access registry of started logins, notification bundles beyond their retention, bundle segments and inbound command handling.
- `list_devices`, `is_device_enabled`, display-name sanitising, result metadata and admin detail views: projections that would only add easy members.
- HTTP routes, configuration loading, telemetry, HTML rendering, the web console and the desktop client.
- Run summaries, run pages and the other protocol frames: field checks of the same kind as a tree node's.
