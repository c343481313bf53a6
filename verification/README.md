# Verified model of Brook's client core

Brook's core keeps, on each device, a replica of the server's chat state, a durable queue of outgoing
messages, and one actor per voice call. This project models those three in Dafny and proves what they
are built to keep, over whole runs.

- **The cache replica** (`Tables`, `FileRows`, `Apply`, `ApplyInvariants`, `ApplyLaws`, `Replay`,
  `Convergence`, `Coverage`, `History`, `RangeSoundness`, `CoverageRuns`, `CoverageTheorems`,
  `CoverageLaws`, `EarlyHistory`, `FileCache`, `FileCacheRuns`, `FileLaws`, `SyncFlight`). The SQL
  tables are maps. A transaction is a `Tx` object whose fields the methods change row by row, in loops
  over a batch's vectors as the source does; each method is proved to do what a function on the
  tables' value (`Db`) says, and the properties are proved of those functions and of every run of them.
- **The outbox** (`Outbox`, `OutboxRuns`, `OutboxInvariants`, `OutboxTheorems`, `OutboxLaws`). The
  transactions are methods of a `Store`. One channel's sender, Retry, Delete and direct sends run as a
  state machine over those transactions, against an idempotent server that may lose answers, with
  restarts, failed writes and sign-outs between any two steps.
- **The call actor** (`Call`, `CallTask`, `CallInvariants`, `CallParts`, `CallVersions`,
  `CallTheorems`, `CallLaws`, `CallOutcomes`). Each handler is a method of a `Task`, proved against its
  function on the call state; what was started and not handled yet is history in that state.

How the pieces are stated:

- A message's JSON is reduced to what the cache reads or rewrites: body, `deleted_at`, the two marks
  made here from a live delete, reply target, quote, files. Ids are opaque; message ids are ordered by
  creation (UUIDv7, section 5.7 of RFC 9562). The source's `seq` is called `stamp`.
- A run is a list of states or of actions, each enabled where it happens; theorems hold for every one.
- The `*Laws` modules and `CallOutcomes` measure each operation against its input: the rows, actions and messages as they
  came and the tables as they lie, with none of the functions that compute the result. They say what
  must happen (a removal takes effect, a range grows, a message goes out, a candidate is given), where
  the invariants say what must not.
- The server is its contract. For coverage: ids grow with creation, a deleted message stays deleted, a
  history page is the newest `limit` survivors below `before` at one instant, and a completed sync at
  cursor C has brought every surviving message created after the channel's starting point and up to C.
  A starting point is fixed by the first completed sync and moves only with a removal or a reset. For
  the outbox: the first message sent under a client id is stored, an acknowledgement means it is, and a
  stored message is never refused for its reply target or its files.
- A batch's `left` never names the caller (the field's documented meaning); a message belongs to one
  channel; the server marks a deletion by `deleted_at` only.

Three properties turned out to have a limit; each comes with the exact condition under which the code
meets it, both ways:

- Coverage. Asking for a page keeps coverage sound, whatever happens afterwards, exactly if a sync has
  completed since the store was made or reset, or the page isn't the newest one
  (`EarlyHistory.AskStaysSoundIff`). A newest page asked for before that can land as the whole channel
  and hide a message (`EarlyHistory.EarlyAskGoesWrong`). Runs with such requests are still covered as
  long as no newest page records coverage before a completed sync or from before its channel's
  starting point (`CoverageRuns.CoverageIsSound`).
- Subscribe versions. The engine applies each version once and in order exactly in the runs that never
  meet a late offer: one newer than what is acknowledged but not than the newest applied, whose answer
  isn't kept, while nothing is being applied (`CallTheorems.VersionsIncreaseIff`). Offers that come in
  order, none again after its answer was refused, are never late (`CallTheorems.VersionsApplyOnce`).
- Replay. Applying any batch twice is applying it once exactly in the states where no departure of the
  caller's own lies more than one above its channel's removal floor (`Replay.ReplaysAlikeIff`). Every
  sequence of batches leads to such a state (`Replay.ReplayAfterAnyBatches`).

Two departures of the code from its documentation are modelled as the code has them: on a conflict a
stored message keeps its channel whatever the new row says, and an accepted row of the outbox does
fail when the acknowledgement echoes another id (`OutboxTheorems.AcceptedStays` says exactly when).

## Model

| member | source | states |
|---|---|---|
| Apply.Apply | core/src/apply.rs:99-271 | the loops over a batch do exactly its row operations, in phase order |
| Apply.ApplyOwnMembers | core/src/apply.rs:102-118 | the caller's own rows, first: above an active fence one clears it, at or below it is stale |
| Apply.ApplyRemovals | core/src/apply.rs:120-144 | a removal takes effect only above the caller's own membership and the last removal |
| Apply.ApplyChannels | core/src/apply.rs:149-156 | channel rows above the fence and the stored row |
| Apply.ApplyOtherMembers | core/src/apply.rs:157-164 | other members above the fence and the stored row |
| Apply.ApplyDepartures | core/src/apply.rs:165-182 | a departure is recorded even of a member never cached |
| Apply.ApplyUsers | core/src/apply.rs:183-187 | users through the per-row guard |
| Apply.UpsertMembership | core/src/apply.rs:342-350 | true exactly if the row is new or newer; then it is stored as present |
| Apply.RemoveChannelRows | core/src/apply.rs:393-404 | the channel's row, messages, members, coverage and file index go together |
| Apply.MayStore | core/src/apply.rs:277-287 | whether a message row may be stored: present, above the fence, above the floor unless history |
| Apply.UpsertMessage | core/src/apply.rs:202-209 | true exactly if new, newer, or the server's version of a partial row; a stored row keeps its channel |
| Apply.RefreshExcerpts | core/src/apply.rs:292-321 | every reply quoting the target follows it, and nothing else changes |
| Apply.SettleOwnQuote | core/src/apply.rs:224-236 | a reply landing after its target was deleted takes the deleted quote |
| Apply.DeliverOne | core/src/apply.rs:190-238 | one message row: floor, guard, index, quotes |
| Apply.ApplyMessages | core/src/apply.rs:189-238 | all message rows, each under the floor its page was asked under |
| Apply.BuryOne | core/src/apply.rs:239-269 | a live delete patches the row or leaves a partial one, and drops its files |
| Apply.ApplyTombstones | core/src/apply.rs:239-269 | all live deletes, last |
| Apply.RunAppend | core/src/apply.rs:99-271 | applying two lists of rows in turn is applying them as one |
| FileRows.DropFiles | core/src/file_rows.rs:112-131 | rows that were cached go and are journalled, no others |
| FileRows.IndexMessage | core/src/file_rows.rs:37-61 | a message lists exactly these files now; those it no longer lists are dropped |
| FileRows.DropMessage | core/src/file_rows.rs:64-78 | all files of a message leave index and cache |
| FileRows.DropChannel | core/src/file_rows.rs:81-95 | all files of a channel leave index and cache |
| FileRows.DropAll | core/src/file_rows.rs:99-108 | after a reset every file goes, listed or not |
| ApplyLaws.RemovalTakesEffect | core/src/apply.rs:120-144 | a removal above the caller's active row and the last removal puts the fence up and leaves no row of the channel in any table; any other changes nothing |
| ApplyLaws.RemovalInBatchHolds | core/src/apply.rs:99-144 | a removal above the caller's stored row and the batch's own rows leaves a floor of at least its stamp, whatever else the batch holds |
| ApplyLaws.MembershipLands | core/src/apply.rs:102-118 | exactly the new or newer rows not behind a removal are stored as present; the caller's own lifts the fence and leaves the floor |
| ApplyLaws.ChannelRowLands | core/src/apply.rs:149-156 | exactly the new or newer channel rows not behind a removal are stored |
| ApplyLaws.UserRowLands | core/src/apply.rs:183-187 | exactly the new or newer user rows are stored |
| ApplyLaws.DepartureLands | core/src/apply.rs:165-182 | a departure above the member's row, or of one never cached, is remembered with its stamp; an older one changes nothing |
| ApplyLaws.DeliveredRow | core/src/apply.rs:190-209 | exactly when a row goes in, and what is then stored: its content but for the quote, and the channel it first came with |
| ApplyLaws.DeliveredQuotes | core/src/apply.rs:292-321 | what each other message quotes afterwards: the deletion, the first 140 characters of a live edit, or what it did |
| ApplyLaws.DeliveredOwnQuote | core/src/apply.rs:224-236 | a delivered reply quotes the deletion exactly if its stored target is deleted, else what it came with |
| ApplyLaws.BuriedRow | core/src/apply.rs:239-263 | what a live delete leaves of a newer, an older and an unknown message |
| ApplyLaws.BuriedQuotes | core/src/apply.rs:264-264 | every reply to it quotes the deletion, no other row moves |
| ApplyLaws.MessageIndexed | core/src/file_rows.rs:37-61 | a stored version's files are listed under its message and no others are; exactly the files it stopped listing are dropped and journalled |
| ApplyLaws.MessageUnindexed | core/src/file_rows.rs:64-78 | exactly the files listed under a message leave index and cache, journalled |
| ApplyLaws.ChannelUnindexed | core/src/file_rows.rs:81-95 | exactly the files listed under a channel leave index and cache, journalled |
| ApplyLaws.AllUnindexed | core/src/file_rows.rs:99-108 | every listing and every row goes, each row journalled |
| ApplyLaws.RowsMoveFiles | core/src/apply.rs:210-268 | exactly the rows that go in are indexed, and exactly deletes and removals that take effect drop files |
| ApplyLaws.EveryRowIsApplied | core/src/apply.rs:99-271 | a batch's operations are its rows, all of them, each of its own kind |
| ApplyInvariants.FencesStep | core/src/apply.rs:104-209 | while a removal fence is up the caller is no active member and every shown row of the channel is newer than the removal |
| ApplyInvariants.QuotesStep | core/src/apply.rs:200-269 | a stored reply to a stored, deleted message shows none of its words, whatever arrives |
| ApplyInvariants.QuotesDelivered | core/src/apply.rs:200-237 | the same for a delivered row: target, reply, edit or history page |
| ApplyInvariants.QuotesBuried | core/src/apply.rs:239-264 | the same for a live delete |
| ApplyInvariants.FilesListedStep | core/src/file_rows.rs:37-131 | every cached file is listed and every listing names a stored message of that channel listing the file |
| ApplyInvariants.JournalsRun | core/src/file_rows.rs:112-131 | every run of row operations journals each file row it drops |
| ApplyInvariants.HealthyRun | core/src/apply.rs:99-271 | fences, quotes, file index and own membership hold after every run of row operations |
| ApplyInvariants.HealthyApplied | core/src/apply.rs:99-271 | and after every batch |
| ApplyInvariants.FloorStep | core/src/apply.rs:190-199 | a message at or below the floor was there before, or was just fetched from history |
| ApplyInvariants.FloorOrigin | core/src/apply.rs:277-287 | in every run, a stored message at or below the floor came from a history page asked for since that removal |
| Replay.SettledAbsorbs | core/src/apply.rs:99-271 | a row that was applied changes nothing if applied again |
| Replay.StaysSettled | core/src/apply.rs:99-271 | and stays so under every row that may follow it in a batch |
| Replay.RunSettles | core/src/apply.rs:99-271 | after a batch all its rows are settled |
| Replay.ReplayChangesNothing | core/src/apply.rs:99-271 | applying a batch twice is applying it once, wherever own departures are low: memberships, fences, rows, tombstones, quotes, file index |
| Replay.ReplayAfterAnyBatches | core/src/sync.rs:5-8 | replaying a page is idempotent in every state batches lead to |
| Replay.ReplayAfterOwnDeparture | core/src/apply.rs:120-144 | in every other state: the batch whose replay lifts the fence it made |
| Replay.ReplaysAlikeIff | core/src/apply.rs:99-271 | every batch replays alike exactly if no own departure is more than one above its floor |
| Convergence.EndsAsTop | core/src/apply.rs:190-269 | in a channel that stays, each message ends as its highest delivered version |
| Convergence.TopIsHighest | core/src/apply.rs:202-209 | that version was delivered (or stored) and none delivered is above it |
| Convergence.OrderDoesNotMatter | core/src/apply.rs:190-269 | two runs with the same versions, in any order and with repeats, end alike |
| Convergence.DeletionStays | core/src/apply.rs:243-263 | once a deletion is the highest version, no older row brings content back |
| Coverage.RecordHead | core/src/coverage.rs:37-93 | what a merged newest page makes of the range |
| Coverage.RecordOlder | core/src/coverage.rs:97-116 | what a merged older page makes of the range |
| Coverage.SettleTops | core/src/coverage.rs:118-146 | what a completed sync makes of every range |
| CoverageLaws.EmptyHead | core/src/coverage.rs:44-60 | an empty newest page covers an uncovered channel to its start and takes nothing away |
| CoverageLaws.HeadCovers | core/src/coverage.rs:37-93 | a newest page not below the range is covered from top to bottom, together with the range if they meet; complete exactly if short or joined to a complete range |
| CoverageLaws.HeadBelow | core/src/coverage.rs:37-93 | a newest page all below the range changes nothing |
| CoverageLaws.OlderExtends | core/src/coverage.rs:97-116 | the page below the range lowers the bottom to its lowest id and is complete exactly if short or before; any other page changes nothing |
| CoverageLaws.OlderProgresses | core/src/coverage.rs:97-116 | each page below the range lowers the bottom or reaches the start |
| CoverageLaws.LoadsReachTheStart | core/src/cache.rs:635-653 | loading older pages reaches the start in at most one load more than the survivors below the range |
| CoverageLaws.SettlingRaisesTops | core/src/coverage.rs:118-146 | a completed sync raises each top to the newest message its snapshot accounts for, and lowers none |
| CoverageLaws.AskReads | core/src/cache.rs:655-677 | a request keeps channel, `before`, floor and generation, and a limit of 1 to 100 |
| CoverageLaws.LandingRecords | core/src/cache.rs:684-725 | exactly the pages of this generation and floor, in a present and unfenced channel, record coverage, and of their channel alone |
| History.AskPage | core/src/cache.rs:655-677 | a request keeps the floor, the generation and the clamped limit it was made under |
| History.AskOlder | core/src/cache.rs:635-653 | older history is asked for below the bottom of the range, or at the head |
| History.LandPage | core/src/cache.rs:684-725 | a page lands only in its generation and records coverage only if it could land |
| History.SelectNewest | core/src/cache.rs:572-583 | the newest rows below `before`, newest first, none skipped |
| History.CachedMessages | core/src/cache.rs:561-623 | the page and whether it needs the network |
| CoverageLaws.PageSkipsNone | core/src/cache.rs:572-583 | a page's rows are the channel's below `before`, newest first, and a row left out has a full page above it |
| CoverageLaws.AnsweredFromCacheIff | core/src/cache.rs:584-623 | a page needs no network exactly if its channel is covered, its upper edge is covered, and it reaches the start or is full and ends in the range |
| CoverageLaws.LandedHeadIsAnswered | core/src/cache.rs:561-725 | right after a newest page landed, the same request is answered from the cache if nothing shown lies above the top |
| History.ResetRows | core/src/cache.rs:369-390 | a reset empties the synced tables, journals every file and starts a new generation |
| CoverageLaws.ResetEmpties | core/src/cache.rs:369-390 | after a reset no synced row is left, every cached file is journalled, and the sync starts over in a new generation |
| RangeSoundness.HeadKeepsOk | core/src/coverage.rs:37-93 | merging a newest page keeps the range's claim true |
| RangeSoundness.OlderKeepsOk | core/src/coverage.rs:97-116 | merging the page below the range keeps it true |
| RangeSoundness.SettleKeepsOk | core/src/coverage.rs:118-146 | a completed sync raises the top no further than what is cached |
| RangeSoundness.RangeStaysOk | core/src/coverage.rs:1-36 | the claim survives new messages, deletions and a growing cache |
| CoverageRuns.ProvenPageIsCached | core/src/cache.rs:694-721 | whenever a page proves coverage, every id of it is in the messages table |
| CoverageRuns.SettledOk | core/src/coverage.rs:118-146 | a completed sync keeps every covered channel sound |
| CoverageRuns.LandRecorded | core/src/cache.rs:694-721 | the range a landed page records is sound |
| CoverageRuns.NextKeeps | core/src/cache.rs:655-732 | every step of cache, server and requests, early requests too, keeps all ranges sound if newest pages land in time |
| CoverageRuns.CoverageIsSound | core/src/coverage.rs:37-146 | in every run whose newest pages land in time, every surviving message in a range is cached, and all below it once it reaches the start |
| CoverageTheorems.AnsweredPagesHaveNoGap | core/src/cache.rs:561-623 | in the same runs, a page that needs no network misses no surviving message between its edges |
| CoverageTheorems.RemovalRaises | core/src/apply.rs:121-139 | a removal that takes effect raises its channel's floor |
| CoverageTheorems.RunRises | core/src/apply.rs:121-139 | floors only rise within a generation |
| CoverageTheorems.CurrentThroughout | core/src/cache.rs:663-689 | a request that is current again was current all along |
| CoverageTheorems.StalePageChangesNothing | core/src/cache.rs:686-725 | a page that is not current changes neither rows nor coverage |
| CoverageTheorems.PagesLandOnlyUntouched | core/src/cache.rs:655-732 | a page changes anything only if no removal of its channel and no reset took effect since it was asked for |
| EarlyHistory.GuardedRun | core/src/cache.rs:655-732 | newest pages asked for after a completed sync always land in time |
| EarlyHistory.AskedInTimeIsSound | core/src/coverage.rs:37-146 | so coverage is sound in every run that asks for them only then |
| EarlyHistory.EarlyAskGoesWrong | core/src/cache.rs:655-732 | in every state before a completed sync, asking for any channel's newest page leaves a way open for coverage to claim a message the cache lacks |
| EarlyHistory.AskStaysSoundIff | core/src/cache.rs:655-732 | a request keeps coverage sound for good exactly if a sync has completed or the page isn't the newest |
| FileCache.Evict | core/src/files.rs:893-940 | drops neither pinned, downloading nor just finished files; in order, skipping only those; only while over the cap; stops under it or with those alone left |
| FileCache.Candidates | core/src/files.rs:911-917 | every unpinned row once, partials first, then by last use |
| FileCache.EvictionIsDetermined | core/src/files.rs:893-940 | without ties, what is evicted and in which order is fixed |
| FileCache.EvictingAgainDropsNothing | core/src/files.rs:893-940 | a second eviction finds nothing to do |
| FileCache.WeightWithout | core/src/files.rs:902-931 | the running total is the sum over the rows left |
| FileCache.DropFile | core/src/files.rs:870-887 | a file deleted on the server leaves index and cache, journalled |
| FileCache.PinFile | core/src/files.rs:220-251 | a pin makes a row exactly if a message lists the file |
| FileCache.UnpinFile | core/src/files.rs:255-273 | only the pin goes |
| FileCache.BeginDownload | core/src/files.rs:1262-1296 | the row a download starts from; the journal entry of an earlier copy goes |
| FileCache.ReadJournal | core/src/files.rs:947-966 | a sweep takes the journalled paths whose file has no row |
| FileCache.ForgetPaths | core/src/files.rs:982-992 | exactly the unlinked paths leave the journal |
| FileLaws.WeightIsTheSum | core/src/files.rs:902-910 | the total an eviction counts is the sum of the sizes, in whatever order they are added |
| FileLaws.PinnedRow | core/src/files.rs:220-251 | what a pin leaves of a known, a listed and an unlisted file; other files stay |
| FileLaws.UnpinnedRow | core/src/files.rs:255-273 | the pin goes, all else stays |
| FileLaws.BegunRow | core/src/files.rs:1262-1296 | a download starts the row over with the pin and last use it had; no journal entry of the file is left |
| FileLaws.GoneFile | core/src/files.rs:870-887 | the file's listing and row go, and its blob is journalled exactly if it had a row |
| FileLaws.JournalReads | core/src/files.rs:947-966 | entries of files with a row leave the journal, no other does |
| FileLaws.JournalForgets | core/src/files.rs:982-992 | exactly the paths unlinked leave the journal |
| FileLaws.EvictedRows | core/src/file_rows.rs:112-131 | exactly the evicted rows go, journalled, and stay listed |
| FileLaws.ResumesIff | core/src/files.rs:1262-1296 | a download resumes exactly an incomplete row of the same bytes |
| FileCacheRuns.ActionHealthy | core/src/files.rs:870-1296 | every action on the cache keeps fences, quotes and the file index |
| FileCacheRuns.CacheStaysHealthy | core/src/apply.rs:97-271 | in every run of batches, pages, syncs, resets, evictions, pins, downloads and sweeps: fences hold, no quote keeps deleted words, each cached file is listed by a stored message that lists it |
| FileCacheRuns.DroppedRowsAreJournalled | core/src/file_rows.rs:112-131 | every transaction that drops a row journals its blob |
| FileCacheRuns.UnlinkedHadNoRow | core/src/files.rs:943-993 | a sweep never unlinks a blob whose file had a row when it read the journal, and no blob is opened in between |
| FileCacheRuns.OpenedBlobsStay | core/src/files.rs:1256-1308 | a blob a download opened stays as long as the row it was opened under |
| SyncFlight.RunsNeverOverlap | core/src/cache.rs:241-275 | at most one sync run at a time, whoever asks |
| SyncFlight.NoRequestIsLost | core/src/cache.rs:241-275 | a recorded request has a run started after it, or some caller will still look |
| SyncFlight.ServedSoon | core/src/cache.rs:241-269 | from any reachable state the callers already there can start that run in four moves |
| SyncFlight.EveryScheduleServes | core/src/cache.rs:241-269 | and whatever the order of their moves: every schedule of them starts a run, or is no longer than a total fixed beforehand and leaves a caller that will still look |
| SyncFlight.Step | core/src/cache.rs:316-363 | every access to the flag or the lock keeps this, failed and reset runs included |
| SyncFlight.EveryCallIsServed | core/src/cache.rs:241-275 | after any call or reset ask, a run starts or a caller will still look |
| Outbox.Store.Enqueue | core/src/outbox.rs:519-580 | the first row with an id wins; its place in line is new |
| Outbox.Store.Retry | core/src/outbox.rs:1074-1097 | only a failed row goes back in line; without its quote only if refused because of it |
| Outbox.Store.RemoveRow | core/src/outbox.rs:1560-1606 | the row goes and its snapshots are journalled |
| Outbox.Store.Reopen | core/src/outbox.rs:350-368 | rows a crash left sending go back to pending, nothing else changes |
| Outbox.Store.SetState | core/src/outbox.rs:1202-1219 | state and error of one row |
| Outbox.Store.SetFile | core/src/outbox.rs:1537-1558 | a known file id is never lost |
| Outbox.Store.DetachFiles | core/src/outbox.rs:1304-1323 | the ids of one row's files go |
| Outbox.Store.NextRow | core/src/outbox.rs:1171-1200 | the channel's row with the smallest place, or none if nothing waits |
| OutboxLaws.EnqueuedRow | core/src/outbox.rs:519-580 | a fresh id's row is pending, last in line, with this text, reply and these files; a taken id and all other rows stay |
| OutboxLaws.RetriedRow | core/src/outbox.rs:1074-1097 | a failed row is pending again without errors; its quote goes only on request and only if it was refused because of it |
| OutboxLaws.RemovedRow | core/src/outbox.rs:1560-1606 | the row goes, its snapshots and no others are journalled |
| OutboxLaws.ReopenedRows | core/src/outbox.rs:350-368 | exactly the sending rows become pending |
| OutboxLaws.StateWritten | core/src/outbox.rs:1202-1219 | state and error of this row, and nothing else |
| OutboxLaws.FileWritten | core/src/outbox.rs:1537-1558 | one file's id and error; a missing id keeps the known one |
| OutboxLaws.FilesDetached | core/src/outbox.rs:1304-1323 | the ids go, names and all other fields stay |
| OutboxInvariants.StepKeeps | core/src/outbox.rs:1227-1367 | every step keeps the queue's invariants |
| OutboxInvariants.RetryKeeps | core/src/outbox.rs:1054-1098 | dropping a quote is safe: the server has not stored that message |
| OutboxInvariants.PostKeeps | core/src/outbox.rs:1287-1297 | a send puts its message behind all stored and before all waiting ones |
| OutboxInvariants.SettleKeeps | core/src/outbox.rs:1292-1366 | what an answer does to its row agrees with what the server has |
| OutboxInvariants.ReattachKeeps | core/src/outbox.rs:1299-1324 | files are detached only from a message the server has not stored |
| OutboxTheorems.FirstStoredInOrder | core/src/outbox.rs:1135-1200 | if one row was committed before another and both are stored, the first is stored first |
| OutboxTheorems.DirectKeepsItsPlace | core/src/outbox.rs:582-626 | a direct send is stored after exactly the rows committed before it |
| OutboxTheorems.StoredOnce | core/src/outbox.rs:336-338 | a client id is stored once |
| OutboxTheorems.LeavesWhenSent | core/src/outbox.rs:1607-1618 | a row leaves by the user's Delete or once the server has its message |
| OutboxTheorems.NothingIsLost | core/src/outbox.rs:1227-1367 | a queued message is waiting, stored or deleted by the user |
| OutboxTheorems.AcceptedIsSent | core/src/outbox.rs:1341-1349 | accepted: the server has the message and every file |
| OutboxTheorems.AcceptedStays | core/src/outbox.rs:1328-1366 | an accepted row that stays leaves that state exactly when the echo names another message |
| OutboxTheorems.AcceptedForGood | core/src/outbox.rs:1225-1237 | with faithful echoes an accepted row never becomes pending, sending or failed |
| OutboxTheorems.StoredAsQueued | core/src/outbox.rs:1171-1195 | what the server stored for a waiting row is its text, reply target and files in order |
| OutboxLaws.AttemptsSendTheRow | core/src/outbox.rs:1227-1260 | an attempt carries the row's text and reply as stored, marks it sending unless accepted, and an accepted row's file ids in order |
| OutboxLaws.AnswersDecide | core/src/outbox.rs:1287-1366 | sent, refused, lost, swept, echoed wrongly, or answered after a sign-out: what is then stored of the row |
| OutboxLaws.UploadsAreKept | core/src/outbox.rs:1421-1492 | a file the server knows isn't uploaded again, and each new id is stored before the next file |
| OutboxLaws.FailedUploadsShow | core/src/outbox.rs:1494-1525 | a failed upload fails its row and marks its file, unless it was cancelled |
| OutboxLaws.AttachedAreSent | core/src/outbox.rs:1276-1287 | a message goes out with the ids of all its files, unless cancelled or one comes twice |
| OutboxLaws.EnqueuedIsNotLost | core/src/outbox.rs:519-580 | from the enqueue on: the message is waiting, stored, or deleted by the user since |
| OutboxLaws.StoredAsEnqueued | core/src/outbox.rs:519-1195 | what the server stores for an enqueue is its text, as many files, and its reply unless a Retry dropped it |
| OutboxLaws.HeadGoesOut | core/src/outbox.rs:1227-1367 | from every state with the lock free and a session, a row in turn that hasn't failed can be sent, stored and taken off the queue |
| CallTask.Task.Run | core/src/call.rs:316-340 | messages are handled in order until the call ends, and none after |
| CallTask.Task.Finish | core/src/call.rs:959-984 | the single end path |
| CallTask.Task.StartPublishOffer | core/src/call.rs:416-429 | a new offer, with nothing left pending |
| CallTask.Task.SendPublish | core/src/call.rs:431-456 | the offer, then the held candidates in order; or kept for the resume |
| CallTask.Task.OnOffer | core/src/call.rs:460-485 | acknowledged and older offers are ignored, an answered one is answered again, a newer one is taken |
| CallTask.Task.MaybeApplyOffer | core/src/call.rs:487-508 | one subscribe operation at a time |
| CallTask.Task.SendRetainedAnswer | core/src/call.rs:510-522 | the kept answer, as it was made |
| CallTask.Task.OnRemoteCandidate | core/src/call.rs:526-548 | a candidate waits behind others or for its media section |
| CallTask.Task.FlushRemote | core/src/call.rs:550-574 | the front of the buffer that belongs to the description goes, in order |
| CallTask.Task.SetMedia | core/src/call.rs:644-663 | one change in flight; a newer one replaces a queued one, whose caller is answered |
| CallTask.Task.SendMedia | core/src/call.rs:687-722 | sent and awaited, or kept for the resume and answered |
| CallTask.Task.OnPublishAnswer | core/src/call.rs:735-755 | an answer of superseded work is ignored; a lost one renegotiates |
| CallTask.Task.OnPublishApplied | core/src/call.rs:756-772 | stable: candidates flushed, media announced again, a pending renegotiation started |
| CallTask.Task.OnSubscribeApplied | core/src/call.rs:773-803 | the newer offer is applied, or the answer kept and sent |
| CallTask.Task.OnSubscribeAck | core/src/call.rs:804-828 | what an acknowledgement, a stale refusal or silence does to the kept answer |
| CallTask.Task.OnMediaAck | core/src/call.rs:852-888 | rolled back, kept, or sent again later; then the queued change |
| CallTask.Task.OnConn | core/src/call.rs:893-919 | a lost socket disconnects; a newer ready one is resumed on, once at a time |
| CallTask.Task.AfterResume | core/src/call.rs:921-940 | what the drop interrupted is done again |
| CallInvariants.PubStep | core/src/call.rs:416-456 | every handler keeps the publish operation in flight in step with the state |
| CallInvariants.FramesStep | core/src/call.rs:431-456 | every handler keeps offers written once and the end last |
| CallParts.IceStep | core/src/call.rs:526-574 | every handler keeps the candidates of both connections |
| CallParts.FlushKeeps | core/src/call.rs:550-574 | a flush neither loses nor reorders a candidate |
| CallParts.MediaStep | core/src/call.rs:644-722 | every handler keeps account of the SetMedia replies |
| CallVersions.SubStep | core/src/call.rs:460-522 | every handler keeps one subscribe operation, and versions in order while offers come in order |
| CallVersions.ReplayIsAnsweredAgain | core/src/call.rs:464-472 | the replay of an answered offer sends the same answer and applies nothing |
| CallVersions.AckedGrows | core/src/call.rs:811-817 | what the server acknowledged only grows |
| CallTheorems.OneOperationEach | core/src/call.rs:416-508 | at most one publish and one subscribe operation are ever in flight |
| CallTheorems.OffersWrittenOnce | core/src/call.rs:431-456 | each offer is written at most once, in the order they were made |
| CallTheorems.NoRenegotiationIsLost | core/src/call.rs:604-619 | a renegotiation asked for is pending until an offer starts after it, and a stable connected call has none pending |
| CallTheorems.CandidatesAreConserved | core/src/call.rs:526-574 | candidates received are those given, in order, then those held; each given fitted, the first held fits nothing yet |
| CallTheorems.VersionsIncreaseIff | core/src/call.rs:460-522 | the applied versions strictly increase exactly in the runs that never meet a late offer |
| CallTheorems.VersionsApplyOnce | core/src/call.rs:460-522 | offers in order are never late: strictly increasing versions applied, a kept answer newer than what is acknowledged |
| CallTheorems.AckedNeverDecreases | core/src/call.rs:811-817 | over every run |
| CallTheorems.DisorderIsApplied | core/src/call.rs:460-508 | late offers come about: after any version, any version up to it can be applied |
| CallVersions.OrderStep | core/src/call.rs:460-508 | a handler breaks the order of applied versions exactly if it meets a late offer |
| CallTheorems.EndsOnce | core/src/call.rs:959-984 | the engine is closed once, at the end; one `call.leave` at most, the last frame; nothing else after the end |
| CallTheorems.FirstFinishStands | core/src/call.rs:957-965 | a second end within a handler changes nothing |
| CallTheorems.FirstReasonStands | core/src/call.rs:957-965 | the first end reason stands for the rest of the run |
| CallTheorems.RepliesAnsweredOnce | core/src/call.rs:644-722 | every SetMedia reply is answered once or held in one place behind a `call.media` in flight; after the end all are answered |
| CallLaws.EveryCandidateIsGivenOrHeld | core/src/call.rs:526-574 | the candidates among the messages met before the end are those given to the engine, in order, then those held |
| CallLaws.EverySetMediaIsAnswered | core/src/call.rs:644-722 | every SetMedia met is answered once, or its caller is behind the `call.media` in flight; after the end all are answered |
| CallLaws.RepublishAsks | core/src/call.rs:604-619 | a Republish starts an offer exactly if the call publishes, is stable and connected; else it is pending |
| CallLaws.EveryRepublishIsServed | core/src/call.rs:604-619 | after every Republish another offer starts, or one is pending and the call isn't stable and connected |
| CallLaws.EveryOfferIsServed | core/src/call.rs:460-508 | every offer met is acknowledged, given to the engine, waiting, or overtaken by a newer one |
| CallLaws.EndingMessagesEnd | core/src/call.rs:957-984 | each message that ends a call ends it for its own reason, and tells the server only where the source does |
| CallLaws.JoiningPublishes | core/src/call.rs:389-412 | the first join of a publishing call starts its first offer |
| CallLaws.LocalCandidatesGo | core/src/call.rs:576-592 | local candidates are written at once, or held while their offer isn't written |
| CallLaws.OffersAreWritten | core/src/call.rs:431-456 | a finished offer is written before the candidates held for it, or kept |
| CallLaws.AnswersAreApplied | core/src/call.rs:735-755 | an answer is applied, a lost one renegotiates, a refusal ends the call |
| CallLaws.PublishSettles | core/src/call.rs:756-772 | an applied answer leaves the call stable, or already in the renegotiation that was pending |
| CallLaws.SubscribesAreAnswered | core/src/call.rs:773-803 | an applied offer's answer is kept and sent, unless a newer offer waits: then that one is applied |
| CallLaws.AcknowledgementsCount | core/src/call.rs:804-815 | an acknowledgement raises what is acknowledged and frees its own kept answer alone |
| CallLaws.SetMediaReaches | core/src/call.rs:644-722 | a change reaches engine and server, waits behind the one in flight, or its caller learns the engine refused |
| CallLaws.MediaAnswersCount | core/src/call.rs:852-888 | a rejected change is undone, an unknown one is kept for the resume, and its caller is answered |
| CallLaws.ConnectionsAreFollowed | core/src/call.rs:893-919 | exactly when the call counts as disconnected, and exactly when it asks to resume |
| CallLaws.ResumingRestarts | core/src/call.rs:921-928 | a resumed call renegotiates what the drop cut short |
| CallLaws.ResumingSends | core/src/call.rs:929-940 | and sends the unwritten offer, the kept answer and the engine's media |
| CallOutcomes.EndsIff | core/src/call.rs:316-984 | a message ends the call exactly for the listed reasons, which it is then ended for; any other leaves it going |
| CallOutcomes.GoesOnIff | core/src/call.rs:316-340 | a call goes on exactly if none of the messages it met ends it |
| CallOutcomes.EndsForTheFirst | core/src/call.rs:957-965 | a call that has ended did so for the first message that ends it |
| CallOutcomes.CandidateGoes | core/src/call.rs:526-548 | a candidate goes to the engine exactly if none waits and it fits the applied description; else it waits last |
| CallOutcomes.WaitingCandidatesGo | core/src/call.rs:550-574 | with a description, those in front that fit go, in order; the first left doesn't fit |
| CallOutcomes.QueuedMediaGoes | core/src/call.rs:881-883 | the change that waited goes out once the one in flight is answered |
| CallOutcomes.PublishAnnounces | core/src/call.rs:756-768 | every publish that settles announces the engine's media again: now, after the change in flight, or after a resume |
| CallOutcomes.MediaAckAnnounces | core/src/call.rs:884-885 | an announcement that waited goes out with the answer |
| CallOutcomes.RefusedAnswersGo | core/src/call.rs:818-828 | a stale answer is let go, one without a reply is kept; neither is acknowledged |
| CallOutcomes.ReplaysAreAnswered | core/src/call.rs:464-472 | the replay of an answered offer gets the kept answer and is applied no more |
| CallOutcomes.LostResumesAreRetried | core/src/call.rs:845-849 | a lost resume is tried again on a newer connection |

## Left out

- Change notices, unread counts, sidebar order, `created_at` and reactions: they are read by no rule modelled here.
- A history row that can't be parsed: the short-page test counts parsed rows only, so every row is taken to parse.
- The server, HTTP, the WebSocket, SQLite, encryption and the media engine are transactions, completions and the contracts above; SQL integers are unbounded.
- Callers of `sync_now` that are cancelled midway, the retry timer and its delays.
- Sleeps, backoff, debounce and deadlines: a wait is any later step.
- `run_channel` and `attempt` as single methods: they are one step per transaction or request, since a restart may fall between any two; `sync_now` likewise, one step per access to its flag or lock.
- A send that takes effect on the server after its attempt was cut, and one client id used in two channels.
- Cancel flags, progress and transfer ids of uploads: a cancel is a failure that may come at any point of an upload; snapshots are sound or damaged.
- A sweep whose task is aborted midway (only closing the store does that) and the rules for opening, previewing and naming files; blob keys, chunks and sealed lengths.
- Participants, ICE servers, resume tokens and the status shown while reconnecting: they feed no rule modelled here; a call id is never empty.
- Replies of Leave and Republish: they are answered within their handler.
- Sessions, accounts, token renewal, the choice of store and the offline settings.
- That a Delete answered `AlreadySent` proves sending, and that a connected call is on the newest socket: the code does not guarantee them.
