# Sub-Etha: models and proofs

Sub-Etha is a Matrix client that runs in browser tabs. Its hard logic is a set
of small protocols that must survive tabs racing each other, windows closing
in the middle of a write, and requests that answer late or never. This project
models seven of them in Dafny and proves what they keep.

`dafny verify dfyconfig.toml` checks everything.

## What is modelled

1. **Session vault** (`SessionVault`, `SessionVaultProofs`, `SessionStore`).
   One IndexedDB cell holds nothing, a locked record, a tombstone, a legacy
   session or something corrupt. Leases in several tabs race on it by
   comparing record id and revision. Each transaction is one step, and so is
   everything between two awaits; windows may close at any point. Encryption is
   an opaque box that opens only with its key and its exact additional data.
2. **Refresh, logout and stop** (`MatrixSession`, `MatrixSessionProofs`,
   `MatrixLogoutProofs`, `MatrixService`), on top of the vault: single-flight refresh, a deadline
   after which credentials may still arrive, failing reseals, revocations that
   may stay unconfirmed. The service's ledger records which credentials were
   issued and which were confirmed revoked.
3. **Push journal** (`PushJournal`, `PushJournalProofs`, `PushStorage`): setup
   and cleanup as a write-ahead log over localStorage keys. Every write is one
   step, may fail, and may be the last before the window closes; other tabs
   announce cleanups and capture credentials without the lock.
4. **Media gate and cache** (`MediaGate`, `MediaGateProofs`,
   `MediaOperationGate`; `MediaCache`, `MediaStore`): an admission queue with
   byte accounting, abort and close; and an LRU cache whose two maps, alias
   index and running total are proved to be a faithful fast form of a plain
   list of entries.
5. **Image walkers** (`ImageContainers`, `ImageWalkers`): the GIF, PNG, WebP
   and JPEG loops over arbitrary bytes and the decode bound they serve.
6. **Codecs** (`Base64Url`, `AadJson`, `StoredValues`, `LinkScanner`,
   `LinkParser`): canonical Base64URL (RFC 4648, sections 3.5 and 5) written
   twice, the JSON text (RFC 8259, section 7) that serves as additional data,
   the comparison of stored values, and a bounded link scanner.
7. **Push server** (`RateLimiter`, `WorkerPool`): a fixed-window limiter over
   runs, and workers sharing a cursor.

Code that changes state in place is a class here. Its methods are the
stretches of code between two awaits, and each is proved equal to a function
of the old state and to keep the validity of its object; the results about runs and interleavings are lemmas about
those functions. Files ending in `Proofs` hold the lemmas.

## Where a promise does not hold

The code is modelled as it is. Five claims one might make of it are false; each
has a lemma with a run or a value that breaks it, and the exact condition under
which it holds.

- Logout can say that the remote session ended although a refreshed credential
  was never confirmed revoked
  (`MatrixLogoutProofs.LogoutAfterStopCanMislead`). After `stop()` overtook a
  refresh there is a gap between the refresh task's `finally`, which clears
  the field logout awaits, and the stop's release continuation, which disposes
  of the lease. A logout called in that gap knows neither the settlement nor
  its credential. It tells the truth if and only if, at the call, the task is
  still there, or has not settled unconfirmed, or the end is already marked as
  uncertain (`MatrixLogoutProofs.LogoutIsTruthfulExactlyThen`).
- A management key is lost when storage refuses both cleanup records and the
  gateway does not confirm the rollback's deletion
  (`PushJournalProofs.RollbackLosesExactlyThen`).
- A cleanup journal whose primary entry is incomplete forgets its management
  key when the worker holds another configuration
  (`PushJournalProofs.KeyLeavesJournalExactlyThen`).
- `exactStoredValueEqual` takes an ArrayBuffer and an empty object for equal
  (`StoredValues.ExactEqualIsEquality`).
- The limiter can let more than its limit through in an interval of the
  window's length (`RateLimiter.TwiceTheLimitHappens`): if and only if the row
  turns over inside the interval and what passes before and after adds up to
  more than the limit (`RateLimiter.ExceedsExactlyThen`). It never exceeds
  twice the limit (`RateLimiter.AtMostTwiceTheLimit`).

## Model

| member | source | states |
|---|---|---|
| `SessionVaultProofs.PairNamesOneValue` | lib/matrix/session-store.ts:718-820 | over a whole run of all tabs and leases a (recordId, revision) pair names one stored value, at one point of the history |
| `SessionVaultProofs.TwoFieldCheckIsExact` | lib/matrix/session-store.ts:745-754 | in every reachable state the two-field comparison of reseal and delete holds exactly when the stored record equals the lease's record in full |
| `SessionVaultProofs.DeletionIsPermanent` | lib/matrix/session-store.ts:762-820 | once a tombstone for a record id has been stored, no later state of any run holds a locked record with that id |
| `SessionVaultProofs.DeletionReportsLastSession` | lib/matrix/session-store.ts:993-1011 | the session and the cleanup descriptor a deletion returns are those of the last locked record ever stored under its id, directly replaced by its tombstone, whatever reseals were queued before it |
| `SessionVaultProofs.ResealBehindDeleteNeverCommits` | lib/matrix/session-store.ts:718-760 | behind a committed deletion no move of any lease on that record writes the cell |
| `SessionVaultProofs.DisposedForGood` | lib/matrix/session-store.ts:967-986 | a disposed lease never regains its key or its session in any run, also when disposal races a commit |
| `SessionVaultProofs.LoginReplacesOnlyAvailable` | lib/matrix/session-store.ts:447-523 | a new login writes only over an absent cell or a tombstone without pending cleanup, under the lock, and with a record id never stored before |
| `SessionVaultProofs.EveryLockedRecordHadARightTo` | lib/matrix/session-store.ts:564-660 | every locked record in the history either continues the record before it with the next revision, the same storage and slots, or takes an available or legacy cell |
| `SessionVaultProofs.CleanupNeverHitsLiveSession` | lib/matrix/session-store.ts:1361-1414 | whenever a crypto database deletion is issued, the issuing task holds the vault lock, alone, and the cell is a tombstone, although completing a cleanup takes no lock |
| `SessionVaultProofs.StepKeepsInv` | lib/matrix/session-store.ts:451-1231 | every transaction, lease segment, lock grant, crash and unlocked completion keeps the invariant: ordered history, fresh ids, authentic leases, truthful answers |
| `SessionVaultProofs.GrowsKeepsHistory` | lib/matrix/session-store.ts:451-562 | writing a fresh id, or the next revision of the present one, keeps revisions strictly increasing per id and tombstones final |
| `SessionStore.StoredSession.CommitNewRecord` | lib/matrix/session-store.ts:482-523 | the transaction puts the record exactly when the cell still equals the starting state, and otherwise leaves it alone |
| `SessionStore.StoredSession.CommitMigratedRecord` | lib/matrix/session-store.ts:525-562 | likewise against the legacy candidate; an absent cell is a conflict |
| `SessionStore.StoredSession.CommitReseal` | lib/matrix/session-store.ts:718-760 | the transaction puts the next record exactly when id and revision of a stored locked record match |
| `SessionStore.StoredSession.CommitTombstone` | lib/matrix/session-store.ts:762-820 | the transaction puts the next revision's tombstone, with its exact cleanup pending, exactly when id and revision match |
| `SessionStore.StoredSession.ForgetLocalSession` | lib/matrix/session-store.ts:1077-1154 | forgetting always leaves a pending tombstone that the returned descriptor matches; ids are continued and an earlier pending scope is kept |
| `SessionStore.StoredSession.CompleteLocalSessionCleanup` | lib/matrix/session-store.ts:1177-1231 | only the tombstone named by the descriptor is completed, to the next revision |
| `SessionStore.SessionLease.constructor` | lib/matrix/session-store.ts:830-846 | a new lease holds the record, the session and the key, with an empty chain |
| `SessionStore.SessionLease.Enqueue` | lib/matrix/session-store.ts:938-991 | a call on a disposed lease is rejected at once; otherwise it joins the end of the chain |
| `SessionStore.SessionLease.BeginNext` | lib/matrix/session-store.ts:945-966 | the segment up to encryption, the transaction or the read: disposal, bad input and changed immutable fields settle the call |
| `SessionStore.SessionLease.EncryptionFinished` | lib/matrix/session-store.ts:966-974 | after encryption a disposed lease settles without a transaction; otherwise the next record is sealed under the next revision |
| `SessionStore.SessionLease.RunTransaction` | lib/matrix/session-store.ts:718-820 | the head of the chain meets the stored cell in one transaction, which either writes it or settles the call |
| `SessionStore.SessionLease.FinishJob` | lib/matrix/session-store.ts:974-1003 | after the commit a disposed lease keeps nothing; a live one takes the new record and session; a deletion disposes and answers with its session |
| `SessionStore.SessionLease.DisposeLease` | lib/matrix/session-store.ts:1013-1016 | disposal drops key and session at once and is not serialized |
| `MatrixSessionProofs.LogoutIsSound` | lib/matrix/client.ts:3420-3495 | if logout was called while the refresh task was there to be awaited, or none had settled unconfirmed, or the end was marked uncertain, and it says that the remote session ended, then in every interleaving of refresh, deadline, reseal, deletion and other tabs each credential issued or committed was overtaken by another committed later or confirmed revoked, nothing is outstanding, and the record is gone |
| `MatrixLogoutProofs.LogoutIsTruthfulExactlyThen` | lib/matrix/client.ts:3395-3472 | for every run up to a call of logout and every way it goes on: a true answer is right if and only if at the call the refresh task was pending, or had not settled unconfirmed, or the end was marked uncertain |
| `MatrixLogoutProofs.LogoutAfterStopCanMislead` | lib/matrix/client.ts:3395-3472 | that condition can fail: for every just started service whose record is stored, and every new credential, there is a run of the service in its vault in which stop overtakes a refresh, logout is called between the task's finally and the stop's release continuation and answers true, and the credential is neither revoked nor overtaken |
| `MatrixLogoutProofs.NextKeepsTrace` | lib/matrix/client.ts:501-615 | along every run a credential in hand, or discarded unconfirmed, is issued, not revoked and nowhere in the vault, but for the one reseal call that carries it |
| `MatrixLogoutProofs.StepStaysUnknown` | lib/matrix/session-store.ts:718-760 | no move of the vault stores a credential that no call and no task carries |
| `MatrixSessionProofs.UncertaintyIsReported` | lib/matrix/client.ts:3581-3656 | once stop, takeover, deadline or a failed reseal has released the ownership locks, either all issued credentials are accounted for and nothing is outstanding, or the unconfirmed-revocation callback has fired exactly once |
| `MatrixSessionProofs.UncertaintyReportedAtMostOnce` | lib/matrix/client.ts:1016-1052 | in no run, whatever the shutdown, does that callback fire twice |
| `MatrixSessionProofs.NothingIsSaidAfterRelease` | lib/matrix/client.ts:3624-3656 | nothing that follows the release of the locks adds a callback |
| `MatrixSessionProofs.EvaluationIsTruthful` | lib/matrix/client.ts:3461-3472 | when logout evaluates to true, the final session is confirmed revoked and every issued credential is superseded or revoked |
| `MatrixSessionProofs.CoveredKept` | lib/matrix/client.ts:518-615 | every event keeps each issued credential accounted for: in flight, committed, revoked, or marked as uncertain |
| `MatrixSessionProofs.NextKeepsSInv` | lib/matrix/client.ts:501-667 | every event of the service and every move of the vault keeps the joint invariant of service, lease and history |
| `MatrixServiceObject.MatrixService.constructor` | lib/matrix/client.ts:669-708 | a just started service holds its lease and its locks and has nothing in flight |
| `MatrixServiceObject.MatrixService.RefreshTokens` | lib/matrix/client.ts:501-516 | single flight: a refresh in progress is joined, and none starts on a stopped service or without a session |
| `MatrixServiceObject.MatrixService.RefreshDeadlinePassed` | lib/matrix/client.ts:640-653 | the deadline marks the end uncertain, counts a response that may still come, and invalidates the session |
| `MatrixServiceObject.MatrixService.ResumeRefresh` | lib/matrix/client.ts:575-582 | a response on a stopped service is discarded, on an inactive lease unsealed, otherwise it asks the lease to reseal |
| `MatrixServiceObject.MatrixService.ResealAnswered` | lib/matrix/client.ts:581-608 | a committed reseal fulfils the refresh, or ends it as committed during shutdown; a refused one leaves the credentials unsealed |
| `MatrixServiceObject.MatrixService.DiscardRevoked` | lib/matrix/client.ts:575-601 | discarded credentials settle as such; after a failed reseal on a running service the session is invalidated, as uncertain unless the revocation was confirmed |
| `MatrixServiceObject.MatrixService.CallLogout` | lib/matrix/client.ts:3395-3440 | logout stops the service, asks the lease to delete its record, and remembers whether a refresh is pending |
| `MatrixServiceObject.MatrixService.DeletionAnswered` | lib/matrix/client.ts:3435-3449 | the deleted session becomes the one to end remotely; a refused deletion aborts |
| `MatrixServiceObject.MatrixService.EvaluateLogout` | lib/matrix/client.ts:3453-3472 | the verdict waits for the refresh and the remote logout, and needs both accounted for and no uncertainty |
| `MatrixServiceObject.MatrixService.FinishLogout` | lib/matrix/client.ts:3439-3495 | however logout ends, lease and locks are released |
| `MatrixServiceObject.MatrixService.Stop` | lib/matrix/client.ts:3526-3528 | stop is the stop without an error; it keeps flags and callbacks in agreement |
| `MatrixServiceObject.MatrixService.HandleTakeoverRequest` | lib/matrix/client.ts:1006-1014 | a takeover by another tab invalidates a service not yet stopped |
| `MatrixServiceObject.MatrixService.StopWithError` | lib/matrix/client.ts:3581-3656 | a stop is ignored while hidden or logging out, happens once, and waits for a refresh in flight before releasing |
| `MatrixServiceObject.MatrixService.InvalidateSession` | lib/matrix/client.ts:1016-1034 | the session is invalidated once, with its callback, and stopped |
| `MatrixServiceObject.MatrixService.ReportRevocationUncertainty` | lib/matrix/client.ts:1036-1052 | the uncertainty callback is added unless it has been |
| `MatrixServiceObject.MatrixService.StopRelease` | lib/matrix/client.ts:3624-3642 | the delayed release reports uncertainty first and then lets go of lease and locks, unless another shutdown took over |
| `MatrixServiceObject.MatrixService.ShutdownForPageHide` | lib/matrix/client.ts:3530-3579 | hiding disposes of the lease at once and keeps the locks while a refresh or a logout is pending |
| `MatrixServiceObject.MatrixService.PageHideRelease` | lib/matrix/client.ts:3565-3576 | the locks go when both have settled |
| `MatrixServiceObject.MatrixService.DisposeLease` | lib/matrix/client.ts:3746-3751 | the lease is disposed of once |
| `MatrixServiceObject.MatrixService.ReleaseOwnershipLocks` | lib/matrix/client.ts:3753-3765 | the locks are released once |
| `MatrixServiceObject.MatrixService.DisposeLeaseAndReleaseLock` | lib/matrix/client.ts:3734-3744 | the lease goes before the locks |
| `PushJournalProofs.NoCapabilityIsLost` | lib/matrix/notifications.ts:823-993 | cut off between any two storage writes of any run, each management key sent to the gateway and not confirmed deleted since is readable from the journal, the fallback record or the slot, unless a rollback gave it up; and in a run without such a rollback without exception |
| `PushJournalProofs.RollbackLosesExactlyThen` | lib/matrix/notifications.ts:995-1068 | a rollback that may clear the slot makes an owed key unreadable if and only if neither cleanup record could be written, the gateway did not confirm its deletion, and the key had been sent before |
| `PushJournalProofs.QuotaCanLoseACapability` | lib/matrix/notifications.ts:985-1067 | a concrete run in which storage refuses both writes and the gateway does not answer, and the key is lost |
| `PushJournalProofs.JournalGoesOnlyWhenDone` | lib/matrix/notifications.ts:2218-2236 | at any point of any run the journal disappears only when a setup commits and the slot holds exactly its credentials, or when every management key it ever held is confirmed deleted and every delivery key had its pusher removed or a durable warning recorded, displaced keys excepted; a journal created with its primary fields all present or all absent displaces none |
| `PushJournalProofs.HeldNeverForgets` | lib/matrix/notifications.ts:728-730 | the record of keys held takes up every key written to the journal and forgets none while there is a journal |
| `PushJournalProofs.KeyLeavesJournalExactlyThen` | lib/matrix/notifications.ts:1924-1944 | a key leaves a journal that stays if and only if the worker's configuration replaces an incomplete primary entry that names it |
| `PushJournalProofs.AnIncompleteJournalCanForgetAKey` | lib/matrix/notifications.ts:1924-1944 | a concrete run from stored credentials: a rollback cut off after its first removal leaves a slot without delivery key, the journal made of it is overridden by the worker's other configuration, and it completes without its management key deleted |
| `PushJournalProofs.DisplaceKeepsInv` | lib/matrix/notifications.ts:1924-1934 | an override makes no owed key unreadable, except one a rollback has given up; only keys the overridden journal no longer names count as displaced |
| `PushJournalProofs.WarningFollowsEveryDeletion` | lib/matrix/notifications.ts:2171-2193 | a pusher is given up only when abandonment is allowed, every gateway deletion of the cleanup is confirmed and the warning is stored |
| `PushJournalProofs.UnsubscribesOnlyAfterWorker` | lib/matrix/notifications.ts:2212-2216 | in every run, when the browser subscription is about to be removed, the service worker holds no configuration |
| `PushJournalProofs.SetupOwnsTheSlot` | lib/matrix/notifications.ts:918-993 | a setup that reaches its journal write finds no other record and no other generation in the slot, so the merge and protection branches of the queue are never taken |
| `PushJournalProofs.StepKeepsInv` | lib/matrix/notifications.ts:1544-2294 | every storage write, request, answer, crash and unlocked announcement keeps the link between epoch, captured credentials, journal, fallback and slot |
| `PushJournalProofs.CompleteIsSettled` | lib/matrix/notifications.ts:2218-2226 | a complete cleanup has every key it names deleted, every pusher removed or abandoned, nothing owed and no worker configuration |
| `PushJournalProofs.PendingFits` | lib/matrix/notifications.ts:823-834 | the cleanup read from the journal and merged with the fallback takes over every key that storage holds |
| `PushJournalProofs.FallbackFits` | lib/matrix/notifications.ts:836-871 | so does the cleanup made from the fallback record |
| `PushJournalProofs.SlotFits` | lib/matrix/notifications.ts:873-902 | and the one made from the credential slot |
| `PushJournalProofs.AddAllFits` | lib/matrix/notifications.ts:796-821 | merging the fallback adds exactly its missing management keys and drops nothing |
| `PushJournalProofs.RecoveryKeeps` | lib/matrix/notifications.ts:1283-1344 | merging credentials found in the worker's database keeps every key, every true flag and completeness of the primary entry |
| `PushStorage.LocalStorage.PersistPushCredentials` | lib/matrix/notifications.ts:628-634 | the slot writes, cut off at the first failing one, are the steps of the journal model |
| `PushStorage.LocalStorage.ClearPushCredentials` | lib/matrix/notifications.ts:636-662 | the guarded clearing, carried through, equals its three removal steps; the records and the gate are untouched |
| `PushStorage.LocalStorage.PersistFallbackPushCleanupTarget` | lib/matrix/notifications.ts:765-794 | a known target is marked in place, a new one appended; nothing changes when the write fails |
| `PushStorage.LocalStorage.QueuePushSetupCleanup` | lib/matrix/notifications.ts:918-993 | for every combination of failing writes, the stored state and the primary, fallback or none result are those of the model's steps |
| `PushStorage.LocalStorage.BeginLocalPushCleanup` | lib/matrix/notifications.ts:823-902 | for every combination of failing writes, the stored state and the returned cleanup are those of the model's steps |
| `PushStorage.PendingCleanup.MergeFallbackPushCleanup` | lib/matrix/notifications.ts:796-821 | the loop over the fallback targets computes the merged cleanup |
| `PushStorage.PendingCleanup.IsComplete` | lib/matrix/notifications.ts:2218-2226 | the check is true exactly when every flag of the cleanup and of all its targets is set |
| `PushStorage.PendingCleanup.AbandonPushers` | lib/matrix/notifications.ts:2182-2186 | all pusher flags are set and nothing else changes |
| `MediaGateProofs.GateIsExact` | lib/matrix/media.ts:163-298 | after any calls the queued bytes are the sum of the queued reservations, within 256 MiB; at most one lease is out; at most four requests are admitted; and an open gate with a waiter has a holder |
| `MediaGateProofs.PumpStartsTheHead` | lib/matrix/media.ts:284-297 | from pump the early return of start is unreachable, the head of the queue gets the lease, and the subtraction of its bytes never meets Math.max |
| `MediaGateProofs.StepKeepsValid` | lib/matrix/media.ts:169-297 | acquire, release, abort and close keep the gate's invariant, including that no granted request has overtaken one still waiting and that no promise is settled twice |
| `MediaGateProofs.SettlesAtMostOnce` | lib/matrix/media.ts:204-238 | a settled promise keeps its outcome under every later call |
| `MediaGateProofs.ReleaseServesTheFirst` | lib/matrix/media.ts:216-229 | releasing the lease hands it to the first waiter and to no other |
| `MediaGateProofs.EveryWaiterIsServed` | lib/matrix/media.ts:284-297 | the k-th waiter of an open gate holds the lease after k + 1 releases |
| `MediaGateProofs.AbortNeverFreesTheLease` | lib/matrix/media.ts:259-282 | aborting signals the holder but leaves the lease out; aborting a waiter rejects it and removes only it |
| `MediaGateProofs.CloseRejectsEveryWaiter` | lib/matrix/media.ts:240-257 | closing rejects every waiter and leaves the lease that is out to its holder |
| `MediaGateProofs.IdleGateGrantsAtOnce` | lib/matrix/media.ts:169-190 | an idle open gate grants exactly the requests within the byte limit, at once |
| `MediaOperationGateObject.MediaOperationGate.constructor` | lib/matrix/media.ts:163-167 | a new gate is open, idle and valid |
| `MediaOperationGateObject.MediaOperationGate.Acquire` | lib/matrix/media.ts:169-238 | admission in place: the refusals in their order, or the request queued and pumped |
| `MediaOperationGateObject.MediaOperationGate.PumpQueue` | lib/matrix/media.ts:284-297 | the head is taken from the queue and started |
| `MediaOperationGateObject.MediaOperationGate.Release` | lib/matrix/media.ts:214-229 | a second release does nothing; the holder's release pumps |
| `MediaOperationGateObject.MediaOperationGate.AbortNode` | lib/matrix/media.ts:259-282 | a queued node is found, spliced out and rejected; an active one is signalled |
| `MediaOperationGateObject.MediaOperationGate.Close` | lib/matrix/media.ts:240-257 | the waiters are emptied out and rejected, the holder is signalled |
| `MediaCache.CacheStaysBounded` | lib/matrix/client.ts:2690-2709 | in any interleaving of loads, posters, invalidations and failures at most 96 entries are live, and at most 128 MiB are cached if no single item exceeds that |
| `MediaCache.SettlingEvictsOldestFirst` | lib/matrix/client.ts:2247-2253 | settling spares its own entry and every unsettled one, evicts only entries used before every evictable one it keeps, and ends within the limit if and only if the entry itself is within it |
| `MediaCache.TrimmedFits` | lib/matrix/client.ts:2700-2709 | eviction stops within the limit unless the spared entry alone exceeds it |
| `MediaCache.MadeRoomEvicts` | lib/matrix/client.ts:2690-2698 | making room evicts oldest first, and fails only when every live entry is unsettled |
| `MediaCache.OldestIsOldest` | lib/matrix/client.ts:2711-2748 | the candidate was used no later than any other evictable entry |
| `MediaCache.NoUnderflow` | lib/matrix/client.ts:2785-2787 | releasing never takes away more bytes than are counted |
| `MediaStore.DropKeepsValid` | lib/matrix/client.ts:2711-2796 | deleting an entry from its map and the alias index and releasing it keeps maps, index, size and running total in exact agreement with the entries |
| `MediaStore.InsertKeepsValid` | lib/matrix/client.ts:2214-2234 | so does adding an entry under a key that is not cached |
| `MediaStore.WeighedIsValid` | lib/matrix/client.ts:2247-2252 | and counting a settled entry; an entry is still in its map exactly when it is not released |
| `MediaStore.AliasGone` | lib/matrix/client.ts:2272-2295 | an alias without live entries is in neither map nor the index |
| `MediaStore.MediaCacheObject.constructor` | lib/matrix/client.ts:432-442 | an empty cache agrees with an empty list |
| `MediaStore.MediaCacheObject.RemoveMediaAlias` | lib/matrix/client.ts:2153-2165 | the key leaves the alias's set, and an emptied set leaves the index |
| `MediaStore.MediaCacheObject.ReleaseEntry` | lib/matrix/client.ts:2777-2821 | an entry is released once, and its bytes are taken off if it was settled |
| `MediaStore.MediaCacheObject.DropEntry` | lib/matrix/client.ts:2750-2775 | the entry leaves its map and the index and is released; everything stays in agreement |
| `MediaStore.MediaCacheObject.TouchCacheEntry` | lib/matrix/client.ts:2680-2688 | the entry becomes the most recently used |
| `MediaStore.MediaCacheObject.Scan` | lib/matrix/client.ts:2717-2748 | no evictable entry of the map was used before the candidate |
| `MediaStore.MediaCacheObject.EvictOldestSettledEntry` | lib/matrix/client.ts:2711-2775 | exactly the evictable entry used longest ago is evicted, if there is one |
| `MediaStore.MediaCacheObject.EnsureMediaCacheSlot` | lib/matrix/client.ts:2690-2698 | the loop evicts as far as needed and reports whether a slot is free |
| `MediaStore.MediaCacheObject.EvictMediaCache` | lib/matrix/client.ts:2700-2709 | the loop evicts exactly what trimming the entry list does |
| `MediaStore.MediaCacheObject.OpenEntry` | lib/matrix/client.ts:2213-2234 | a key not cached gets an unsettled entry, unless no slot could be made |
| `MediaStore.MediaCacheObject.SettleEntry` | lib/matrix/client.ts:2247-2253 | a load that succeeds counts its bytes if it is still cached and trims the cache, which then stays within the byte limit |
| `MediaStore.MediaCacheObject.FailEntry` | lib/matrix/client.ts:2256-2262 | a load that fails, or was invalidated, leaves no entry behind |
| `MediaStore.MediaCacheObject.InvalidateMedia` | lib/matrix/client.ts:2272-2295 | exactly the entries of both maps with this alias are released and gone, and the alias is gone from the index |
| `MediaStore.MediaCacheObject.ReleaseMediaAssets` | lib/matrix/client.ts:3793-3806 | everything is released and all maps and counters are empty |
| `ImageWalkers.AcceptedImagesAreBounded` | lib/matrix/media.ts:972-1021 | every accepted byte string has a canvas within the limits, all frames inside it, one rectangle per frame if animated, and neither frameCount x width x height nor the sum of frame areas exceeds 16,777,216 |
| `ImageWalkers.VerdictIsExact` | lib/matrix/media.ts:972-1021 | a byte string is accepted if and only if its size, format, canvas and rectangles are within the limits and frame count times canvas within the pixel limit, and it is not a GIF cut off in a descriptor after other frames nor a PNG whose header counts other frames than it has: the comparison of the walkers rejects nothing else |
| `ImageWalkers.GifWalkersDiffer` | lib/matrix/media.ts:497-608 | the two GIF walkers differ by at most one frame, and exactly when the walk ends on a descriptor truncated before its data |
| `ImageWalkers.TruncatedGifIsAStillImage` | lib/matrix/media.ts:1005-1010 | a GIF ending so is accepted only as a single frame |
| `ImageWalkers.WebpWalkersAgree` | lib/matrix/media.ts:680-752 | the two WebP walkers agree on the number of frames, and the rectangle walker throws exactly when some frame chunk is too short |
| `ImageWalkers.PngChunksInOrder` | lib/matrix/media.ts:625-640 | the chunks of a PNG walk do not overlap and come in file order |
| `ImageWalkers.PngChunkInside` | lib/matrix/media.ts:625-640 | and lie inside the file |
| `ImageWalkers.SkipGifSubBlocks` | lib/matrix/media.ts:444-464 | the loop computes the end of the sub-blocks and stays inside the bytes |
| `ImageWalkers.GifFrameCount` | lib/matrix/media.ts:497-546 | the loop counts the images of the block list |
| `ImageWalkers.GifFrameRects` | lib/matrix/media.ts:548-608 | the loop collects the rectangles of the block list |
| `ImageWalkers.PngFrameCount` | lib/matrix/media.ts:610-640 | the loop finds the animation header's frame count, or one |
| `ImageWalkers.PngFrameRects` | lib/matrix/media.ts:642-678 | the loop collects the frame control rectangles |
| `ImageWalkers.WebpFrameCount` | lib/matrix/media.ts:680-709 | the loop counts the frame chunks, at least one |
| `ImageWalkers.WebpFrameRects` | lib/matrix/media.ts:711-752 | the loop collects the frame rectangles or throws |
| `ImageWalkers.WebpDimensionsWalk` | lib/matrix/media.ts:894-951 | the loop finds the first chunk that declares dimensions |
| `ImageWalkers.JpegDimensionsWalk` | lib/matrix/media.ts:833-888 | the loops find the first start-of-frame segment of the segment list |
| `ImageWalkers.FirstFrameDecides` | lib/matrix/media.ts:833-888 | the dimensions are those of the first start-of-frame segment, wherever it stands in the list, and without one there are none |
| `ImageWalkers.JpegSegmentsInOrder` | lib/matrix/media.ts:843-885 | the segments lie in the file behind their markers and follow one another |
| `ImageWalkers.ValidateFrameRects` | lib/matrix/media.ts:473-495 | the loop accepts exactly the lists whose rectangles are all within the limits |
| `ImageWalkers.FrameCountWalk` | lib/matrix/media.ts:754-768 | the frame count falls through GIF, PNG and WebP |
| `ImageWalkers.AssertSafeImageBytes` | lib/matrix/media.ts:972-1021 | the whole check computes the verdict |
| `Base64Url.VaultAcceptsExactlyEncodings` | lib/security/session-vault-format.ts:144-186 | the vault's decoder returns given bytes for given text if and only if the text is the encoding of those bytes, which are not empty and within the length limits |
| `Base64Url.PrfAcceptsExactlyEncodings` | lib/security/webauthn-prf.ts:102-141 | the same of the passkey module's decoder |
| `Base64Url.DecodersAgree` | lib/security/session-vault-format.ts:144-186 | the two decoders, written separately, give the same answer on every text and all limits |
| `Base64Url.EncodingIsCanonical` | lib/security/session-vault-format.ts:134-186 | decoding undoes encoding, and no two byte strings share an encoding |
| `Base64Url.EncodeIsSextets` | lib/security/session-vault-format.ts:134-142 | the encoding is one URL-alphabet character per sextet, without padding |
| `Base64Url.EncodeBase64Url` | lib/security/session-vault-format.ts:134-142 | the accumulating loop encodes the whole array |
| `Base64Url.DecodeCanonicalBase64Url` | lib/security/session-vault-format.ts:144-186 | the decoder with its buffer accepts exactly the canonical texts, and leaves only zeros behind when it rejects |
| `AadJson.PayloadDataBindEverything` | lib/security/session-vault-format.ts:776-790 | two payload encodings are equal if and only if record id, revision, storage and every field of every slot are |
| `AadJson.SlotDataBindTheSlot` | lib/security/session-vault-format.ts:751-774 | two slot encodings are equal if and only if the record id and everything of the slot but the wrapped key are |
| `AadJson.HkdfInfoBindsTheSlot` | lib/security/session-vault-format.ts:792-799 | two HKDF infos are equal if and only if record id and slot id are |
| `AadJson.PurposesNeverCollide` | lib/security/session-vault-format.ts:751-799 | no payload, slot or HKDF encoding ever equals one of another kind |
| `AadJson.PrintIsInjective` | lib/security/session-vault-format.ts:747-749 | different trees of arrays, strings, numbers and null never print alike |
| `AadJson.ValuesEnd` | lib/security/session-vault-format.ts:747-749 | a printed value followed by a delimiter determines the value and where it ends |
| `AadJson.SlotFieldsInjective` | lib/security/session-vault-format.ts:730-745 | the canonical slot metadata determine the slot |
| `StoredValues.ExactEqualIsEquality` | lib/security/session-vault-format.ts:801-839 | on values without sparse arrays the recursive comparison is equality, except exactly where a buffer faces an empty record |
| `StoredValues.ABufferPassesForAnEmptyRecord` | lib/security/session-vault-format.ts:801-839 | the exception is real: an ArrayBuffer of any content compares equal to an empty object |
| `StoredValues.SparseNeverEqualsItsCopy` | lib/security/session-vault-format.ts:817-824 | a value equals a separate copy of itself exactly when its arrays are dense |
| `LinkScanner.TruncationIsInvisible` | lib/youtube-preview.ts:65-128 | for every body the tokens found in the bounded part are a prefix of those found in the whole body |
| `LinkScanner.FoundInPrefix` | lib/youtube-preview.ts:90-128 | before a safe cut a scan meets the same thing as in the whole body |
| `LinkScanner.CutIsSafe` | lib/youtube-preview.ts:65-88 | the bounded body always ends where no token can be cut |
| `LinkScanner.BoundedBody` | lib/youtube-preview.ts:65-88 | the backward loop finds the cut |
| `LinkScanner.ScanRawYouTubeTokens` | lib/youtube-preview.ts:90-128 | the loop collects the tokens of the bounded body |
| `LinkParser.WatchUrlRoundTrip` | lib/youtube-preview.ts:179-276 | parsing a printed watch URL gives the id back if and only if it has the form of an id |
| `LinkParser.WatchUrlPreviewsItsId` | lib/youtube-preview.ts:244-276 | a message that is just this URL previews just this id |
| `LinkParser.PreviewIdsAreExact` | lib/youtube-preview.ts:244-268 | the ids shown are the first three different ones named by tokens, in token order; so they are valid, distinct, each parsed from a token, and all of them when fewer than three |
| `LinkParser.ParseWatchQueryLoop` | lib/youtube-preview.ts:149-177 | the loop over the query fields computes the parse, rejecting repeated and unknown keys |
| `LinkParser.ParseYouTubeVideoIdsLoop` | lib/youtube-preview.ts:244-268 | the loop with its set of ids seen computes the list |
| `RateLimiter.AtMostTwiceTheLimit` | lib/push-repository.ts:204-246 | for any requests at non-decreasing times, any stored row and any interval of the window's length, at most twice the limit is allowed |
| `RateLimiter.TwiceTheLimitHappens` | lib/push-repository.ts:204-246 | for every limit and window there are requests that reach that bound |
| `RateLimiter.AllowedInInterval` | lib/push-repository.ts:204-246 | what an interval of the window's length lets through is exactly what the window open at its first request has left, as far as requests come before that runs out, plus the first `limit` of the requests after |
| `RateLimiter.ExceedsExactlyThen` | lib/push-repository.ts:204-246 | it lets more than `limit` through if and only if the row turns over inside it and what passes before and after adds up to more than `limit` |
| `RateLimiter.RestOfStoredWindowPasses` | lib/push-repository.ts:204-246 | of the window already stored when a run begins, exactly as many requests pass as its count leaves |
| `RateLimiter.FirstOfEachWindowPass` | lib/push-repository.ts:204-246 | within a stored window requests are numbered from the one that opened it, and exactly the first `limit` pass |
| `RateLimiter.Budget.ConsumeRateLimit` | lib/push-repository.ts:204-224 | one update moves the row to the next count or to a new window and answers by the count; without a row the answer is no |
| `WorkerPool.PoolIsExact` | lib/push-server.ts:275-293 | in every interleaving no index is mapped twice, nothing wrong is stored, at most min(concurrency, n) calls are in flight, and when all workers have returned every index was mapped once and holds its answer |
| `WorkerPool.PoolFinishes` | lib/push-server.ts:275-293 | the pool is over after exactly n plus the number of workers moves, in whatever order they come |
| `WorkerPool.NoWorkersNoResults` | lib/push-server.ts:275-293 | with a concurrency below one or no items, and only then, it returns at once without mapping anything |
| `WorkerPool.Workers.constructor` | lib/push-server.ts:280-282 | the cursor starts at zero with an empty result array and min(concurrency, n) workers |
| `WorkerPool.Workers.TakeNextIndex` | lib/push-server.ts:283-284 | the loop head takes the next index or returns |
| `WorkerPool.Workers.Resume` | lib/push-server.ts:283-287 | a worker stores its answer in place and goes on, keeping the invariant |

## Left out

- Cryptography, WebAuthn ceremonies, the Matrix SDK, fetch, timers and the DOM: only their outcomes appear, as events and parameters.
- Everything in `app/`, headers, login discovery, drafts, URL policy, and validation of stored records: they would add easy members.
- The startup of the service: runs begin with a service that has started, so a pending start and its closing of a partial runtime are not modelled.
- A token endpoint that issues the same credential twice: a response with a credential already issued or revoked changes nothing.
- `MatrixLogoutProofs.LogoutIsTruthfulExactlyThen`: takes it that a credential comes from its own issue only; the token endpoint does not hand out one the vault holds, and no other tab writes this service's.
- Client listeners, the snapshot, and which error text a stop shows.
- A refresh call on a stopped service is refused without a change of state; in the source it rejects.
- Record revisions are unbounded; the source rejects them beyond the safe integers.
- Cancellation that arrives exactly when a transaction completes, and an IndexedDB deletion that finishes after it timed out.
- `SessionVaultProofs.CleanupNeverHitsLiveSession`: says when a deletion is issued, not when a slow one ends.
- Cell comparisons in the vault are equality; `StoredValues` says where `exactStoredValueEqual` differs.
- The worker's answers to SET and CLEAR take effect when sent or not at all; a message that is carried out after its timeout is not modelled.
- A registration request that reaches the gateway after a later deletion of the same key: keys count as owed from sending to the next confirmed deletion.
- The endpoint, cleanup id and legacy push key fields of the push records, and damaged records; a removal from localStorage never fails.
- Browser unsubscription during a rollback: it changes none of the keys.
- `PushJournalProofs.JournalGoesOnlyWhenDone`: starts from stored credentials without a cleanup record; journals from before the run are covered once they have been written by it.
- Object URLs, promises and abort controllers of the media cache; entries are numbered and the maps hold their numbers. The iteration order of a Map is left open.
- `MediaCache.CacheStaysBounded`: assumes that no single asset or poster exceeds 128 MiB, which the download and poster limits ensure elsewhere.
- Whether an image's compressed data matches its headers.
- UTF-8: additional data are compared as text, which encodes without loss.
- Texts are sequences of characters; a character outside the Basic Multilingual Plane counts once, where the source counts two code units.
- Keyless objects other than ArrayBuffer (dates, keys) in the comparison of stored values, and the same object compared with itself.
- The SQL behind the limiter is one atomic update; a mapper that rejects is not part of the pool's model.
- Delivery claims (`releaseDelivery` has no owner token) and read markers.
