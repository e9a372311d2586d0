# Wispdeck replication, update and control-plane models

Dafny models of the parts of Wispdeck where several operations have to agree with each other, with proofs
of what holds over every run. `dafny verify dfyconfig.toml` checks the whole project.

Objects that the program updates in place are classes, and their methods follow its statements and loops.
Each method is proved against a function of the old state. Those functions carry the theorems over runs.

**Replication.** `ChangeLog` holds documents, changes and the ordered map that a browser keeps. `DocumentTable`
is the `documents` table in index order. `DocumentStore` is the SQLite store, with one transaction per
operation. `StoreEffects` says what each of them does to what a client can look up. `StoreHistory`,
`RetainedLog` and `StorePromises` relate it to the untrimmed history. `PagedChanges` reads the change feed page
by page, and `FuzzyListing` and `PagedListing` treat listing pages that are read at different moments.
`ChangeHub` is the in-memory fan-out, `ChangeStream` the event-stream handler and `BrowserClient` the
subscription object in the browser. `Convergence` puts writers, trimmer, publisher, stream, wire and browser
into one state machine. `CatchUp` shows that this machine always gets to the end of its work, and `PublishOrder`
what is lost when changes are published out of order.

**Update and restore.** `UpdateRecovery` is the recovery marker around an exchange of two executables, with a
crash or a failure possible at each file operation, and `UpdateFailures` holds the runs in which it fails.
`RestoreInstall` is the replacement of several files by renames that may each fail.

**Limits and caches.** `RequestLimiter` is the token buckets and stream slots, `RequestBounds` what they promise to
requests in the configured numbers. `LoginLimiter` is the sliding windows. `StoreCache` is the cache of open stores
with leases, and `CacheEffects` what each of its steps does.

**Control plane.** `PublicNames` is the registry of permanent names shared by short links and sites, with
`NameEffects` for the single transactions. `Factors` is users, sessions, passkeys, TOTP and recovery codes, with
`AccountEffects`. `ReleaseVersion` is the version parser.

## Assumptions

- In `Convergence` and `CatchUp` changes are published in commit order. They are published after the transaction and
  outside it (`wispist/http.go:450-459`), so nothing in the code enforces this. `PublishOrder.GapFreeIff` gives
  the exact condition without the assumption: a stream has a gap if and only if a change it owes arrives after a
  later one, or not at all. `PublishOrder.LatePublishLosesChange` is a run of two commits in which the handler drops
  one event and no reset follows, although `docs/wispist.md:696-714` promises delivery without gaps.
- The clock of committed operations does not run backwards. `RetainedLog.GapIffStranded` gives the exact
  condition for a hole in the log without this assumption, and `RetainedLog.ClockStepBackLosesChange` a run
  in which a reader misses a change silently, contrary to `docs/wispist.md:1138`.
- There is one epoch: `PurgeNamespace` restarts the sequences, so no cursor or history spans it.
- In `Convergence` whoever may read the collection may read every document of it. `ChangeStream` allows any
  set of changes to be hidden.
- In `Factors` the transactions may name any relying-party IDs. The invariant about opting out of the second factor
  holds for one of them, in every state of a run, if and only if no transaction opts a user out over a passkey
  under it, by asking about another (`Factors.AuthInvariantIff`). With one relying party that cannot happen. A factor
  is lost without a reset only in the way that `Factors.FactorHeldIff` names. Both really happen with two
  relying parties (`Factors.OtherRpEscapes`, `Factors.OtherRpDrops`).
- In `UpdateRecovery` the two versions differ, one update runs from begin to end, a file operation is
  durable once it has returned, and restoring the backup is one step. Every operation may fail and every step may be
  interrupted. `UpdateRecovery.RecoversIffNoneFatal` says exactly when the update survives that: unless a deferred
  undo goes on after it could not undo the exchange or remove the marker, or a rollback without a marker is cut
  short. `UpdateFailures` reaches each of these from a fresh installation.
- In `RequestLimiter` the main theorems assume that a bucket is full again after `BucketIdleTime`.
  `RequestLimiter.PruneHarmlessIff` shows that pruning is harmless exactly then, and
  `RequestLimiter.DefaultsCover` that the default limits satisfy it. Token counts are reals.
- Random IDs, revisions and digests are parameters. Fresh IDs are assumed only where a `requires` says so.

## Model

| member | source | states |
|---|---|---|
| `Convergence.Converges` | wispist/client/v1.js:210-302 | after any run of commits, trims, publishes, page reads, deliveries, lost connections, resets and re-lists, the changes after a listed browser's cursor lead from its map to exactly the server's collection in the server's order |
| `Convergence.QuietMeansEqual` | wispist/client/v1.js:210-302 | when nothing is on its way, the browser's map is the server's collection, element for element and in order |
| `Convergence.StreamIsGapFree` | wispist/sse.go:95-216 | across the switch from backlog to live events, an open stream has written exactly the subscribed changes between the cursor it was opened at and its last sequence |
| `Convergence.StepKeeps` | wispist/sse.go:24-216 | the invariant that ties store, log, publisher, channel, stream, wire, cursor and map together survives every event, with no bound on the run |
| `CatchUp.AlwaysCatchesUp` | wispist/client/v1.js:210-302 | after any run, once writes and failures pause, the remaining steps, taken in whatever order, are fewer than 64 (n + 1) squared for n commits; when none is left, browser and server are equal |
| `CatchUp.WorkLess` | wispist/client/v1.js:210-302 | every step of publisher, stream or browser that has something to work on lowers a lexicographic measure, through resets and re-listing |
| `CatchUp.RestIsQuiet` | wispist/sse.go:95-216 | a live system with no step left to take has nothing on its way: nobody waits forever |
| `CatchUp.WritesArrive` | wispist/client/v1.js:210-302 | whatever write comes after any run, once the system rests every open browser shows the table that write left, in content and order |
| `CatchUp.LossIsNoticed` | wispist/client/v1.js:255-269 | a lost connection or unreadable event loses what was on its way, and the browser takes it up |
| `CatchUp.EndIsNoticed` | wispist/client/v1.js:285-301 | so with a failed listing and a stopped subscription |
| `CatchUp.ResetIsSent` | wispist/sse.go:185-192 | a stream that follows and is reset writes that after everything it has written, and ends |
| `PagedListing.FuzzyServed` | wispist/sqlite/store.go:33-125 | a page read at any later moment is served without error, extends the listing without a repeated document, and a last page leaves a map that replay from the watermark turns into the collection |
| `PagedListing.FuzzyRun` | wispist/sqlite/store.go:33-125 | a half-finished listing stays correct under any operations between two pages |
| `PagedListing.ListServes` | wispist/sqlite/store.go:33-125 | a page holds exactly the collection's rows whose creation sequence lies between the old and new cursor, in order; a page that is not the last moves the cursor towards the watermark |
| `PagedListing.ListState` | wispist/client/v1.js:123-143 | the paging loop ends after at most watermark + 1 pages, whatever is written between them, and its result replays to the server's collection |
| `FuzzyListing.FuzzyChange` | wispist/sqlite/store.go:33-125 | one change committed between two pages, whatever it touches, keeps the relation between the pages already read, the rows still to be read and the changes after the watermark |
| `FuzzyListing.FuzzyPage` | wispist/sqlite/store.go:69-124 | reading the next page keeps that relation although the page already shows later changes |
| `FuzzyListing.FuzzyDone` | wispist/client/v1.js:123-143 | once no rows below the watermark are left, replaying the changes since the watermark onto what was listed gives the collection |
| `FuzzyListing.SplitReplayIsReplay` | wispist/client/v1.js:248-254 | replaying onto a map is replaying separately onto its listed and its later-added part |
| `DocumentTable.ProjectApply` | wispist/sqlite/store.go:33-125 | the ordered listing of a collection after a legal change is the map update applied to the listing before it |
| `DocumentTable.ApplyRowShape` | wispist/sqlite/store.go:146-373 | a legal change keeps the table ordered by creation sequence with one row per key |
| `DocumentStore.Store.CreateDocument` | wispist/sqlite/store.go:146-229 | the transaction's whole effect: replayed, refused or stored, with sequence, log entry, trim and idempotency record, and no other namespace touched |
| `DocumentStore.Store.PutDocument` | wispist/sqlite/store.go:231-320 | likewise for creation by name and for conditional replacement, including which error wins |
| `DocumentStore.Store.DeleteDocument` | wispist/sqlite/store.go:322-373 | likewise for conditional deletion |
| `DocumentStore.Store.ClearCollection` | wispist/sqlite/admin.go:103-173 | the loop over the collection's rows has the effect of one deletion after another, each with its own sequence, trimmed once at the end |
| `DocumentStore.Store.PurgeNamespace` | wispist/sqlite/admin.go:175-195 | the namespace is as if it had never been written, and no other is touched |
| `DocumentStore.Store.HighWater` | wispist/sqlite/store.go:375-386 | the cursor of the newest committed change, or zero |
| `DocumentStore.Store.ListDocuments` | wispist/sqlite/store.go:33-125 | a page for either kind of cursor, its own watermark for the first page, and the error for a cursor of another listing |
| `DocumentStore.Store.QueryRows` | wispist/sqlite/store.go:69-110 | the limited query returns the longest allowed prefix of the matching rows |
| `DocumentStore.Store.ReadChanges` | wispist/sqlite/store.go:388-488 | one page of the change feed, including the errors for foreign, future and expired cursors |
| `StoreEffects.PutStores` | wispist/sqlite/store.go:231-320 | a stored document carries the request's ID and data, the new revision and the right times; its key now finds it, every other key finds what it found before, one change announces it, and any other answer leaves the store as it was |
| `StoreEffects.PutAnswers` | wispist/sqlite/store.go:245-264 | which answer a put gets, from what is stored under its key and from the room there is |
| `StoreEffects.CreateStores` | wispist/sqlite/store.go:146-229 | likewise for a create; the recorded answer is the stored document until the retention runs out, and expired records go |
| `StoreEffects.CreateAnswers` | wispist/sqlite/store.go:146-229 | a live record of the key decides first, then the ID, then the room, the number of live records included |
| `StoreEffects.DeleteRemoves` | wispist/sqlite/store.go:322-373 | a deletion that succeeds takes away that key only and announces the revision it removed |
| `StoreEffects.ClearEmpties` | wispist/sqlite/admin.go:103-173 | clearing empties the collection, announces each document once, in order, and leaves the other collections alone |
| `StoreEffects.LookupApply` | wispist/sqlite/store.go:297-318 | a committed change sets its own key to what it carries and touches no other |
| `StoreEffects.CommitLogs` | wispist/sqlite/store.go:565-614 | a commit takes the next sequences, is logged with its time, and leaves nothing too old and no more than the bound |
| `StoreEffects.ListRefusesIff` | wispist/sqlite/store.go:50-67 | a listing cursor is refused exactly if it is of another namespace or collection, or reaches beyond the log |
| `StoreEffects.ForeignFeedRefused` | wispist/sqlite/store.go:388-488 | a feed cursor is invalid exactly if it is of another namespace or beyond the log |
| `StoreHistory.TableIsFoldOfHistory` | wispist/sqlite/store.go:146-373 | after any run every sequence up to the last belongs to exactly one change and each collection is the replay of the whole untrimmed history |
| `StoreHistory.HistoryIsChained` | wispist/sqlite/store.go:146-373 | read off the history alone: creates fill gaps, updates and deletes follow a live change, and a delete repeats the revision set just before |
| `StoreHistory.UpdateSeesLatest` | wispist/sqlite/store.go:231-320 | a replacement is not found iff the history leaves the document absent, conflicts iff the latest change has another revision, and otherwise keeps the creation time and does not go back in time |
| `StoreHistory.DeleteSeesLatest` | wispist/sqlite/store.go:322-373 | a deletion succeeds iff the caller names the revision of the latest change |
| `StoreHistory.CreateOnlyWhereAbsent` | wispist/sqlite/store.go:231-320 | a create-only put conflicts iff the history leaves the document present |
| `StoreHistory.ClearPrefix` | wispist/sqlite/admin.go:138-165 | after i iterations the clearing loop has committed i legal deletions and the rest of the collection is left |
| `StoreHistory.ExecLegal` | wispist/sqlite/store.go:146-373 | every operation commits only changes that are legal where they apply, numbered without a gap, or nothing at all |
| `RetainedLog.LogStaysContiguous` | wispist/sqlite/store.go:597-614 | under a steady clock the retained changes are always the newest ones, unbroken, in order of time |
| `RetainedLog.NoSilentGap` | wispist/sqlite/store.go:388-488 | a cursor is refused as expired exactly when a change after it has been trimmed, as invalid exactly beyond the end, and otherwise the page is exact |
| `RetainedLog.ChangesExact` | wispist/sqlite/store.go:388-488 | one page holds precisely the wanted changes between the two cursors; a page that promises more is full and moves on, the last reaches the end |
| `PagedChanges.PagesAreExact` | wispist/sqlite/store.go:388-488 | over any run of pages with commits and trims between them, the pages put together are exactly the wanted changes from the first cursor to the last, also when the reader is turned away in the end |
| `PagedChanges.ReadExact` | wispist/sqlite/store.go:388-488 | at each page the reader is turned away exactly when a change after its position has been trimmed; otherwise it moves on or has reached the end |
| `PagedChanges.PausedReaderFinishes` | wispist/sqlite/store.go:388-488 | once the others pause, a reader that is not turned away has every wanted change after as many pages as there are changes left |
| `RetainedLog.GapIffStranded` | wispist/sqlite/store.go:597-614 | at any clock reading, one trim of a contiguous log opens a silent gap if and only if an entry older than the cutoff stands between retained ones |
| `RetainedLog.TrimSuffixIff` | wispist/sqlite/store.go:597-614 | trimming keeps a suffix of the log if and only if no such entry exists |
| `RetainedLog.TrimExact` | wispist/sqlite/store.go:597-614 | an ordered log keeps an entry exactly if it is young enough and among the newest allowed |
| `RetainedLog.ClockStepBackLosesChange` | wispist/sqlite/store.go:597-614 | three commits with one earlier clock reading after which a reader gets a page without error that misses a change |
| `StorePromises.CreateOnce` | wispist/sqlite/store.go:146-229 | after a successful create, every later create with its key before its expiry changes nothing and returns the document first stored, or conflicts if it is another request |
| `StorePromises.BoundsHold` | wispist/sqlite/store.go:511-552 | with fixed limits no run exceeds the caps on idempotency records, namespace bytes and documents per collection |
| `ChangeHub.HubDelivers` | wispist/hub.go:29-100 | over every run, what a live subscriber has received and has queued is exactly what was published to it; a dropped one finds a prefix, at most one reset, and a closed channel; queues stay bounded and no namespace entry is empty |
| `ChangeHub.HubStepKeeps` | wispist/hub.go:29-100 | live subscriptions and open channels correspond one to one through every operation |
| `ChangeHub.SubscribeOpens` | wispist/hub.go:29-48 | a new subscriber gets a fresh ID and an open, empty channel for its collections, and nobody else notices |
| `ChangeHub.UnsubscribeCloses` | wispist/hub.go:50-63 | an unsubscribed channel is closed with what it holds, and its ID is live nowhere; a second time does nothing |
| `ChangeHub.PublishReaches` | wispist/hub.go:65-83 | each live subscriber that wants the change and has room gets it; one without room is dropped with its queue as it was |
| `ChangeHub.PublishSpares` | wispist/hub.go:65-83 | no other channel and no other namespace is touched |
| `ChangeHub.ResetTells` | wispist/hub.go:85-100 | each subscriber of the namespace is left with exactly the reset event and a closed channel, live nowhere, and everybody else as before |
| `ChangeHub.Hub.SubscribeTo` | wispist/hub.go:29-48 | registers a new channel under the next ID |
| `ChangeHub.Hub.UnsubscribeFrom` | wispist/hub.go:50-63 | closes the channel once, only if still registered, and drops an emptied namespace |
| `ChangeHub.Hub.PublishChange` | wispist/hub.go:65-83 | offers the change to each interested subscriber and drops and closes those whose queue is full |
| `ChangeHub.Hub.ResetNamespace` | wispist/hub.go:85-100 | every subscriber of the namespace ends with exactly the reset event queued and its channel closed |
| `ChangeHub.Hub.OfferEach` | wispist/hub.go:65-83 | the loop in map order has the same effect for every order; nothing is sent on a closed or full channel |
| `ChangeHub.Hub.ResetEach` | wispist/hub.go:85-100 | the loop drains, sends and closes each channel; the reset always fits |
| `ChangeStream.NeverRepeats` | wispist/sse.go:146-215 | for any input whatever, written sequences strictly increase |
| `PublishOrder.GapFreeIff` | wispist/sse.go:180-205 | for any committed changes arriving in any order, and whatever is withheld: nothing owed below the stream's last sequence is missing if and only if every change owed up to the highest event arrives, and before any later one |
| `PublishOrder.WrittenWholeIffInTurn` | wispist/sse.go:193-203 | a batch of events adds exactly its readable events above the cursor, in order of arrival, if and only if none of them arrives after one with the same or a higher sequence; repeats covered by the backlog and withheld events do not matter |
| `PublishOrder.WrittenMember` | wispist/sse.go:193-203 | an event is written if and only if it is readable, above the cursor, and the first to arrive with its sequence or a higher one |
| `PublishOrder.LatePublishLosesChange` | wispist/http.go:450-459 | two commits published in the order 2, 1 to an open channel with room: the stream follows on, at sequence 2, without change 1 |
| `PublishOrder.BrowserMissesDocument` | wispist/client/v1.js:248-254 | the browser at the other end has a cursor past both changes and shows one document of two |
| `ChangeStream.BeginKeeps` | wispist/sse.go:95-145 | subscribing before the backlog read leaves no change that neither the backlog nor the channel holds |
| `ChangeStream.ReadKeeps` | wispist/sse.go:168-176 | the next backlog page continues where the last ended, or the stream resets because history was trimmed |
| `ChangeStream.SendKeeps` | wispist/sse.go:146-170 | sending a backlog page advances the stream by exactly the shown changes up to the page's cursor |
| `ChangeStream.TakeKeeps` | wispist/sse.go:180-215 | a live event already covered by the backlog is skipped, any other is the very next wanted change |
| `ChangeStream.PublishGoodNext` | wispist/hub.go:65-83 | publishing the next change keeps the channel a run of wanted changes, or closes it |
| `ChangeStream.CommitKeeps` | wispist/sse.go:24-216 | commits during any phase leave the connection correct |
| `ChangeStream.BeginsAtHighWater` | wispist/sse.go:106-145 | a stream opened without a cursor starts at the newest change, has nothing to catch up on and follows the live events |
| `ChangeStream.BeginsWithoutStore` | wispist/sse.go:106-139 | before a store exists only the beginning of the feed is a place to start |
| `ChangeStream.ReasonsTold` | wispist/sse.go:131-190 | which reason a reset gives |
| `ChangeStream.Handler.BeginBacklog` | wispist/sse.go:95-145 | which cursor the stream opens at, and when it is refused or reset |
| `ChangeStream.Handler.WriteBacklogPage` | wispist/sse.go:147-170 | the loop over a page writes each shown change and moves to the page's cursor |
| `ChangeStream.Handler.ReadBacklogPage` | wispist/sse.go:171-175 | the next page or a reset |
| `ChangeStream.Handler.WriteChange` | wispist/sse.go:193-203 | a change is written only past the last sequence and only if it may be read |
| `ChangeStream.Handler.ReceiveEvent` | wispist/sse.go:180-215 | a closed channel or a reset event ends the stream with a reset; a change is de-duplicated by sequence |
| `BrowserClient.OneActivityAtATime` | wispist/client/v1.js:210-302 | in every run at most one of listing, timer and connection is active, and a stopped subscription has none |
| `BrowserClient.WireIsChange` | wispist/sse.go:244-256 | handling a change event as it is encoded on the wire is applying the change |
| `BrowserClient.MapOfDistinct` | wispist/client/v1.js:270-292 | building the map from distinct listed documents keeps their order |
| `BrowserClient.LossesBackOff` | wispist/client/v1.js:233-269 | n lost connections in a row are taken up again at the same cursor with the same documents, after waits that double from half a second up to half a minute |
| `BrowserClient.OpeningCalms` | wispist/client/v1.js:247 | an opened connection starts the waits over and changes nothing else |
| `BrowserClient.ResetsRelist` | wispist/client/v1.js:255-264 | a reset, an unreadable event and a failed listing lead to a new listing, with documents and cursor kept until it arrives |
| `BrowserClient.ListingReplaces` | wispist/client/v1.js:276-284 | a listing replaces documents and cursor at once and opens the stream from there |
| `BrowserClient.StoppedIsDeaf` | wispist/client/v1.js:295-301 | after the subscription is stopped nothing that arrives has any effect |
| `BrowserClient.LiveCollection.StartListing` | wispist/client/v1.js:270-292 | a listing starts only when none runs and the subscription is alive |
| `BrowserClient.LiveCollection.FinishListing` | wispist/client/v1.js:270-292 | map and cursor are replaced together and the connection is opened, unless the subscription was stopped meanwhile |
| `BrowserClient.LiveCollection.HandleChange` | wispist/client/v1.js:248-260 | the change is applied and the cursor follows the event's ID |
| `BrowserClient.LiveCollection.HandleReset` | wispist/client/v1.js:261-264 | the connection is closed and a new listing is due |
| `BrowserClient.LiveCollection.HandleError` | wispist/client/v1.js:265-269 | the connection is closed and reconnecting from the same cursor is due |
| `BrowserClient.LiveCollection.HandleOpen` | wispist/client/v1.js:247 | an opened connection resets the back-off and nothing else |
| `BrowserClient.LiveCollection.FailListing` | wispist/client/v1.js:285-291 | a failed listing is due again after the back-off |
| `BrowserClient.LiveCollection.FireTimer` | wispist/client/v1.js:233-241 | the timer leads to a new listing or to reconnecting, as scheduled |
| `UpdateRecovery.UpdateIsCrashSafe` | internal/updater/activate.go:65-282 | with crashes between any two steps and failures of any operation, unless a step was fatal: the old binary never serves data the new one wrote, the new one gets at most one unconfirmed start and serves on only after it, both executables are at hand while an update is pending, and a finished rollback has put back exactly the backed-up data |
| `UpdateRecovery.RecoveryTerminates` | internal/updater/activate.go:175-282 | from every state that a run without a fatal step reaches, twenty fault-free steps leave no marker and either the old binary on the data of before the update or the new binary confirmed; in the middle of a botched undo, after a crash |
| `UpdateRecovery.HealthDecides` | internal/updater/activate.go:175-282 | after any run without a fatal step, which binary serves in the end: from a trial the new one if and only if it is healthy, and from start-up by the marker, its attempts and the installed binary |
| `UpdateRecovery.ReachesDestiny` | internal/updater/activate.go:65-282 | likewise from inside any operation |
| `UpdateRecovery.SettlesTidy` | internal/updater/activate.go:194-282 | settling a pending update also removes the other executable |
| `UpdateRecovery.RecoversIffNoneFatal` | internal/updater/activate.go:65-282 | over every run: the update can be brought to its end from every state on the way if and only if no step was fatal, by the guard of the two kinds of fatal step |
| `UpdateRecovery.StepKeepsIff` | internal/updater/activate.go:65-282 | the invariant is kept by every failure and every crash but the fatal ones, and by none of those |
| `UpdateRecovery.FatalNeverSettles` | internal/updater/activate.go:65-282 | after a fatal step and with an unhealthy new binary the update never settles: a binary serves that must not, or none ever does |
| `UpdateFailures.MarkerStays` | internal/updater/activate.go:129-173 | a run in which the undo cannot remove the marker and removes the other executable: whatever the health check says, nothing serves again |
| `UpdateFailures.ExchangeStays` | internal/updater/activate.go:129-173 | a run in which the undo cannot undo the exchange and removes the marker: the new binary serves without a trial |
| `UpdateFailures.ConfirmationFails` | internal/updater/activate.go:222-282 | a run in which a confirmation fails after removing the marker and the rollback crashes: the old binary serves data the new one wrote |
| `UpdateRecovery.RankFalls` | internal/updater/activate.go:175-282 | each fault-free step lowers a measure over the marker's phase and attempts, the installed binary and the operation under way |
| `UpdateRecovery.RollbackSafeIff` | internal/updater/activate.go:238-282 | a rollback of an installed update can be interrupted anywhere if and only if the marker is still there or the new binary has written nothing |
| `UpdateRecovery.UndoRecoversIff` | internal/updater/activate.go:129-173 | exactly which failures of the three deferred undo actions leave a state from which start-up settles the update, whatever the health check says; from any other, with an unhealthy new binary, it never does |
| `UpdateRecovery.StuckWithoutPrevious` | internal/updater/activate.go:238-282 | without the previous file a demanded rollback is refused and every later start ends the same way |
| `UpdateRecovery.Installation.Activate` | internal/updater/activate.go:65-173 | the statements and deferred actions perform exactly the machine's steps, for every outcome of every operation |
| `UpdateRecovery.Installation.Prepare` | internal/updater/activate.go:112-153 | which deferred actions are armed at each point of failure |
| `UpdateRecovery.Installation.Complete` | internal/updater/activate.go:159-172 | verification, the activated marker and the sync, up to disarming the undo |
| `UpdateRecovery.Installation.RunDeferred` | internal/updater/activate.go:130-158 | the deferred actions run in reverse order and go on after failures |
| `UpdateRecovery.Installation.BeginStartup` | internal/updater/activate.go:175-220 | the decision from marker and running binary, and its durable attempt counter |
| `UpdateRecovery.Installation.ConfirmStartup` | internal/updater/activate.go:222-236 | the marker goes before the previous file |
| `UpdateRecovery.Installation.Rollback` | internal/updater/activate.go:238-282 | checks, exchange, data, and clean-up, with the exchange undone when the data cannot be restored |
| `RestoreInstall.Restorer.InstallExtractedBackup` | internal/installation/restore.go:360-462 | all or nothing, whichever operations fail: each report says what is on the disk, it is decided by the stretch in which the first failure falls, and without a failure the backup is installed; every state on the way has all originals at their targets or kept beside them, or is fully restored |
| `RestoreInstall.Restorer.Replace` | internal/installation/restore.go:360-462 | the same up to the clean-up of staged files: preparation, moves, commit point and the two roll-back paths, with the report as a function of the failures in each |
| `RestoreInstall.Restorer.FailAfterMutation` | internal/installation/restore.go:388-405 | after a failed move the report says whether moving back was complete, which it is unless an operation of it fails |
| `RestoreInstall.Restorer.RemoveStaged` | internal/installation/restore.go:365-371 | no staged file is left unless a removal fails |
| `RestoreInstall.Restorer.MoveAll` | internal/installation/restore.go:424-446 | the move loop keeps the flags true to the disk at each failure, and succeeds exactly if no operation fails |
| `RestoreInstall.Restorer.RollbackReplacements` | internal/installation/restore.go:599-616 | going back through the list, with any failures on the way no original is lost; it succeeds exactly if none fails, and then everything is as before |
| `RestoreInstall.Restorer.UndoOne` | internal/installation/restore.go:599-616 | one replacement is undone without touching the others |
| `RestoreInstall.MoveKeeps` | internal/installation/restore.go:431-435 | moving an original aside keeps every other file and its own content reachable |
| `RestoreInstall.InstallKeeps` | internal/installation/restore.go:439-445 | moving a staged file into place keeps every original |
| `RestoreInstall.DoneInstalled` | internal/installation/restore.go:360-462 | once every replacement is done, every target holds the staged content or is absent |
| `RequestLimiter.AdmissionBound` | wispist/limit.go:43-125 | after any run, in any stretch of time a bucket admits at most its burst plus its rate times the length, although idle buckets are dropped and re-created full; the number of buckets never exceeds the cap |
| `RequestBounds.RequestsBounded` | wispist/limit.go:43-125 | over every run and for each limit, by the configured numbers: all requests, the reads or mutations of one client, the mutations and the generated documents of one site admitted in a stretch of time are at most its burst plus its rate times the length |
| `RequestBounds.BurstAdmitted` | wispist/limit.go:43-125 | as many equal requests as each limit about them has at once are all admitted at the same moment |
| `RequestBounds.DrawsIff` | wispist/limit.go:44-75 | a request draws from the bucket of a limit if and only if the limit is about it, and from no other |
| `RequestBounds.RequestTakes` | wispist/limit.go:107-125 | an admitted request takes one token from each limit that is about it; no other limit loses any |
| `RequestBounds.RequestAdmittedIff` | wispist/limit.go:77-118 | with room for its buckets, a request is admitted if and only if each limit that is about it has a token left |
| `RequestBounds.PrunedIff` | wispist/limit.go:154-164 | a bucket is dropped exactly when a prune is due and nobody has been admitted through it for the idle time |
| `RequestBounds.UsedWhenAdmitted` | wispist/limit.go:107-116 | only an admitted request makes its buckets count as used |
| `RequestBounds.FullIff` | wispist/limit.go:79-88 | a request finds no room exactly if the buckets left after pruning and those it needs are too many |
| `RequestBounds.GainIsPerSecond` | wispist/limit.go:119-125 | a bucket below its burst gains the rate once for each second |
| `RequestLimiter.PruningIsInvisible` | wispist/limit.go:154-164 | while the cap turns nobody away, the decisions and waits are those of a limiter that never prunes |
| `RequestLimiter.PruneHarmlessIff` | wispist/limit.go:154-164 | dropping idle buckets never changes a level if and only if the idle time refills a whole burst |
| `RequestLimiter.DefaultsCover` | wispist/types.go:161-178 | the default limits satisfy that condition for all five kinds |
| `RequestLimiter.RetryAfterIsExact` | wispist/limit.go:77-125 | a denied request takes no token, and the same request is admitted after d nanoseconds if and only if d is at least the wait it was told |
| `RequestLimiter.LongestWaitIsLeast` | wispist/limit.go:90-106 | the maximum over the needed buckets is the least time after which all of them have a token |
| `RequestLimiter.RequestLimiter.AllowRequest` | wispist/limit.go:43-118 | pruning, counting missing buckets, waiting and taking in the program's order; the first refusal wins |
| `RequestLimiter.RequestLimiter.LongestWait` | wispist/limit.go:90-106 | refills every needed bucket and finds the longest wait |
| `RequestLimiter.RequestLimiter.TakeTokens` | wispist/limit.go:107-116 | takes one token from each needed bucket and from no other |
| `RequestLimiter.RequestLimiter.CountMissing` | wispist/limit.go:80-88 | how many buckets the request would add |
| `RequestLimiter.RequestLimiter.PruneIdle` | wispist/limit.go:154-164 | drops exactly the idle buckets, at most once a minute |
| `RequestLimiter.StreamSlots.Acquire` | wispist/limit.go:127-152 | admits a stream iff both counts, taken over the streams really open, are below their limits |
| `RequestLimiter.StreamSlots.Release` | wispist/limit.go:127-152 | removes exactly that stream from both counts and leaves no zero entry |
| `LoginLimiter.CountsFullHistory` | internal/limit/login.go:42-85 | with no more keys than the limiter holds, each answer is what counting all attempts ever made in the last period per user and per address would give |
| `LoginLimiter.CountsLogged` | internal/limit/login.go:42-85 | with any number of keys, an attempt is allowed exactly when there is room for its name and its address and counting every attempt that ever found room finds no more than the limits in the last period |
| `LoginLimiter.LoggedAllIff` | internal/limit/login.go:52-62 | the count is over all attempts if and only if every one of them found room for its key |
| `LoginLimiter.RoomIff` | internal/limit/login.go:52-85 | an attempt finds room exactly if its key had an attempt in the last period or fewer keys than the cap did: idle keys never stand in the way |
| `LoginLimiter.WindowBound` | internal/limit/login.go:42-85 | over every run, however many names and addresses are tried, any stretch of one period accepts at most the limit per key |
| `LoginLimiter.LoginLimiter.AllowAttempt` | internal/limit/login.go:42-50 | prunes, then records user and address, and both always count |
| `LoginLimiter.LoginLimiter.RecordAttempt` | internal/limit/login.go:52-69 | drops old attempts from the front, refuses at the limit or at the key cap, and otherwise records |
| `LoginLimiter.LoginLimiter.PruneWindows` | internal/limit/login.go:71-85 | removes exactly the windows whose last attempt is too old |
| `StoreCache.LeasesAreSafe` | wispist/sqlite/factory.go:56-202 | over every interleaving of opens, waits, timeouts, failed opens, prunes, evictions, releases and shutdown: a leased store is open, one entry per key, never more than the maximum, and after shutdown and the last release none is open |
| `StoreCache.ClosedOnceUnheld` | wispist/sqlite/factory.go:122-164 | a store is closed only in a step after which nobody holds it, and never opened or closed again |
| `CacheEffects.PruneClosesIff` | wispist/sqlite/factory.go:140-148 | an open prunes a store exactly if it is open, unreferenced and untouched for the idle time |
| `CacheEffects.OpenAnswers` | wispist/sqlite/factory.go:56-101 | a caller joins the entry of its key; otherwise it gets a new one, for which the least recently used idle store makes way if the cache is full; it is turned away only if none is idle |
| `CacheEffects.OpenEnds` | wispist/sqlite/factory.go:88-100 | a finished open turns its caller into a lease of an open store, or takes the entry and the caller's claim away |
| `CacheEffects.WaiterGets` | wispist/sqlite/factory.go:103-115 | a waiter gets the lease when the store is ready, or goes if the open has failed |
| `CacheEffects.LeavingDrops` | wispist/sqlite/factory.go:122-138 | whoever lets go gives back one reference and stamps the entry, and closes the store exactly if that was the last one after shutdown |
| `CacheEffects.ShutdownCloses` | wispist/sqlite/factory.go:187-202 | closing the factory closes exactly the idle stores, once |
| `StoreCache.OpenKeeps` | wispist/sqlite/factory.go:56-101 | an open call, with its pruning and eviction, keeps the invariant: reference counts equal the leases, waiters and openers of each entry, and only open stores are leased |
| `StoreCache.FinishKeeps` | wispist/sqlite/factory.go:88-100 | publishing the opened store, or withdrawing the entry of a failed open, keeps that invariant |
| `StoreCache.LeaveKeeps` | wispist/sqlite/factory.go:103-138 | a release, or a waiter that gives up, keeps that invariant, also after shutdown |
| `StoreCache.ShutdownKeeps` | wispist/sqlite/factory.go:187-202 | closing the factory keeps that invariant, so every store still leased stays open |
| `StoreCache.Factory.BeginOpen` | wispist/sqlite/factory.go:60-86 | the first locked section of an open: refuse, join, wait, create or report the cache full |
| `StoreCache.Factory.FinishOpen` | wispist/sqlite/factory.go:88-100 | the second locked section: publish the store or withdraw the entry |
| `StoreCache.Factory.ReleaseClaim` | wispist/sqlite/factory.go:117-138 | a lease or a waiter lets go |
| `StoreCache.Factory.DropReference` | wispist/sqlite/factory.go:122-138 | decrements, stamps and, after shutdown, closes with the last reference |
| `StoreCache.Factory.PruneStale` | wispist/sqlite/factory.go:140-148 | closes exactly the unreferenced stores idle for too long |
| `StoreCache.Factory.FindOldest` | wispist/sqlite/factory.go:150-158 | the least recently used unreferenced entry, if any |
| `StoreCache.Factory.EvictOne` | wispist/sqlite/factory.go:150-164 | closes exactly that one |
| `StoreCache.Factory.Close` | wispist/sqlite/factory.go:187-202 | closes what nobody holds and marks the factory closed |
| `PublicNames.RegistryIsExact` | internal/store/public_names.go:23-89 | after any run a name points to a link iff that link is active under it, to a site iff the site has it, and never to both |
| `PublicNames.NamesArePermanent` | internal/store/public_names.go:23-89 | over any run a name keeps its owner, and a site name keeps its site |
| `PublicNames.ClaimedIsFree` | internal/store/public_names.go:23-89 | after a successful claim the unique constraints on slugs and site names are never hit |
| `PublicNames.QuotaHolds` | internal/store/shortlinks.go:53-66 | with a fixed quota no run gives an owner more link names than it |
| `PublicNames.CreateLinkIff` | internal/store/shortlinks.go:14-113 | exactly when a link is created, its destinations included, and exactly when confirmation is asked for |
| `PublicNames.CreateSiteIff` | internal/store/sites.go:14-76 | exactly when a site is created; the name then stands for it |
| `PublicNames.RetireIff` | internal/store/shortlinks.go:262-306 | exactly when a retirement goes through, and that the name can then be reclaimed by its owner only |
| `PublicNames.ResolvesByRegistry` | internal/store/shortlinks.go:308-360 | a slug resolves to a link iff the registry names that link and it is enabled and unexpired |
| `NameEffects.LinkCreated` | internal/store/shortlinks.go:14-113 | a created link is the one asked for, enabled, with its destinations; its name stands for it, and no other row has changed |
| `NameEffects.LinkRefusals` | internal/store/shortlinks.go:31-66 | which refusal a new link meets |
| `NameEffects.EnabledSet` | internal/store/shortlinks.go:223-260 | enabling or disabling does just that, exactly for whoever may manage the link |
| `NameEffects.ServedIfEnabled` | internal/store/shortlinks.go:308-360 | a visitor is served by a live link exactly if it was enabled last, has a destination and has not expired |
| `NameEffects.LinkRetired` | internal/store/shortlinks.go:262-306 | a retired link and its name are marked with the time, nobody is served under the slug, and no other row has changed |
| `NameEffects.RetiredBy` | internal/store/shortlinks.go:262-306 | retirement is refused exactly to whoever neither owns the link nor administers, or when it is gone already |
| `NameEffects.SiteCreated` | internal/store/sites.go:14-76 | a created site is the one asked for, its name stands for it, and no other row has changed |
| `NameEffects.SiteRefusals` | internal/store/sites.go:30-56 | which refusal a new site meets |
| `NameEffects.RefusedUnchanged` | internal/store/public_names.go:23-89 | any refusal leaves all tables as they were |
| `PublicNames.NameStore.ClaimPublicName` | internal/store/public_names.go:23-89 | the claim in each of its branches, with the registry row it writes |
| `PublicNames.NameStore.CreateShortLink` | internal/store/shortlinks.go:14-113 | the transaction's whole effect, or none after any refusal |
| `PublicNames.NameStore.InsertDestinations` | internal/store/shortlinks.go:490-515 | inserts the destinations one by one, numbered in the order given, and succeeds exactly if they are at most 25, within their lengths, and with new and different IDs |
| `PublicNames.DestinationsStayDistinct` | internal/store/migrate.go:153-160 | over every run each link's destinations are numbered from zero in order and no two in the table share an ID |
| `PublicNames.NameStore.CreateNewSite` | internal/store/sites.go:14-76 | the transaction's whole effect, or none after any refusal |
| `PublicNames.NameStore.SetShortLinkEnabled` | internal/store/shortlinks.go:223-260 | enables or disables an unretired link for its owner or an administrator |
| `PublicNames.NameStore.RetireShortLink` | internal/store/shortlinks.go:262-306 | link and name are retired together or not at all |
| `PublicNames.NameStore.ResolveShortLink` | internal/store/shortlinks.go:308-360 | finds the resolvable link under a slug and its destinations, or reports that there is none |
| `PublicNames.NameStore.SiteByName` | internal/store/sites.go:467-480 | finds the one site of that name |
| `Factors.AuthInvariantHolds` | internal/store/mfa.go:64-255 | over every run under one relying party: sessions belong to active users, a password session implies that the second factor was waived, and waiving implies no factor is enrolled |
| `Factors.AuthInvariantIff` | internal/store/mfa.go:64-255 | over every run under any relying parties, the invariant holds for one of them in every state if and only if no transaction opted a user out over a passkey under it |
| `Factors.SkipMFAKeepsIff` | internal/store/mfa.go:64-110 | an opt-out that succeeds keeps the invariant for a relying party if and only if the user has no passkey under it |
| `Factors.ExecKeepsIff` | internal/store/mfa.go:64-255 | one transaction keeps the invariant if and only if it is not such an opt-out |
| `Factors.SessionsAlwaysGood` | internal/store/sqlite.go:119-173 | over every run and without any condition, sessions belong to active users and a password session implies that the second factor was waived |
| `Factors.ExecKeeps` | internal/store/mfa.go:64-255 | each transaction but the opt-out keeps that invariant from any state that has it, under whatever relying parties |
| `Factors.FactorStaysThroughRuns` | internal/store/mfa.go:220-255 | a user with a factor keeps at least one over any run without an explicit reset |
| `Factors.FactorHeldIff` | internal/store/totp.go:244-271 | over every run under any relying parties without a reset of the user, a factor under one of them is kept in every state if and only if the authenticator is never removed on the strength of a passkey under another while there is none under this one |
| `Factors.SomeFactorStays` | internal/store/mfa.go:220-255 | over every such run the user keeps some factor under some relying party |
| `Factors.DeletePasskeyLeavesOne` | internal/store/mfa.go:220-255 | a deletion that succeeds removes exactly one passkey and leaves the user a factor |
| `Factors.OtherRpEscapes` | internal/store/mfa.go:64-110 | a run from an empty installation after which a user has a passkey under one relying party and the second factor waived under another, with a password session |
| `Factors.OtherRpDrops` | internal/store/totp.go:244-271 | a run in which a user loses the only factor that counts under one relying party, on the strength of a passkey under another |
| `Factors.CountersRise` | internal/store/totp.go:187-242 | over every run the TOTP counters accepted for a user strictly increase, so no code is accepted twice |
| `Factors.AlwaysGoverned` | internal/store/users.go:295-400 | once the first user exists, every run leaves an active superuser |
| `AccountEffects.CodesWorkOnce` | internal/store/mfa.go:419-465 | over every run in which it is not issued again, a recovery code logs in at most once |
| `AccountEffects.CodeSpent` | internal/store/mfa.go:419-465 | exactly when a recovery code logs in, and that it spends the login and the code |
| `AccountEffects.CounterSpent` | internal/store/totp.go:187-242 | exactly when a TOTP counter logs in, and that it spends the login and the counter |
| `AccountEffects.SessionOpened` | internal/store/sqlite.go:150-173 | exactly when a session is created, and that nothing else changes |
| `AccountEffects.PasswordRevokes` | internal/store/sqlite.go:119-148 | a new password ends every session and pending login of the user and of nobody else |
| `AccountEffects.OptedOut` | internal/store/mfa.go:64-110 | exactly when the second factor is waived, and what that changes |
| `AccountEffects.PasskeyRegistered` | internal/store/mfa.go:133-205 | a registered passkey is there, the codes are the ones issued, the user's weak sessions are gone and this one is multi-factor; otherwise nothing has happened |
| `AccountEffects.AuthenticatorEnrolled` | internal/store/totp.go:99-185 | likewise for an authenticator, whose enrolment is spent |
| `AccountEffects.FinishEnrols` | internal/store/mfa.go:163-200 | exactly when the common end of both enrolments succeeds, and what it does to users, codes and sessions |
| `AccountEffects.PasskeyDeleted` | internal/store/mfa.go:220-255 | the passkey of that name goes and all others stay |
| `AccountEffects.AuthenticatorDeleted` | internal/store/totp.go:244-271 | exactly when an authenticator may be removed |
| `AccountEffects.ResetClears` | internal/store/mfa.go:513-574 | a reset takes every factor, code, session and pending ticket of the user and the waiver, and nothing of anybody else |
| `AccountEffects.SetupCompleted` | internal/store/users.go:213-256 | exactly when a pending account is activated, and that the token is spent |
| `AccountEffects.RoleSet` | internal/store/users.go:295-327 | a role change is refused exactly for the last active superuser |
| `AccountEffects.StatusSet` | internal/store/users.go:329-376 | disabling an account ends its sessions, logins and enrolments and nobody else's |
| `AccountEffects.StatusRefused` | internal/store/users.go:329-376 | exactly when a status change is refused for the last active superuser |
| `AccountEffects.FirstUser` | internal/store/users.go:21-67 | the first user is an active superuser, and made exactly while there is none |
| `AccountEffects.UserAdded` | internal/store/users.go:69-103 | a user is added exactly under a new ID |
| `AccountEffects.SetupIssued` | internal/store/users.go:258-293 | a new setup token goes to a pending account only, takes the place of its earlier ones, and touches nobody else's |
| `AccountEffects.EnrolmentStarted` | internal/store/totp.go:44-67 | a new enrolment takes the place of those of the same binding and of no other |
| `AccountEffects.LoginStarted` | internal/store/mfa.go:257-266 | a login is begun exactly under a new token, for a user there is |
| `AccountEffects.SessionsEnded` | internal/store/mfa.go:505-511 | ending the other sessions of a user spares this one and everybody else's |
| `Factors.AccountStore.CreateSession` | internal/store/sqlite.go:150-173 | a session is created only for an active user, and at password assurance only if the second factor was waived |
| `Factors.AccountStore.SkipSecondFactor` | internal/store/mfa.go:64-110 | waives the second factor and raises the session, or changes nothing |
| `Factors.AccountStore.CompletePasskeyRegistration` | internal/store/mfa.go:133-205 | stores the passkey, replaces the codes, ends the other sessions and raises this one, or changes nothing |
| `Factors.AccountStore.CompleteFactor` | internal/store/mfa.go:163-200 | the common end of both enrolments |
| `Factors.AccountStore.InsertRecoveryCodes` | internal/store/mfa.go:166-180 | the loop stores every code of the batch or refuses a repeated digest |
| `Factors.AccountStore.DeletePasskeyKeepingOne` | internal/store/mfa.go:220-255 | deletes the one passkey of that name and relying party, or changes nothing |
| `Factors.AccountStore.CompleteTOTPEnrollment` | internal/store/totp.go:99-185 | consumes the enrolment and stores the secret, or changes nothing |
| `Factors.AccountStore.ConsumeTOTPLogin` | internal/store/totp.go:187-242 | consumes the login and advances the counter, or changes nothing |
| `Factors.AccountStore.DeleteTOTPKeepingFactor` | internal/store/totp.go:244-271 | removes the secret only if a passkey is left |
| `Factors.AccountStore.ResetUserAuthentication` | internal/store/mfa.go:541-574 | removes every factor, code and session of the user |
| `Factors.AccountStore.ChangePasswordAndRevoke` | internal/store/sqlite.go:119-148 | removes every session of an active user |
| `Factors.AccountStore.CompleteUserSetup` | internal/store/users.go:213-256 | activates a pending user with an unexpired token |
| `Factors.AccountStore.UpdateUserRole` | internal/store/users.go:295-327 | refuses to demote the last active superuser |
| `Factors.AccountStore.UpdateUserStatus` | internal/store/users.go:329-376 | refuses to disable the last active superuser, and ends a disabled user's sessions |
| `ReleaseVersion.ParsesIffPrinted` | internal/updater/version.go:17-58 | a string parses to a version if and only if it is that version printed |
| `ReleaseVersion.PrintedParses` | internal/updater/version.go:17-58 | every version with 64-bit components survives printing and parsing |
| `ReleaseVersion.CanonicalRoundTrip` | internal/updater/version.go:26-40 | a decimal without leading zeros is its value printed |
| `ReleaseVersion.OrderIsWeight` | internal/updater/version.go:44-54 | the comparison is a total order: the numerical order of the components taken as digits |
| `ReleaseVersion.ParseVersion` | internal/updater/version.go:17-42 | the loop over the components accepts exactly the valid strings, with the 64-bit bound |
| `ReleaseVersion.Compare` | internal/updater/version.go:44-54 | the early-exit comparison computes that order |

## Left out

- UpdateRecovery.UpdateIsCrashSafe: says nothing after a fatal step, where `UpdateRecovery.FatalNeverSettles` holds instead.
- UpdateRecovery.RecoveryTerminates: says nothing after a fatal step either; the twenty steps themselves are free of failures.
- Convergence.Converges: one collection, read by one browser with access to all of it; several browsers do not affect each other except through the store and the hub, which are modelled.
- Convergence.QuietMeansEqual: says nothing about a subscription that was stopped, which shows its last map.
- RequestLimiter.AdmissionBound: tokens are real numbers, so the rounding of 64-bit floating point is not modelled.
- LoginLimiter.CountsFullHistory: assumes no more keys than the cap; `LoginLimiter.CountsLogged` is the statement for any number.
- StoreCache.LeasesAreSafe: entries and holders are numbered cells instead of object references, and a lease is released once, as its `sync.Once` ensures.
- RestoreInstall.Restorer.InstallExtractedBackup: the Wispist directory is replaced as one unit; each rename happens or does not; removals may leave any part of what they remove.
- SQL text, pragmas, busy errors and migrations: a transaction is one step, and the schema enters as constraints.
- JSON, cursor encoding and HTTP: a cursor is a namespace and a sequence; a cursor that does not decode is an error before the model begins.
- Heartbeats, write deadlines and failed writes on the stream: to the browser they are a lost connection, which is modelled.
- Cryptography: digests, revisions and IDs are values handed in.
- `Get`, `Usage` and the snapshots of `wispist/sqlite/admin.go`: plain reads.
- A damaged or foreign recovery marker, and the checks of paths, assets and signatures before an activation: they refuse before anything is changed.
- `UpdateShortLink`, visit counts, site releases and previews, usernames, password hashes, passkey ceremonies, and audit events: they add only simpler members.
- The eviction counter and `Stats` of the store cache, and the directory scan behind opening a store.
- Extraction and validation of the backup archive, and the copying of staged files.
