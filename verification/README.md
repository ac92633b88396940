# Verified model of the sync server's request engine

The repository is a Brave sync server: clients commit changed entities, page through other
devices' changes by an mtime token per data type, and are limited by an item counter. This
project models the part that decides what a client gets, what is stored and what is counted,
and proves properties of it for all inputs, runs or interleavings:

- `SyncEntities`, `RowCodec`: entities, their conversions, and the SQLite row format.
- `Decimal`, `RangeKey`: printed numbers, byte order, and DynamoDB's `type#mtime` range key.
- `ItemCounts`: the item counter with its four rotating history buckets.
- `MemoryCache`, `Cache`: the in-memory Redis stand-in, the mtime cache and the interim counters.
- `Tables`, `SQLiteStore`, `Query`: the three tables, what each transaction does to them as a
  function, and the store as a class whose methods are proved to do just that.
- `RowHistory`, `TagRows`, `Bootstrap`: what holds over every interleaving of transactions.
- `GetUpdates`, `Paging`, `Drain`: one get-updates request, and a whole session of them.
- `Commit`, `Quota`, `Parents`, `Agreement`: one commit request, and what it keeps.
- `Replies`, `NewClients`, `Expiry`: what each commit entry is answered, how a get-updates ends and
  what a joining client is given, and how long an entity is served, said of columns, rows and numbers.
- `Server`, `Isolation`, `CacheSoundness`, `CommitSoundness`, `Transparency`, `Runs`,
  `Transactions`: sequential runs of the whole server.
- `Interleaving`: commits of many requests in flight at once, one atomic access at a time.
- `Incidents`, `CacheIncidents`: runs from nothing stored in which the server does what one would
  not expect.
- `Command`: the handlers as methods on the mutable store and cache, each proved equal to the
  specification the other modules reason about.

Each handler and store method is written with the loops and branches of the source and proved
against a specification function (`Next`, `CommitEntry`, `Serve`, `Inserted`, ...); the
theorems are about those functions. Time, generated ids, database errors and the order in
which SQLite returns rows of equal mtime are inputs or arbitrary choices.

The handlers serve either of two stores, SQLite and DynamoDB. The tables are those of SQLite;
the answers in which DynamoDB's differ and on which the counts depend, the insert conflict and
the delete report, follow the store at hand.

Where the code does not do what one would expect, the exact condition is proved, and requests on
which it fails:

- A type's DynamoDB range also reads other types, and with a token of another length than the
  mtimes it reads the wrong rows of its own. `RangeKey.RangeIsNumericFilter` says exactly when
  it stands for the numeric filter; `LongerTypeIsRead`, `ShorterTypeIsRead`,
  `CarryEmptiesRange` and `ShortTokenLosesRows` are inputs on which it does not.
- A page that ends inside a group of equal mtimes loses the rest of the group, and only then
  (`Paging.PageIsExact`). The entries of one commit often share a millisecond. A client that
  pages to the end always ends, and misses rows of a type exactly when one of its requests breaks
  a group of that type (`Drain.DrainCompletes`). One commit of 501 entities makes such a group
  (`Incidents.TieLosesCommittedRow`).
- A response says that nothing remains while rows of a listed type are pending exactly when more
  than a page was pending and a page boundary falls between two of the listed types
  (`Drain.HidesPending`, `Drain.FullResponseHidesPending`). One commit of 502 entities does that
  (`Incidents.FullResponseHidesCommittedRows`).
- Whatever clients send, the stored count is the live rows plus an exact sum of errors: creates
  counted without a new live row, deletes that are not counted or counted of nothing, undeletes,
  and counts that were not saved (`Runs.CountErrsInEveryRun`; `Interleaving.EveryRowCountedOnce` for
  commits in flight together). Orderly clients make two of them: SQLite answers an insert conflict
  without an error, so the handler reports success and counts the item
  (`Incidents.SwallowedConflict`), and DynamoDB reports the delete of a tagged row that was deleted
  already, so the handler counts it again (`Incidents.RepeatedDelete`). Each store makes only one
  of the two (`Runs.CountExactWhen`).
- Tags stay unique if and only if every update revives or releases only a tag that is free for it
  and no clear finds a live tagged row under the marker's id (`TagRows.TagsStayUnique`). An undelete
  and a second delete can break that (`TagRows.UndeleteBreaksUniqueness`,
  `TagRows.SecondDeleteBreaksUniqueness`).
- A client has none of the five server-defined entities or all of them if and only if no commit
  inserts an entity under one of their tags or moves one of the subfolders, and no clear finds one
  under the marker's id (`Bootstrap.BootstrapIsAllOrNothing`); a commit can
  (`Incidents.ForgedServerTag`).
- A new client that does not fetch folders never gets past its first query for the nigori type, which
  is a folder (`NewClients.WithoutFoldersNeverReady`); `NewClients.StatusMeaning` says exactly which
  requests fail, and how.
- One base version is accepted twice if and only if an update was stamped in the very millisecond
  of its base (`RowHistory.NoLostUpdates`).
- Negative history buckets let a rotation raise the count. Every later load of a client's counts is
  within a bound if and only if every sum of the newest buckets that a commit saves is
  (`ItemCounts.PeakIsHighest`, `Runs.CommitLoadsWithin`, `Runs.QuotaHoldsExactly`); three commits pass
  the history quota (`Incidents.HistoryDeletesPassQuota`).
- The mtime cache stays sound over a run of requests if and only if none of three things happens
  (`Transparency.CacheStaysSound`): a request without folders caches the end of a page that passed
  over a newer folder (`CacheIncidents.FolderPassedOver`), a bootstrap creates an entity newer than
  the mtime cached for its type (`CacheIncidents.BootstrapHidden`), or a commit writes a row newer
  than the mtime cached for the row's type in the end, as an update can that names another type
  (`CacheIncidents.TypeChanged`).
- When requests overlap, caching the end of a complete page keeps the cache sound if and only if no
  row of the type that was written since the query, or passed over by it, is newer
  (`CacheSoundness.StampKeepsSound`); a commit between query and stamp breaks it
  (`CacheIncidents.StaleCache`). What a commit caches keeps it sound if and only if no row of the type
  written since its own is newer (`CommitSoundness.LateStampKeepsSound`); two commits that cache one
  type in the opposite order of their writes break it (`CacheIncidents.StampsCross`).

The comment on `IsTypeMtimeUpdated` in `go-sync/cache/cache.go:72-76` says, in its last line, that
it returns false in all other cases; the code returns true, and the model follows the code.

## Model

| member | source | states |
|---|---|---|
| RangeKey.RangeIsNumericFilter | go-sync/datastore/sync_entity.go:639-645 | the string range stands for `type == T && mtime > token` on a stored key if and only if: for a key of type T, the token selects its mtime; for another type, it does not straddle T; and where T+1 has more digits, the filter would leave the key out |
| RangeKey.ForeignKeySelected | go-sync/datastore/sync_entity.go:639-645 | a key of another type is read exactly when its type extends T's digits or is a carry prefix of T+1 |
| RangeKey.OwnKeySelected | go-sync/datastore/sync_entity.go:639-645 | a key of type T is selected rightly, exactly when newer than the token, if and only if the token is not positive or the front of the longer of token+1 and mtime compares the right way with the shorter |
| RangeKey.PrintedOrder | go-sync/datastore/sync_entity.go:639-640 | the byte order of two printed numbers is their numeric order exactly when the front decides so |
| RangeKey.CarryEmptiesRange | go-sync/datastore/sync_entity.go:639-640 | when T+1 has more digits than T no key at all is in the range |
| RangeKey.LongerTypeIsRead | go-sync/datastore/sync_entity.go:639-640 | the range of type 12 contains type 120's keys |
| RangeKey.ShorterTypeIsRead | go-sync/datastore/sync_entity.go:639-640 | the range of type 19 contains type 2's keys |
| RangeKey.ShortTokenLosesRows | go-sync/datastore/sync_entity.go:639 | the token 8 misses every row of any type whose mtime has the 13 digits of a millisecond before the year 2255 |
| RowCodec.RowRoundTrip | go-sync/sync-lite/sqlite_store.go:543-633 | scanning an inserted row gives the entity back, empty blobs read as absent |
| RowCodec.UpdateStatementIsOverlay | go-sync/sync-lite/sqlite_store.go:201-231 | running the assembled UPDATE on the stored row and scanning it gives the stored entity overlaid by the update's non-nil fields |
| RowCodec.CommitFetchRoundTrip | go-sync/datastore/sync_entity.go:749-886 | what is fetched is what was committed, with the server's id, version, mtime and the protocol's defaults |
| ItemCounts.ClientItemCounts.RotatePeriods | go-sync/sync-lite/sqlite_store.go:529-539 | the rotation loop is a shift of the buckets by the number of whole periods elapsed |
| ItemCounts.RotationCatchesUp | go-sync/datastore/item_count.go:114-125 | after a rotation the last change is less than one period back and has moved by whole periods |
| ItemCounts.RotationComposes | go-sync/datastore/item_count.go:113-125 | rotating at t1 and then at t2 equals rotating once at t2 |
| ItemCounts.BucketsMeaning | go-sync/datastore/item_count.go:113-125 | over every run of commits each bucket is the net history of its own period |
| ItemCounts.SlidingWindow | go-sync/sync-lite/sqlite_store.go:529-539 | the history count is the net of the events inside the four-period window |
| ItemCounts.WindowAges | go-sync/sync-lite/sqlite_store.go:22-23 | an event leaves the window with the third period of 302400 seconds after its own: every event younger than 907200 seconds is inside, none of 1209600 or more |
| MemoryCache.MemoryRedis.Set | go-sync/sync-lite/memory_cache.go:25-36 | stores the value, with an expiry only for a positive ttl |
| MemoryCache.MemoryRedis.Incr | go-sync/sync-lite/memory_cache.go:38-61 | moves the integer by one and drops its expiry, or reports the parse error |
| MemoryCache.MemoryRedis.Get | go-sync/sync-lite/memory_cache.go:63-77 | reads an unexpired value, deleting it when asked |
| MemoryCache.MemoryRedis.Del | go-sync/sync-lite/memory_cache.go:79-87 | removes exactly the given keys |
| MemoryCache.LazyExpiryIsInvisible | go-sync/sync-lite/memory_cache.go:25-108 | over every run with a clock that does not go back, all replies are those of a map that forgets entries the moment they expire |
| Cache.CacheClient.IsTypeMtimeUpdated | go-sync/cache/cache.go:77-109 | false exactly when a live readable cached mtime is not newer than the token |
| Cache.KeyFamiliesDisjoint | go-sync/cache/cache.go:26-34 | no mtime key is an interim key, whatever the client ids are |
| Cache.TypeMtimeKeyInjective | go-sync/cache/cache.go:26-28 | an mtime key determines client and type |
| Cache.InterimKeyInjective | go-sync/cache/cache.go:32-34 | an interim key determines client and counter |
| Cache.BumpMeaning | go-sync/cache/cache.go:57-59 | an increment never fails on a well-typed cache, moves its counter by one and no other |
| Cache.ReadMeaning | go-sync/cache/cache.go:38-53 | a read never fails there and a clearing read zeroes its counter and no other |
| Cache.NoAccessFails | go-sync/cache/cache.go:26-82 | in every reachable cache interim values are integers without expiry, mtimes integers with expiry, and no counter access fails to parse |
| Cache.InterimConservation | go-sync/command/command.go:328-354 | under any interleaving, drained values plus the pending one equal increments less decrements, per client and counter |
| SQLiteStore.Store.InsertSyncEntity | go-sync/sync-lite/sqlite_store.go:110-145 | inserts row and tag together or neither, and answers a conflict as its store does |
| SQLiteStore.Store.InsertSyncEntitiesWithServerTags | go-sync/sync-lite/sqlite_store.go:147-173 | inserts the whole batch or, on any duplicate, nothing |
| SQLiteStore.Store.UpdateSyncEntity | go-sync/sync-lite/sqlite_store.go:175-254 | compare-and-swap on the version except for history, overlay, tag release, and the delete report of its store |
| SQLiteStore.Store.GetUpdatesForType | go-sync/sync-lite/sqlite_store.go:256-305 | the oldest visible rows up to the page size, without repeats, and whether more are pending |
| SQLiteStore.Store.GetClientItemCount | go-sync/sync-lite/sqlite_store.go:315-363 | the stored counts recounted if of an old format, else rotated to now |
| SQLiteStore.Store.UpdateClientItemCount | go-sync/sync-lite/sqlite_store.go:365-399 | saves the loaded counts plus the drained differences |
| SQLiteStore.Store.ClearServerData | go-sync/sync-lite/sqlite_store.go:401-458 | removes the client's tags, counts and all rows but the marker |
| SQLiteStore.Store.DisableSyncChain | go-sync/sync-lite/sqlite_store.go:460-472 | writes or refreshes the marker row |
| Tables.TagKeysDiffer | go-sync/sync-lite/sqlite_store.go:20-21 | client and server tag rows never coincide, and each determines client and tag |
| RowHistory.RowIsFoldOfWrites | go-sync/sync-lite/sqlite_store.go:175-254 | over every interleaving a row, other than the disabled marker, exists exactly when a write created it and is its insert overlaid by the accepted updates in order |
| RowHistory.OptionalColumns | go-sync/sync-lite/sqlite_store.go:204-227 | each optional column holds the last value any accepted write carried |
| RowHistory.FixedColumns | go-sync/sync-lite/sqlite_store.go:201-202 | version, mtime, specifics and range key are the last write's; identity, type, tags, origin, creation and expiry the first's |
| RowHistory.AcceptedUpdatesChain | go-sync/sync-lite/sqlite_store.go:182-199 | every accepted update of a version-checked row names the version the accepted write before it left |
| RowHistory.NoLostUpdates | go-sync/sync-lite/sqlite_store.go:195-199 | under any interleaving, with a clock that does not go back, one base version is accepted twice if and only if an accepted update, not the last, left the very version it was based on |
| TagRows.TagsStayUnique | go-sync/sync-lite/sqlite_store.go:117-145 | over every interleaving each live tagged row owns its tag row and no two live rows of a client share a tag, in all states, if and only if every update revives and releases only tags that are free for it and no clear finds a live tagged row under the marker's id |
| TagRows.UpdateOwnsTag | go-sync/sync-lite/sqlite_store.go:220-245 | one accepted update keeps the tags owned if and only if an undelete finds its own tag row and no other live row with the tag, and a delete releases no other live row's tag |
| TagRows.UpdateOfLiveRowKeepsTags | go-sync/sync-lite/sqlite_store.go:235-245 | an update of a live row with the row's type, and its tag or none, always does |
| TagRows.ServerTagsUntouched | go-sync/sync-lite/sqlite_store.go:235-245 | only a server batch or a clear touches a server tag row |
| TagRows.UndeleteBreaksUniqueness | go-sync/sync-lite/sqlite_store.go:220-245 | insert, delete, undelete, insert of a twin: two live rows share the tag |
| TagRows.SecondDeleteBreaksUniqueness | go-sync/sync-lite/sqlite_store.go:235-245 | insert, delete, insert of a twin, second delete of the first, insert of a third: two live rows share the tag |
| Bootstrap.BootstrapIsAllOrNothing | go-sync/command/server_defined_unique_entity.go:46-99 | however requests interleave: a client has none of the five server tags or all, each with one row, subfolders below the one root, in all states if and only if no transaction inserts another entity under one of the tags, moves a subfolder, or clears with one of the five under the marker's id |
| Bootstrap.InsertKeepsFive | go-sync/sync-lite/sqlite_store.go:110-145 | an insert keeps none-or-all if and only if it conflicts, is another client's or carries none of the five tags |
| Bootstrap.UpdateKeepsFive | go-sync/sync-lite/sqlite_store.go:175-254 | an update does if and only if it moves no subfolder of the five |
| Bootstrap.ClearKeepsFive | go-sync/sync-lite/sqlite_store.go:401-458 | a clear does unless one of the five sits under the marker's id |
| Incidents.ForgedServerTag | go-sync/command/command.go:281-318 | a commit of one entity with one of the five tags, from nothing stored: the client has it and no other |
| Bootstrap.BatchBootstraps | go-sync/sync-lite/sqlite_store.go:147-173 | a batch that goes through takes a client from none to all |
| Bootstrap.SecondBatchRollsBack | go-sync/sync-lite/sqlite_store.go:156-165 | a client that has them gets no second set |
| NewClients.BatchGoesIn | go-sync/sync-lite/sqlite_store.go:147-173 | a batch goes in if and only if none of its ids and server tags is in use or comes twice |
| NewClients.StatusMeaning | go-sync/command/command.go:97-155 | a request ends in Transient if and only if a query failed or a new client's nigori query from token 0 found no matching row, and in an internal error if and only if it came to a malformed token |
| NewClients.UpdatesStatus | go-sync/command/command.go:37-155 | the same of the server's answer; Throttled if and only if the device limit says so, Transient also when the bootstrap fails |
| NewClients.KeysMeaning | go-sync/command/command.go:110-116 | keys are handed out exactly to a new client that asks for the nigori type |
| NewClients.JoinSucceeds | go-sync/command/command.go:76-155 | on an empty store, with a batch that goes in, folders fetched, no malformed token and no failed query, a new client is answered Ok, with keys if it asks for nigori |
| NewClients.FirstRequest | go-sync/command/server_defined_unique_entity.go:46-99 | such a request for nigori and bookmarks returns the nigori folder first and then the four bookmark folders, nothing remaining |
| NewClients.BatchIsServed | go-sync/command/server_defined_unique_entity.go:27-43 | as served each of the five is a live folder at version 1, with its own name and specifics of its type, nigori and root below "0", the subfolders below the root |
| NewClients.WithoutFoldersNeverReady | go-sync/command/command.go:147-155 | a new client that does not fetch folders is answered Transient whenever it asks for nigori from the start |
| Query.FrontOfPage | go-sync/sync-lite/sqlite_store.go:300-303 | cutting the result to the page size leaves the oldest rows |
| Expiry.AnswerMatches | go-sync/sync-lite/sqlite_store.go:256-305 | every answer holds only the client's rows of the type, newer than the token, unexpired and, if asked, no folders, oldest first; a matching row is left out only by a full page of rows no newer, and then it says that more remains |
| Expiry.ServedUntilExpiry | go-sync/datastore/sync_entity.go:749-810 | an entity a commit stored at some millisecond is served, through any later run in which its row stays, up to 1209600 seconds after that second if it is history or a delete directive and for ever if not, and never later |
| Expiry.ServeKeepsOrigins | go-sync/sync-lite/sqlite_store.go:201-231 | no request changes the client, type or expiration of a row |
| Expiry.OldRecordIsRecounted | go-sync/sync-lite/sqlite_store.go:486-524 | a record from before version 2 with items is loaded as the client's live rows, unexpired history in the newest bucket; one without is only stamped |
| GetUpdates.ResponseShape | go-sync/command/command.go:92-125 | at most a page of entries, and the markers that were sent, in order |
| Paging.ResponseIsPages | go-sync/command/command.go:97-175 | the entries are the pages of the markers in order, each token the end of its page, ChangesRemaining 1 exactly when a page left rows behind |
| Paging.PageIsExact | go-sync/command/command.go:138-175 | a page is within the token interval, complete below its end, and complete up to it if and only if the page size does not fall inside a group of pending rows of one mtime |
| Paging.PageAndRest | go-sync/sync-lite/sqlite_store.go:271-303 | a page and what the next token still finds are disjoint, and together all that was pending if and only if no such group is broken |
| Drain.RoundServes | go-sync/command/command.go:97-175 | whatever the mtimes, one request gives out a page of every type's pending rows under one shared page budget, and leaves pending what those pages leave |
| Drain.SessionFollowsPools | go-sync/command/command.go:92-193 | what is pending before request k is a function of what was pending at first, whatever order ties came in |
| Drain.SessionResponse | go-sync/command/command.go:92-175 | response k is a full page or all that is pending, so any pending row makes it non-empty |
| Drain.DrainCompletes | go-sync/command/command.go:97-193 | a client feeding tokens back, polling or not, is done after at most Total/500 requests rounded up; each type's rows arrive oldest first, none twice, and all of them if and only if no request's page breaks a group of them |
| Drain.SessionExists | go-sync/command/command.go:92-193 | every client that is not new can make any number of such requests, on any rows and from any tokens |
| Drain.DistinctMtimesDrainExactly | go-sync/command/command.go:97-193 | with distinct mtimes it is done after exactly that many requests, with every row once |
| Drain.TieLosesRow | go-sync/sync-lite/sqlite_store.go:271-302 | 499 rows of one type and two of the next sharing an mtime: every session delivers one of the two and never the other |
| Drain.RemainingMeaning | go-sync/command/command.go:118-159 | ChangesRemaining is 0 if and only if at most a page was pending or a page boundary falls between two of the listed types |
| Drain.HidesPending | go-sync/command/command.go:118-159 | it is 0 while rows of a listed type stay pending if and only if more than a page was pending and such a boundary falls there |
| Drain.FullResponseHidesPending | go-sync/command/command.go:118-175 | the same for a client and what its next request would find |
| Incidents.TieLosesCommittedRow | go-sync/sync-lite/sqlite_store.go:271-302 | one commit of 499 entities of one type and two of another, then any number of requests of a client from before it: one of the two arrives, never the other |
| Incidents.FullResponseHidesCommittedRows | go-sync/command/command.go:118-125 | one commit of 500 entities of one type and two of another, then a request for both: it is told that nothing remains, and the two are pending |
| Commit.EntryWrites | go-sync/command/command.go:281-347 | an entry writes nothing, its insert or its update, stamped with the clock |
| Commit.HistoryTagIsIdentity | go-sync/datastore/sync_entity.go:789-793 | history entities with one tag share a row, so the second commit is an update |
| Commit.FreshCreateConflictsOnTagOnly | go-sync/datastore/sync_entity.go:779-787 | a create from a named device can only conflict over its tag |
| Replies.EntryAnswers | go-sync/command/command.go:261-369 | each entry gets one more reply: InvalidMessage exactly for a missing id, version or specifics; OverQuota exactly for a new row when items, history and what was counted reach 50000 and the history beyond 30000, up to 20000; Conflict exactly for an update whose row is missing or of another version, and for DynamoDB's tagged conflicts; TransientError exactly for database errors and its untagged ones; else Success with the row's id and the clock |
| Replies.EntryHonours | go-sync/command/command.go:261-369 | on Success the row is there, every column as committed or as it was, and counted, but for new history at 30000 and SQLite's conflicts; on anything else tables and counts are as before |
| Replies.UpdateAnswers | go-sync/command/command.go:331-368 | without a database error, an update of a type other than history is answered Conflict if and only if its row is missing or has another version, and Success if and only if the row is there afterwards as committed |
| Replies.CommitAnswers | go-sync/command/command.go:226-396 | whatever was in flight, a commit is answered with one such reply per entry, in order, or fails before its loop without replies |
| Replies.CommitCounts | go-sync/command/command.go:371-391 | it saves the loaded counts, those in flight and what its entries counted, and leaves none in flight |
| Replies.SuccessIsStored | go-sync/command/command.go:261-396 | what is answered with Success is stored when the commit ends, unless a later entry is for the same row |
| Incidents.BoostLetsIn | go-sync/command/command.go:245-299 | with 50000 items of history stored, by the run below, another entity is still let in |
| Quota.EntryCounts | go-sync/command/command.go:328-354 | one entry moves the running counts by its difference and never fails on the cache |
| Quota.LoopCounts | go-sync/command/command.go:261-369 | the interim counters hold their start plus counted creates less reported deletes; other clients' are untouched |
| Quota.CommitMeaning | go-sync/command/command.go:236-395 | with nothing in flight the loop runs from zero and ends without a cache failure |
| Quota.CommitInFlight | go-sync/command/command.go:213-224 | with counts of other commits in flight the loop runs from those, and they are saved with its own, neither lost nor twice |
| Quota.CommitWithinQuota | go-sync/command/command.go:242-253 | total ends within the larger of its start and the boosted quota, history within the larger of its start and 30000 |
| Quota.CommitKeepsBoostedQuota | go-sync/command/command.go:299-306 | without history deletes a total within the boosted quota stays within it |
| Quota.RotationKeepsQuota | go-sync/sync-lite/sqlite_store.go:529-539 | without negative buckets the shrinking boost never leaves a total outside the quota |
| ItemCounts.PeakIsHighest | go-sync/datastore/item_count.go:113-125 | a record's history count is within a bound at every later moment if and only if every sum of its newest buckets is |
| Runs.CommitLoadsWithin | go-sync/command/command.go:242-391 | after a saved commit every later load, of history or of all items, is within a bound if and only if every sum of the newest loaded buckets is, with what the loop counted |
| Runs.QuotaHoldsExactly | go-sync/command/command.go:242-391 | in every run all loads from all states are within the bound if and only if they are at the start and every saved commit leaves those sums within it |
| Incidents.HistoryDeletesPassQuota | go-sync/command/command.go:299-354 | from nothing stored, at any time: commits of 30000 creates, a period later 20000 deletes, three periods later 50000 creates load as 50000 another period later |
| Parents.ParentIsLatestServerId | go-sync/command/command.go:273-279 | each parent handed to the store is the server id of the latest earlier entry created under that client id, else unchanged |
| Parents.CreatedIsStored | go-sync/command/command.go:310-326 | a created entry is stored under its server id exactly when the insert met no conflict |
| Parents.NoClientIdAsParent | go-sync/command/command.go:322-326 | a parents-first batch stores no batch client id as a parent |
| Parents.ParentLinksLeadBack | go-sync/command/command.go:322-326 | its new parent links lead strictly backwards, so form no cycle |
| Agreement.EntryErrs | go-sync/command/command.go:298-355 | whatever it is, one entry moves count and countable rows apart by exactly its error: a create without a new countable row, a delete not counted or counted of nothing, an undelete |
| Agreement.LoopErrs | go-sync/command/command.go:261-369 | over the loop by the sum of the errors |
| Agreement.EntryAgrees | go-sync/command/command.go:298-355 | of an orderly entry only a swallowed conflict and a repeated delete are errors |
| Agreement.LoopAgrees | go-sync/command/command.go:261-369 | so does the whole loop, those two being the exact difference |
| Isolation.OtherClientsUntouched | go-sync/command/command.go:436-495 | no request touches another client's tables |
| Isolation.DisabledForGood | go-sync/sync-lite/main.go:126-142 | a disabled chain stays disabled with its tables unchanged in every later run |
| Isolation.ClearLeavesOnlyMarker | go-sync/command/command.go:400-434 | a clear disables the chain and leaves only the marker row |
| Isolation.ClearForgetsMtimes | go-sync/command/command.go:417-431 | and forgets the mtimes cached for the types the client had rows of, and nothing else |
| Isolation.DisabledIsTurnedAway | go-sync/sync-lite/main.go:126-142 | exactly the clients with a marker row are turned away, and nothing changes |
| CacheSoundness.VisitKeepsSound | go-sync/command/command.go:132-192 | answered from cache or store, a marker keeps every cached mtime at least as new as the type's unexpired rows if and only if what it caches is no older than the folders it passed over |
| CacheSoundness.UpdatesKeepSound | go-sync/command/command.go:92-193 | so does a whole request throughout; always when it fetches folders |
| CacheSoundness.OwnStampsKeepSound | go-sync/command/command.go:92-193 | for the rows a request looks at, with or without folders, it always does |
| CacheSoundness.StampKeepsSound | go-sync/command/command.go:138-192 | a complete page answered on some rows, its end cached over later ones: the cache stays sound if and only if no row of the type written in between, or passed over as a folder, is newer than that end |
| CacheSoundness.StampLasts | go-sync/cache/cache.go:63-70 | a cached mtime is believed for 600000 milliseconds and no longer |
| CacheSoundness.ShortCutFindsNothing | go-sync/command/command.go:133-136 | when a sound cache says the client is current the query finds nothing |
| CacheSoundness.VisitIsTransparent | go-sync/command/command.go:132-175 | with and without the short cut a marker is answered the same |
| CommitSoundness.CommitKeepsSound | go-sync/command/command.go:362-381 | a commit leaves the cache sound if and only if no row it wrote is newer than the mtime cached for the row's type at the end; updates that carry their rows' types are always so |
| CommitSoundness.LateStampKeepsSound | go-sync/command/command.go:356-381 | the mtime of a commit's last write of a type, cached over later rows, keeps the cache sound if and only if no row of the type written in between is newer |
| Transparency.BootstrapKeepsSound | go-sync/command/server_defined_unique_entity.go:46-99 | a bootstrap keeps the cache sound if and only if no entity it creates is newer than the mtime cached for its type |
| Transparency.CacheStaysSound | go-sync/command/command.go:132-192 | in every run of requests handled one at a time the cache is sound throughout if and only if every request meets the three conditions above |
| Transparency.CacheIsTransparent | go-sync/command/command.go:132-136 | over every such run each answer equals that of the server without the poll short cut, and either may give it |
| Transparency.TransparentFromTheStart | go-sync/command/command.go:132-136 | so in every such run from nothing stored, with a sound cache after every request |
| Transparency.CommitTwins | go-sync/command/command.go:226-396 | a commit's outcome does not depend on the mtime cache |
| Transparency.ClearKeepsTrust | go-sync/command/command.go:417-431 | a clear keeps the cache sound |
| Runs.QuotasHoldInEveryRun | go-sync/command/command.go:242-306 | in every run without history deletes, from nothing stored or from within the quotas, a chain never exceeds 50000 items or 30000 of history |
| Runs.BoostedQuotaHoldsInEveryRun | go-sync/command/command.go:242-306 | from any state with a total within the boosted quota, or a record of the old format whose first saved recount is, in every run without history deletes: the stored total and the total loaded at any time stay within it while rotation shrinks the boost |
| Runs.CountErrsInEveryRun | go-sync/command/command.go:297-383 | in every run, whatever clients send and whichever saves fail, the stored normal count is the live client rows plus the errors of the saved entries less the unsaved counts |
| Runs.CountsAgreeInEveryRun | go-sync/command/command.go:297-383 | in every orderly run the errors are the swallowed conflicts less the repeated deletes |
| Runs.CountExactWhen | go-sync/datastore/sync_entity.go:539-587 | so on SQLite the count is exact if and only if no conflict was swallowed, on DynamoDB if and only if no delete was repeated |
| Incidents.SwallowedConflict | go-sync/sync-lite/sqlite_store.go:126-137 | SQLite, two creates with one tag: both succeed, one row, a count of two |
| Incidents.RepeatedDelete | go-sync/datastore/sync_entity.go:539-587 | DynamoDB, a tagged row deleted twice: no live row, a count of minus one |
| CacheIncidents.StaleCache | go-sync/command/command.go:138-192 | a query, a whole commit, then the query's stamp: every poll of the next ten minutes is told it is up to date while the row is pending |
| CacheIncidents.StampsCross | go-sync/command/command.go:371-381 | a commit, a later one of the same client, whole, then the stamp of the first: so is every poll by a client that has seen the first |
| CacheIncidents.FolderPassedOver | go-sync/command/command.go:132-192 | a folder committed, then a request without folders: so is every poll |
| CacheIncidents.BootstrapHidden | go-sync/command/command.go:58-83 | a request for the nigori type, then a new client's bootstrap: so is every poll for it |
| CacheIncidents.TypeChanged | go-sync/command/command.go:347-381 | a create, then its update naming another type: so is every poll by a client that has seen the create |
| Runs.HistoryCountIsWindow | go-sync/sync-lite/sqlite_store.go:315-399 | in every run the loaded history count is the net of the saved commits inside the window |
| Interleaving.BooksBalance | go-sync/command/command.go:310-354 | under any interleaving of store transactions and cache accesses, what is drained, pending and still owed by handlers changes by exactly the creates answered without error less the reported deletes |
| Interleaving.BooksCountRows | go-sync/command/command.go:298-355 | a client's live rows and the errors of its entries together change by exactly what is booked |
| Interleaving.EveryRowCountedOnce | go-sync/command/command.go:297-383 | from nothing stored, however all clients' commits interleave and whatever they send, drained plus pending plus owed equals live client rows plus the errors; in orderly runs these are the swallowed conflicts less the repeated deletes |
| Interleaving.CommitIsActions | go-sync/command/command.go:213-377 | a commit does to tables and counters what a run of one handler's actions does, and saves what that run drained |
| Transactions.RunIsTxns | go-sync/command/command.go:436-495 | the tables of every sequential run are those of a run of transactions |
| Command.InsertServerDefinedUniqueEntities | go-sync/command/server_defined_unique_entity.go:46-99 | inserts nothing when the nigori tag exists, else one well-formed batch of five live folders named by their tags, all of it or none |
| Command.VisitMarker | go-sync/command/command.go:97-145 | the loop body is one step of the specification on a legal answer |
| Command.AddPage | go-sync/command/command.go:157-192 | appends the page, moves the token to its end, caches the mtime unless more remains |
| Command.FillUpdates | go-sync/command/command.go:92-193 | the loop over the markers is the fold of its body |
| Command.HandleGetUpdates | go-sync/command/command.go:37-196 | the handler is the specified get-updates step |
| Command.CommitOne | go-sync/command/command.go:261-369 | the loop body is one step of the specification |
| Command.CommitAll | go-sync/command/command.go:255-369 | the loop over the entries is the fold of its body |
| Command.StampTypes | go-sync/command/command.go:379-381 | every committed type's newest mtime is cached, in any order |
| Command.FinishCommit | go-sync/command/command.go:371-395 | drains both counters, caches the mtimes, saves the counts |
| Command.HandleCommit | go-sync/command/command.go:226-396 | the handler is the specified commit |
| Command.HandleClearServerData | go-sync/command/command.go:400-434 | the handler disables, clears and drops the mtime keys of the client's types |
| Command.HandleClientToServerMessage | go-sync/command/command.go:436-496 | behind the gate for disabled chains every request is a step of the server |

## Left out

- HTTP, gzip, TLS, signals, authentication and the Prometheus wrappers: the client id is given, and a request is a value.
- Protobuf and varint coding: messages are opaque but for the field number of their variant, and a token is a number or malformed bytes.
- DynamoDB's paging of GetUpdatesForType, its batched reads and its batched clear: of that store only the range key, the conflict answers, the delete reports and the counts are modelled.
- The device limit of new clients: its verdict is an input of the request. The loop that counts devices re-reads its first page for ever when there is a second one.
- Database errors in the bootstrap, the clear and the disabled check; those of the count operations, the existence check, the writes and the updates query are inputs.
- Requests the source dereferences nil for (a history entity without a client tag, specifics without a variant, a marker without a type): the model requires them to be absent.
- 64-bit overflow of counters, tokens and clock arithmetic: integers are unbounded.
- Clock readings finer than a millisecond, and different readings inside one loop iteration.
- Stored rows of SQLiteStore.Store are entities, not column values; RowCodec relates the two.
- Concurrent requests: proved for the tables and the interim counters, and for the two together, over every interleaving. The saved counts, quotas and cache transparency are properties of sequential runs: two commits that load the same counts save over each other, which the code accepts as a soft quota.
- DynamoDB counts history rows without looking at their expiry (`go-sync/datastore/item_count.go:58-65`), leaving expired rows to the table's own deletion; the recount modelled is that of SQLite, which skips them, for both stores.
- FlushAll of the cache has no caller among the handlers.
- Drain.DrainCompletes: no row expires during the session, because expired rows vanish; a client that polls meets a cache that is sound for the rows it looks at.
- Transparency.CacheIsTransparent: runs whose requests are handled one at a time and keep the cache sound, on the exact condition of Transparency.CacheStaysSound; the answers of a server that handles requests together are not compared.
- RowHistory.NoLostUpdates: requests for the row carry a type other than history, because history updates are accepted whatever version they name, and accepted writes are stamped in order.
