/** How the mtime cache comes to hide rows from polls: each case a sequence of requests from a server
    that has stored nothing. */
module CacheIncidents {
  import opened Basics
  import opened Decimal
  import opened SyncEntities
  import opened MemoryCache
  import opened Cache
  import opened Tables
  import opened Query
  import opened GetUpdates
  import opened Commit
  import opened Quota
  import opened Server
  import opened CommitSoundness
  import opened Runs
  import opened Incidents
  import Bootstrap

  /** A poll as the server handles it. */
  function Poll(client: ClientId, m: InMarker): GuContext {
    GuContext(client, GuMsg(Periodic, None, [m]), true)
  }

  /** The poll is told that it is up to date while the row is pending for it. */
  ghost predicate Hidden(w: World, client: ClientId, m: InMarker, poll: int, e: Entity)
    requires StartToken(m).Varint?
  {
    && CacheSaysCurrent(Poll(client, m), GuState(NO_UPDATES, w.kv), m, poll)
    && e in PendingRows(w.db.rows, FilterFor(Poll(client, m), m, poll))
  }

  predicate CachedFrom(kv: KV, client: ClientId, dataType: int, mtime: int, at: int) {
    var key := TypeMtimeKey(client, dataType);
    key in kv && kv[key] == MemoryValue(Itoa(mtime), Some(at + TTL))
  }

  lemma CachedHides(w: World, client: ClientId, m: InMarker, mtime: int, at: int, poll: int, k: Key)
    requires StartToken(m).Varint? && mtime <= StartToken(m).value && poll <= at + 600000
    requires CachedFrom(w.kv, client, m.dataType, mtime, at)
    requires k in w.db.rows && Visible(w.db.rows[k], FilterFor(Poll(client, m), m, poll))
    ensures Hidden(w, client, m, poll, w.db.rows[k])
  {
    ItoaRoundTrip(mtime);
  }

  // ---- requests that overlap ----

  /** A get-updates of one type queries and finds nothing, a whole commit adds a row of the type
      and caches its mtime, and then the get-updates caches the token it ended with: for the
      cache's lifetime every poll is told it is up to date while the row is pending. */
  lemma StaleCache(cfg: Config, client: ClientId, dataType: int, tag: string, id: string, uuid: string,
                   asked: int, committed: int, stamped: int, poll: int)
    requires !IsHistoryRelated(dataType) && uuid != DISABLED_CHAIN_ID
    requires 0 < committed && poll <= stamped + 600000
    ensures var m := InMarker(dataType, None);
            var w := Serve(cfg, FRESH_WORLD,
                           OneEntry(client, Item(id, tag, dataType, 0, false), committed, uuid)).world;
            var kv := AccessStep(w.kv, TimedAccess(stamped, StampMtime(client, dataType, NextToken(0, []))));
            && IsAnswer(FRESH_WORLD.db.rows, FilterFor(Poll(client, m), m, asked), MAX_GU_BATCH_SIZE, EMPTY_PAGE)
            && Hidden(World(w.db, kv), client, m, poll, ItemRow(client, tag, dataType, id, committed, uuid))
  {
    var m := InMarker(dataType, None);
    var w := AfterCreate(cfg, client, dataType, tag, id, uuid, committed);
    var e := ItemRow(client, tag, dataType, id, committed, uuid);
    assert Visible(e, FilterFor(Poll(client, m), m, poll));
    var kv := AccessStep(w.kv, TimedAccess(stamped, StampMtime(client, dataType, 0)));
    CachedHides(World(w.db, kv), client, m, 0, stamped, poll, KeyOf(e));
  }

  /** A commit that has stored its item and drained its counts, but cached and saved nothing yet. */
  function Unfinished(cfg: Config, client: ClientId, pb: PbEntity, now: int, uuid: string): World
    requires Addressable(pb)
  {
    var call := OneEntry(client, pb, now, uuid);
    var st := LoopEnd(FRESH_WORLD, client, call.commit, call.env, cfg.backend);
    var normal := InterimCount(st.kv, client, Normal, true, now);
    World(st.db, InterimCount(normal.kv, client, History, true, now).kv)
  }

  lemma UnfinishedCommit(cfg: Config, client: ClientId, dataType: int, tag: string, id: string, uuid: string, now: int)
    requires !IsHistoryRelated(dataType) && uuid != DISABLED_CHAIN_ID
    ensures var e := ItemRow(client, tag, dataType, id, now, uuid);
            var w := Unfinished(cfg, client, Item(id, tag, dataType, 0, false), now, uuid);
            && AtRest(w) && Holds(w.db, client, 0)
            && w.db.rows == map[KeyOf(e) := e] && w.db.tags == {ClientTagKey(client, tag)}
  {
    var pb := Item(id, tag, dataType, 0, false);
    var call := OneEntry(client, pb, now, uuid);
    var c, st0 := ContextOf(FRESH_WORLD, client, call.commit, call.env, cfg.backend), LoopStart(FRESH_WORLD, 0, 0);
    NothingStoredIsWithin(client);
    LoadedHolds(EMPTY_DB, client, 0, now / 1000);
    CreateCounts(c, st0, id, tag, dataType, call.env.ticks[0]);
    assert CommitUpto(c, st0, [pb], call.env.ticks, 0) == st0;
    var st := LoopEnd(FRESH_WORLD, client, call.commit, call.env, cfg.backend);
    assert st == CommitEntry(c, st0, pb, call.env.ticks[0]);
    LoopCounts(c, st0, [pb], call.env.ticks, 1);
    ReadMeaning(st.kv, client, Normal, true, now);
    var normal := InterimCount(st.kv, client, Normal, true, now);
    ReadMeaning(normal.kv, client, History, true, now);
    var kv := InterimCount(normal.kv, client, History, true, now).kv;
    forall c', k ensures Pending(kv, c', k) == 0 {
      if c' == client { assert k == Normal || k == History; }
    }
  }

  /** Two commits of one client cache the mtimes of one type in the opposite order of their writes: the
      earlier one has stored its item when the later one runs, whole, and then caches the older mtime. A
      client that has seen the older row is not told of the newer one. */
  lemma StampsCross(cfg: Config, client: ClientId, dataType: int, tag: string, tag': string, id: string,
                    uuid: string, uuid': string, first: int, second: int, stamped: int, poll: int)
    requires !IsHistoryRelated(dataType) && uuid != uuid' && tag != tag'
    requires uuid != DISABLED_CHAIN_ID && uuid' != DISABLED_CHAIN_ID
    requires first < second && poll <= stamped + 600000
    ensures var m := InMarker(dataType, Some(Varint(first)));
            var w1 := Unfinished(cfg, client, Item(id, tag, dataType, 0, false), first, uuid);
            var w2 := Serve(cfg, w1, OneEntry(client, Item(id, tag', dataType, 0, false), second, uuid')).world;
            var kv := AccessStep(w2.kv, TimedAccess(stamped, StampMtime(client, dataType, first)));
            Hidden(World(w2.db, kv), client, m, poll, ItemRow(client, tag', dataType, id, second, uuid'))
  {
    var m := InMarker(dataType, Some(Varint(first)));
    var w1 := Unfinished(cfg, client, Item(id, tag, dataType, 0, false), first, uuid);
    var e := ItemRow(client, tag', dataType, id, second, uuid');
    UnfinishedCommit(cfg, client, dataType, tag, id, uuid, first);
    TagKeysDiffer(client, tag, client, tag');
    assert OwnTag(e) == {ClientTagKey(client, tag')} && OwnTag(e) * w1.db.tags == {};
    CreateRuns(cfg, w1, client, id, tag', dataType, second, uuid', 0);
    var w2 := Serve(cfg, w1, OneEntry(client, Item(id, tag', dataType, 0, false), second, uuid')).world;
    assert Visible(e, FilterFor(Poll(client, m), m, poll));
    var kv := AccessStep(w2.kv, TimedAccess(stamped, StampMtime(client, dataType, first)));
    CachedHides(World(w2.db, kv), client, m, first, stamped, poll, KeyOf(e));
  }

  // ---- requests one at a time ----

  /** A get-updates of one type that is answered with an empty page, by a client that is not new. */
  function EmptyUpdates(client: ClientId, dataType: int, folders: bool, now: int): Call {
    GuCall(client, GuMsg(OtherOrigin, Some(folders), [InMarker(dataType, None)]), false, [], now,
           [Visit(now, EMPTY_PAGE)])
  }

  lemma EmptyUpdatesRun(cfg: Config, w: World, client: ClientId, dataType: int, folders: bool, now: int)
    requires !IsDisabled(w.db, client)
    requires PendingRows(w.db.rows, Filter(client, dataType, 0, folders, now / 1000)) == {}
    ensures var call := EmptyUpdates(client, dataType, folders, now);
            var after := Serve(cfg, w, call).world;
            LegalCall(cfg, w, call) && after.db == w.db && CachedFrom(after.kv, client, dataType, 0, now)
  {
    var call := EmptyUpdates(client, dataType, folders, now);
    var c, m, v := GuContextOf(cfg, call), call.msg.markers[0], call.visits[0];
    assert Upto(c, w.kv, call.visits, 0) == GuState(NO_UPDATES, w.kv);
    assert IsAnswer(w.db.rows, FilterFor(c, m, now), MAX_GU_BATCH_SIZE, EMPTY_PAGE);
    assert LegalUpto(w.db.rows, c, w.kv, call.visits, 0);
    assert Upto(c, w.kv, call.visits, 1) == Next(c, GuState(NO_UPDATES, w.kv), m, v);
  }

  function Folder(id: string, tag: string, dataType: int): PbEntity {
    Item(id, tag, dataType, 0, false).(folder := Some(true))
  }

  function FolderRow(client: ClientId, tag: string, dataType: int, id: string, now: int, uuid: string): Entity
    requires !IsHistoryRelated(dataType)
  {
    ItemRow(client, tag, dataType, id, now, uuid).(folder := Some(true))
  }

  lemma FolderEntry(c: CommitContext, st: CommitState, id: string, tag: string, dataType: int, t: Tick)
    requires !IsHistoryRelated(dataType) && Tracks(c, st) && st.db == EMPTY_DB && st.idMap == map[]
    requires !t.writeFails && c.cacheGuid == Some("device") && !OverTotalQuota(c, st)
    ensures CommitEntry(c, st, Folder(id, tag, dataType), t).db.rows
            == map[Key(c.client, t.uuid) := FolderRow(c.client, tag, dataType, id, t.now, t.uuid)]
  {
    EntryCounts(c, st, Folder(id, tag, dataType), t);
  }

  lemma FolderStored(cfg: Config, client: ClientId, dataType: int, tag: string, id: string, uuid: string, now: int)
    requires !IsHistoryRelated(dataType)
    ensures Serve(cfg, FRESH_WORLD, OneEntry(client, Folder(id, tag, dataType), now, uuid)).world.db.rows
            == map[Key(client, uuid) := FolderRow(client, tag, dataType, id, now, uuid)]
  {
    var pb := Folder(id, tag, dataType);
    var call := OneEntry(client, pb, now, uuid);
    var c, st0 := ContextOf(FRESH_WORLD, client, call.commit, call.env, cfg.backend), LoopStart(FRESH_WORLD, 0, 0);
    NothingStoredIsWithin(client);
    OneEntryRuns(cfg, FRESH_WORLD, client, pb, now, uuid);
    LoadedHolds(EMPTY_DB, client, 0, now / 1000);
    FolderEntry(c, st0, id, tag, dataType, call.env.ticks[0]);
  }

  /** A folder is committed; a client that does not fetch folders is told there is nothing, and that is
      cached. */
  lemma FolderPassedOver(cfg: Config, client: ClientId, dataType: int, tag: string, id: string, uuid: string,
                         committed: int, asked: int, poll: int)
    requires !IsHistoryRelated(dataType) && uuid != DISABLED_CHAIN_ID
    requires 0 < committed && poll <= asked + 600000
    ensures var w1 := Serve(cfg, FRESH_WORLD, OneEntry(client, Folder(id, tag, dataType), committed, uuid)).world;
            var call := EmptyUpdates(client, dataType, false, asked);
            && LegalCall(cfg, w1, call) && Key(client, uuid) in w1.db.rows
            && Hidden(Serve(cfg, w1, call).world, client, InMarker(dataType, None), poll, w1.db.rows[Key(client, uuid)])
  {
    var w1 := Serve(cfg, FRESH_WORLD, OneEntry(client, Folder(id, tag, dataType), committed, uuid)).world;
    var k := Key(client, uuid);
    FolderStored(cfg, client, dataType, tag, id, uuid, committed);
    EmptyUpdatesRun(cfg, w1, client, dataType, false, asked);
    CachedHides(Serve(cfg, w1, EmptyUpdates(client, dataType, false, asked)).world, client, InMarker(dataType, None),
                0, asked, poll, k);
  }

  /** A type is cached as empty before a new client is given its server-defined entities. */
  lemma BootstrapHidden(cfg: Config, client: ClientId, batch: seq<Entity>, asked: int, at: int, poll: int)
    requires Bootstrap.IsBatch(client, batch) && ServerEntitiesInserted(EMPTY_DB, batch).Some?
    requires batch[0].expirationTime.None? && 0 < batch[0].mtime.value && poll <= asked + 600000
    ensures var dataType := Bootstrap.NIGORI_TYPE_ID;
            var first := EmptyUpdates(client, dataType, true, asked);
            var second := GuCall(client, GuMsg(NewClient, None, []), false, batch, at, []);
            var w1 := Serve(cfg, FRESH_WORLD, first).world;
            && LegalCall(cfg, FRESH_WORLD, first) && LegalCall(cfg, w1, second)
            && Hidden(Serve(cfg, w1, second).world, client, InMarker(dataType, None), poll, batch[0])
  {
    var dataType := Bootstrap.NIGORI_TYPE_ID;
    var second := GuCall(client, GuMsg(NewClient, None, []), false, batch, at, []);
    EmptyUpdatesRun(cfg, FRESH_WORLD, client, dataType, true, asked);
    var w1 := Serve(cfg, FRESH_WORLD, EmptyUpdates(client, dataType, true, asked)).world;
    Bootstrap.BatchEffect(EMPTY_DB, batch);
    var w2 := Serve(cfg, w1, second).world;
    assert w2.kv == w1.kv && batch[0] in batch;
    CachedHides(w2, client, InMarker(dataType, None), 0, asked, poll, KeyOf(batch[0]));
  }

  /** The stamps are cached, and the mtimes cached for other types are as before. */
  ghost predicate StampsReach(kv: KV, after: KV, client: ClientId, stamps: map<int, int>, now: int) {
    && (forall t :: t in stamps ==> CachedFrom(after, client, t, stamps[t], now))
    && (forall t, mtime, at :: t !in stamps && CachedFrom(kv, client, t, mtime, at) ==>
          CachedFrom(after, client, t, mtime, at))
  }

  lemma StampsAreCached(before: KV, kv: KV, client: ClientId, stamps: map<int, int>, now: int)
    requires SameMtimes(before, kv)
    ensures StampsReach(before, Stamped(kv, client, stamps, now), client, stamps, now)
  {
    TypeMtimeKeysDiffer(client);
  }

  lemma OneEntryCaches(cfg: Config, w: World, client: ClientId, pb: PbEntity, now: int, uuid: string)
    requires AtRest(w) && Addressable(pb) && !IsDisabled(w.db, client)
    ensures var call := OneEntry(client, pb, now, uuid);
            var c := ContextOf(w, client, call.commit, call.env, cfg.backend);
            var st := CommitEntry(c, LoopStart(w, 0, 0), pb, call.env.ticks[0]);
            StampsReach(w.kv, Serve(cfg, w, call).world.kv, client, st.typeMtime, now)
  {
    var call := OneEntry(client, pb, now, uuid);
    var c, st0 := ContextOf(w, client, call.commit, call.env, cfg.backend), LoopStart(w, 0, 0);
    var st := LoopEnd(w, client, call.commit, call.env, cfg.backend);
    CommitMeaning(w, client, call.commit, call.env, cfg.backend);
    FinishMeaning(w, st, client, call.env);
    var kv := st.kv - {InterimKey(client, Normal)} - {InterimKey(client, History)};
    MtimesAtTheEnd(w, client, call.commit, call.env, cfg.backend, kv);
    assert CommitUpto(c, st0, [pb], call.env.ticks, 0) == st0;
    assert st == CommitEntry(c, st0, pb, call.env.ticks[0]);
    StampsAreCached(w.kv, kv, client, st.typeMtime, now);
  }

  lemma CreateStamps(c: CommitContext, st: CommitState, id: string, tag: string, dataType: int, t: Tick)
    requires !IsHistoryRelated(dataType) && Tracks(c, st) && st.idMap == map[]
    requires !InsertConflicts(st.db, ItemRow(c.client, tag, dataType, id, t.now, t.uuid))
    requires st.typeMtime == map[] && !t.writeFails && c.cacheGuid == Some("device") && !OverTotalQuota(c, st)
    ensures CommitEntry(c, st, Item(id, tag, dataType, 0, false), t).typeMtime == map[dataType := t.now]
  {
    EntryCounts(c, st, Item(id, tag, dataType, 0, false), t);
  }

  lemma EntryCaches(cfg: Config, w: World, client: ClientId, pb: PbEntity, now: int, uuid: string, dataType: int)
    requires AtRest(w) && Addressable(pb) && !IsDisabled(w.db, client)
    requires CommitEntry(ContextOf(w, client, OneEntry(client, pb, now, uuid).commit,
                                   OneEntry(client, pb, now, uuid).env, cfg.backend),
                         LoopStart(w, 0, 0), pb, Tick(now, uuid, false, false)).typeMtime == map[dataType := now]
    ensures CachedFrom(Serve(cfg, w, OneEntry(client, pb, now, uuid)).world.kv, client, dataType, now, now)
  {
    OneEntryCaches(cfg, w, client, pb, now, uuid);
  }

  lemma FirstHasRoom(cfg: Config, w: World, client: ClientId, call: Call)
    requires AtRest(w) && Holds(w.db, client, 0) && call.CommitCall?
    ensures var c, st0 := ContextOf(w, client, call.commit, call.env, cfg.backend), LoopStart(w, 0, 0);
            Tracks(c, st0) && !OverTotalQuota(c, st0)
  {
    LoadedHolds(w.db, client, 0, call.env.start / 1000);
  }

  lemma CreateIsCached(cfg: Config, w: World, client: ClientId, dataType: int, tag: string, id: string, uuid: string,
                       now: int)
    requires AtRest(w) && Holds(w.db, client, 0) && !IsDisabled(w.db, client) && !IsHistoryRelated(dataType)
    requires !InsertConflicts(w.db, ItemRow(client, tag, dataType, id, now, uuid))
    ensures CachedFrom(Serve(cfg, w, OneEntry(client, Item(id, tag, dataType, 0, false), now, uuid)).world.kv,
                       client, dataType, now, now)
  {
    var call := OneEntry(client, Item(id, tag, dataType, 0, false), now, uuid);
    FirstHasRoom(cfg, w, client, call);
    CreateStamps(ContextOf(w, client, call.commit, call.env, cfg.backend), LoopStart(w, 0, 0), id, tag, dataType,
                 Tick(now, uuid, false, false));
    EntryCaches(cfg, w, client, Item(id, tag, dataType, 0, false), now, uuid, dataType);
  }

  /** An accepted update that names another type. */
  lemma UpdateNamesType(c: CommitContext, st: CommitState, id: string, tag: string, other: int, base: int, t: Tick)
    requires !IsHistoryRelated(other) && Tracks(c, st) && st.idMap == map[] && st.typeMtime == map[]
    requires !t.writeFails && base != 0 && c.cacheGuid == Some("device")
    requires Key(c.client, id) in st.db.rows && st.db.rows[Key(c.client, id)].version == Some(base)
    ensures var k, after := Key(c.client, id), CommitEntry(c, st, Item(id, tag, other, base, false), t);
            && after.typeMtime == map[other := t.now] && k in after.db.rows
            && after.db.rows[k].mtime == Some(t.now) && after.db.rows[k].dataType == st.db.rows[k].dataType
            && after.db.rows[k].clientId == st.db.rows[k].clientId
            && after.db.rows[k].expirationTime == st.db.rows[k].expirationTime
  {
    EntryCounts(c, st, Item(id, tag, other, base, false), t);
  }

  /** Such an update leaves the mtime cached for the row's type as it was. */
  lemma UpdateRuns(cfg: Config, w: World, client: ClientId, id: string, tag: string, other: int, base: int, now: int,
                   dataType: int, mtime: int, at: int)
    requires AtRest(w) && !IsDisabled(w.db, client) && !IsHistoryRelated(other) && base != 0 && other != dataType
    requires Key(client, id) in w.db.rows && w.db.rows[Key(client, id)].version == Some(base)
    requires CachedFrom(w.kv, client, dataType, mtime, at)
    ensures var after, k := Serve(cfg, w, OneEntry(client, Item(id, tag, other, base, false), now, "")).world,
                            Key(client, id);
            && k in after.db.rows && after.db.rows[k].mtime == Some(now)
            && after.db.rows[k].dataType == w.db.rows[k].dataType
            && after.db.rows[k].clientId == w.db.rows[k].clientId
            && after.db.rows[k].expirationTime == w.db.rows[k].expirationTime
            && CachedFrom(after.kv, client, dataType, mtime, at)
  {
    var pb := Item(id, tag, other, base, false);
    var call := OneEntry(client, pb, now, "");
    OneEntryRuns(cfg, w, client, pb, now, "");
    UpdateNamesType(ContextOf(w, client, call.commit, call.env, cfg.backend), LoopStart(w, 0, 0), id, tag, other, base,
                    call.env.ticks[0]);
    OneEntryCaches(cfg, w, client, pb, now, "");
  }

  /** An update names another type than its row's: the row changes, but the mtime of the other type is
      what is cached. A client that has seen the row is not told of the change. */
  lemma TypeChanged(cfg: Config, client: ClientId, dataType: int, other: int, tag: string, id: string, uuid: string,
                    created: int, updated: int, poll: int)
    requires !IsHistoryRelated(dataType) && !IsHistoryRelated(other) && other != dataType
    requires uuid != DISABLED_CHAIN_ID && 0 < created < updated && poll <= created + 600000
    ensures var w1 := Serve(cfg, FRESH_WORLD,
                            OneEntry(client, Item(id, tag, dataType, 0, false), created, uuid)).world;
            var w2 := Serve(cfg, w1, OneEntry(client, Item(uuid, tag, other, created, false), updated, "")).world;
            && Key(client, uuid) in w2.db.rows && w2.db.rows[Key(client, uuid)].mtime == Some(updated)
            && Hidden(w2, client, InMarker(dataType, Some(Varint(created))), poll, w2.db.rows[Key(client, uuid)])
  {
    var w1 := AfterCreate(cfg, client, dataType, tag, id, uuid, created);
    NothingStoredIsWithin(client);
    CreateIsCached(cfg, FRESH_WORLD, client, dataType, tag, id, uuid, created);
    UpdateRuns(cfg, w1, client, uuid, tag, other, created, updated, dataType, created, created);
    CachedHides(Serve(cfg, w1, OneEntry(client, Item(uuid, tag, other, created, false), updated, "")).world, client,
                InMarker(dataType, Some(Varint(created))), created, created, poll, Key(client, uuid));
  }
}
