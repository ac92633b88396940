/** The request handlers (command/command.go and server_defined_unique_entity.go), statement
    by statement on the mutable store and cache, each proved against its specification. */
module Command {
  import opened Basics
  import Decimal
  import opened SyncEntities
  import opened ItemCounts
  import opened MemoryCache
  import opened Cache
  import opened Tables
  import opened Query
  import opened GetUpdates
  import opened Commit
  import opened Server
  import opened SQLiteStore
  import opened Bootstrap

  // ---- bootstrap ----

  /** A clock reading and a generated id, one per entity. */
  datatype Stamp = Stamp(now: int, uuid: string)

  /** A second-level bookmark folder as the source creates it. */
  ghost predicate IsSubfolder(e: Entity, client: ClientId, root: string, stamp: Stamp) {
    && e.clientId == client && e.clientTag.None? && e.mtime == Some(stamp.now) && e.id == stamp.uuid
    && e.dataType == Some(BOOKMARK_TYPE_ID) && e.parentId == Some(root)
    && e.serverTag.Some? && IsSubfolderTag(e.serverTag.value)
    && IsLiveFolder(e) && IsNamedByTag(e)
  }

  ghost predicate IsTopFolder(e: Entity, client: ClientId, tag: string, dataType: int, stamp: Stamp) {
    && e.clientId == client && e.clientTag.None? && e.mtime == Some(stamp.now) && e.id == stamp.uuid
    && e.dataType == Some(dataType) && e.serverTag == Some(tag) && e.parentId == Some("0")
    && IsLiveFolder(e) && IsNamedByTag(e)
  }

  lemma SubfolderTable()
    ensures |SUBFOLDERS.Keys| == 3
    ensures forall a, b :: a in SUBFOLDERS && b in SUBFOLDERS && SUBFOLDERS[a] == SUBFOLDERS[b] ==> a == b
    ensures forall a :: a in SUBFOLDERS ==> IsSubfolderTag(SUBFOLDERS[a]) && NameOf(SUBFOLDERS[a]) == a
  {
  }

  method CreateSubfolder(name: string, client: ClientId, root: string, stamp: Stamp) returns (e: Entity)
    requires name in SUBFOLDERS
    ensures IsSubfolder(e, client, root, stamp) && e.serverTag == Some(SUBFOLDERS[name])
  {
    SubfolderTable();
    e := ServerEntity(name, SUBFOLDERS[name], client, root, BOOKMARK_SPECIFICS, stamp.now, stamp.uuid);
  }

  /** The folders made so far have tags of their own, and none of a name still to come. */
  ghost predicate TagsApart(entities: seq<Entity>, names: set<string>)
    requires names <= SUBFOLDERS.Keys
  {
    && (forall i, name :: 0 <= i < |entities| && name in names ==> entities[i].serverTag != Some(SUBFOLDERS[name]))
    && (forall i, j :: 0 <= i < j < |entities| ==> entities[i].serverTag != entities[j].serverTag)
  }

  lemma OneMoreFolder(entities: seq<Entity>, names: set<string>, name: string, folder: Entity)
    requires names <= SUBFOLDERS.Keys && TagsApart(entities, names) && name in names
    requires folder.serverTag == Some(SUBFOLDERS[name])
    ensures TagsApart(entities + [folder], names - {name})
  {
    SubfolderTable();
  }

  /** One folder per entry of the table, in whatever order the table is walked. */
  method CreateSubfolders(client: ClientId, root: string, stamps: seq<Stamp>) returns (entities: seq<Entity>)
    requires |stamps| == 3
    ensures |entities| == 3 && forall i :: 0 <= i < 3 ==> IsSubfolder(entities[i], client, root, stamps[i])
    ensures forall i, j :: 0 <= i < j < 3 ==> entities[i].serverTag != entities[j].serverTag
  {
    entities := [];
    var names := SUBFOLDERS.Keys;
    SubfolderTable();
    while names != {}
      invariant names <= SUBFOLDERS.Keys && |entities| + |names| == 3
      invariant forall i :: 0 <= i < |entities| ==> IsSubfolder(entities[i], client, root, stamps[i])
      invariant TagsApart(entities, names)
      decreases |names|
    {
      var name :| name in names;
      var folder := CreateSubfolder(name, client, root, stamps[|entities|]);
      OneMoreFolder(entities, names, name, folder);
      entities := entities + [folder];
      names := names - {name};
    }
  }

  lemma ServerTagsDiffer()
    ensures NIGORI_TAG != BOOKMARKS_TAG
    ensures forall tag :: IsSubfolderTag(tag) ==> tag != NIGORI_TAG && tag != BOOKMARKS_TAG
  {
  }

  lemma BatchOf(client: ClientId, nigori: Entity, root: Entity, subfolders: seq<Entity>, stamps: seq<Stamp>)
    requires |stamps| == 5 && |subfolders| == 3
    requires IsTopFolder(nigori, client, NIGORI_TAG, NIGORI_TYPE_ID, stamps[0])
    requires IsTopFolder(root, client, BOOKMARKS_TAG, BOOKMARK_TYPE_ID, stamps[1])
    requires forall i :: 0 <= i < 3 ==> IsSubfolder(subfolders[i], client, root.id, stamps[i + 2])
    requires forall i, j :: 0 <= i < j < 3 ==> subfolders[i].serverTag != subfolders[j].serverTag
    ensures var batch := [nigori, root] + subfolders;
            IsBatch(client, batch)
            && forall i :: 0 <= i < 5 ==> batch[i].id == stamps[i].uuid && batch[i].mtime == Some(stamps[i].now)
  {
    var batch := [nigori, root] + subfolders;
    ServerTagsDiffer();
    assert forall i :: 2 <= i < 5 ==> batch[i] == subfolders[i - 2];
  }

  /** Checks for the nigori tag, then inserts all five entities in one transaction. */
  method InsertServerDefinedUniqueEntities(store: Store, client: ClientId, stamps: seq<Stamp>)
    returns (err: bool, ghost batch: seq<Entity>)
    requires |stamps| == 5
    modifies store
    ensures ServerTagKey(client, NIGORI_TAG) in old(store.tags) ==>
              !err && batch == [] && store.View() == old(store.View())
    ensures ServerTagKey(client, NIGORI_TAG) !in old(store.tags) ==>
              && IsBatch(client, batch)
              && (forall i :: 0 <= i < 5 ==> batch[i].id == stamps[i].uuid && batch[i].mtime == Some(stamps[i].now))
              && err == ServerEntitiesInserted(old(store.View()), batch).None?
              && store.View() == GetOr(ServerEntitiesInserted(old(store.View()), batch), old(store.View()))
  {
    var ready := store.HasServerDefinedUniqueTag(client, NIGORI_TAG);
    if ready {
      return false, [];
    }
    var nigori := ServerEntity(NIGORI_NAME, NIGORI_TAG, client, ROOT_PARENT, NIGORI_SPECIFICS, stamps[0].now,
                               stamps[0].uuid);
    var root := ServerEntity(BOOKMARKS_NAME, BOOKMARKS_TAG, client, ROOT_PARENT, BOOKMARK_SPECIFICS, stamps[1].now,
                             stamps[1].uuid);
    var subfolders := CreateSubfolders(client, root.id, stamps[2..]);
    var entities := [nigori, root] + subfolders;
    BatchOf(client, nigori, root, subfolders, stamps);
    batch := entities;
    err := store.InsertSyncEntitiesWithServerTags(entities);
  }

  // ---- get-updates ----

  ghost function WorldOf(store: Store, cache: CacheClient): World
    reads store, cache.redis
  {
    World(store.View(), cache.redis.kv)
  }

  ghost function ConfigOf(store: Store): Config {
    Config(true, store.backend)
  }

  lemma ToPbAppend(es: seq<Entity>, j: nat)
    requires j < |es|
    ensures ToPb(es[..j + 1]) == ToPb(es[..j]) + [CreatePBSyncEntity(es[j])]
  {
  }

  /** The tail of the body: append the page, move the token, cache the mtime. */
  method AddPage(cache: CacheClient, c: GuContext, ghost rsp: GuResponse, listed: GuResponse, m: InMarker, token: int,
                 more: bool, entities: seq<Entity>, now: int) returns (next: GuResponse)
    requires |listed.entries| + |entities| <= MAX_GU_BATCH_SIZE
    requires listed.markers == rsp.markers + [Marker(m.dataType, Varint(token))]
    modifies cache.redis
    ensures var changesRemaining := if more then 1 else listed.changesRemaining;
            && next == listed.(changesRemaining := changesRemaining, entries := listed.entries + ToPb(entities),
                               markers := rsp.markers + [Marker(m.dataType, Varint(NextToken(token, entities)))])
            && cache.redis.kv == (if changesRemaining != 1 then
                                    WithTypeMtime(old(cache.redis.kv), c.client, m.dataType, NextToken(token, entities),
                                                  now)
                                  else old(cache.redis.kv))
  {
    next := listed;
    if more {
      next := next.(changesRemaining := 1);
    }
    var j := 0;
    while j < |entities| && |next.entries| < MAX_GU_BATCH_SIZE
      invariant 0 <= j <= |entities| && cache.redis.kv == old(cache.redis.kv)
      invariant next == listed.(changesRemaining := if more then 1 else listed.changesRemaining,
                                entries := listed.entries + ToPb(entities[..j]))
    {
      ToPbAppend(entities, j);
      next := next.(entries := next.entries + [CreatePBSyncEntity(entities[j])]);
      j := j + 1;
    }
    assert entities[..|entities|] == entities;
    var mtime := token;
    if j != 0 {
      mtime := GetOr(entities[j - 1].mtime, 0);
      next := next.(markers := next.markers[|next.markers| - 1 := Marker(m.dataType, Varint(mtime))]);
    }
    if next.changesRemaining != 1 {
      cache.SetTypeMtime(c.client, m.dataType, mtime, now);
    }
  }

  /** The body from the query on. */
  method QueryMarker(store: Store, cache: CacheClient, c: GuContext, ghost st: GuState, listed: GuResponse, m: InMarker,
                     token: int, now: int, dbFails: bool)
    returns (next: GuResponse, ghost page: Page)
    requires Queries(c, st, m, now) && StartToken(m) == Varint(token) && listed == Listed(c, st, m).rsp
    requires cache.redis.kv == Checked(c, st, m, now)
    modifies cache.redis
    ensures GuState(next, cache.redis.kv) == Next(c, st, m, Visit(now, page))
    ensures LegalVisit(store.rows, c, st, m, Visit(now, page))
    ensures |next.entries| <= MAX_GU_BATCH_SIZE
  {
    var curMaxSize := MAX_GU_BATCH_SIZE - |listed.entries|;
    if dbFails {
      page := QueryFailed;
      next := listed.(status := Transient);
      return;
    }
    var fetchFolders := if c.msg.fetchFolders.Some? then c.msg.fetchFolders.value else true;
    var more, entities := store.GetUpdatesForType(Filter(c.client, m.dataType, token, fetchFolders, now / 1000),
                                                  curMaxSize);
    page := Page(more, entities);
    if c.msg.origin.NewClient? && m.dataType == NIGORI_TYPE_ID && token == 0 && |entities| == 0 {
      next := listed.(status := Transient);
      return;
    }
    next := AddPage(cache, c, st.rsp, listed, m, token, more, entities, now);
    assert GuState(next, cache.redis.kv) == WithPage(c, st, m, Visit(now, page));
  }

  /** The body of the loop over the progress markers, up to the query. */
  method VisitMarker(store: Store, cache: CacheClient, c: GuContext, rsp: GuResponse, m: InMarker, now: int,
                     dbFails: bool)
    returns (next: GuResponse, ghost page: Page)
    requires rsp.status.Ok? && c.polls && |rsp.entries| <= MAX_GU_BATCH_SIZE
    modifies cache.redis
    ensures GuState(next, cache.redis.kv) == Next(c, GuState(rsp, old(cache.redis.kv)), m, Visit(now, page))
    ensures LegalVisit(store.rows, c, GuState(rsp, old(cache.redis.kv)), m, Visit(now, page))
    ensures |next.entries| <= MAX_GU_BATCH_SIZE
  {
    page := EMPTY_PAGE;
    var token := if m.token.Some? then m.token.value else Varint(0);
    next := rsp.(markers := rsp.markers + [Marker(m.dataType, token)]);
    if m.dataType == NIGORI_TYPE_ID && c.msg.origin.NewClient? {
      next := next.(encryptionKeys := true);
    }
    assert next == Listed(c, GuState(rsp, cache.redis.kv), m).rsp;
    if |next.entries| >= MAX_GU_BATCH_SIZE {
      return;
    }
    if token.Malformed? {
      next := next.(status := InternalError);
      return;
    }
    if c.msg.origin.Periodic? {
      var updated := cache.IsTypeMtimeUpdated(c.client, m.dataType, token.value, now);
      if !updated {
        return;
      }
    }
    next, page := QueryMarker(store, cache, c, GuState(rsp, old(cache.redis.kv)), next, m, token.value, now, dbFails);
  }

  /** A loop that returned early is recorded as visiting the other markers in vain. */
  lemma {:induction false} AfterHalt(rows: map<Key, Entity>, c: GuContext, kv: KV, visits: seq<Visit>, clock: seq<int>)
    returns (all: seq<Visit>)
    requires |visits| <= |c.msg.markers| == |clock| && LegalUpto(rows, c, kv, visits, |visits|)
    requires |visits| < |clock| ==> Halted(Upto(c, kv, visits, |visits|))
    requires forall i :: 0 <= i < |visits| ==> visits[i].now == clock[i]
    ensures |all| == |clock| && LegalUpto(rows, c, kv, all, |all|)
    ensures forall i :: 0 <= i < |all| ==> all[i].now == clock[i]
    ensures Upto(c, kv, all, |all|) == Upto(c, kv, visits, |visits|)
    decreases |clock| - |visits|
  {
    if |visits| == |clock| {
      all := visits;
    } else {
      var v := Visit(clock[|visits|], EMPTY_PAGE);
      OneMoreVisit(rows, c, kv, visits, v);
      all := AfterHalt(rows, c, kv, visits + [v], clock);
    }
  }

  /** What handling a get-updates meets besides the request: the device limit's verdict, the
      stamps of a bootstrap, the clock, and which queries fail in the database. */
  datatype GuInput = GuInput(throttled: bool, stamps: seq<Stamp>, at: int, clock: seq<int>, dbFails: seq<bool>)

  predicate ValidGuInput(msg: GuMsg, input: GuInput) {
    |input.stamps| == 5 && |input.clock| == |msg.markers| == |input.dbFails|
  }

  /** The recorded call fits the request and the clock. */
  ghost predicate Records(call: Call, client: ClientId, msg: GuMsg, input: GuInput) {
    && call.GuCall? && call.client == client && call.msg == msg && call.throttled == input.throttled
    && call.at == input.at && |call.visits| == |msg.markers| == |input.clock|
    && (forall i :: 0 <= i < |call.visits| ==> call.visits[i].now == input.clock[i])
    && (call.batch == [] || IsBatch(client, call.batch))
  }

  /** What the loop has recorded after some markers. */
  ghost predicate Filled(rows: map<Key, Entity>, c: GuContext, kv: KV, clock: seq<int>, visits: seq<Visit>, st: GuState)
  {
    && |visits| <= |c.msg.markers| == |clock| && |st.rsp.entries| <= MAX_GU_BATCH_SIZE
    && st == Upto(c, kv, visits, |visits|) && LegalUpto(rows, c, kv, visits, |visits|)
    && (forall j :: 0 <= j < |visits| ==> visits[j].now == clock[j])
  }

  lemma OneMoreFilled(rows: map<Key, Entity>, c: GuContext, kv: KV, clock: seq<int>, visits: seq<Visit>, st: GuState,
                      v: Visit)
    requires Filled(rows, c, kv, clock, visits, st) && |visits| < |clock| && v.now == clock[|visits|]
    requires LegalVisit(rows, c, st, c.msg.markers[|visits|], v)
    ensures Filled(rows, c, kv, clock, visits + [v], Next(c, st, c.msg.markers[|visits|], v))
  {
    OneMoreVisit(rows, c, kv, visits, v);
    ResponseShape(rows, c, kv, visits + [v], |visits| + 1);
  }

  /** The loop over the progress markers. */
  method FillUpdates(store: Store, cache: CacheClient, c: GuContext, input: GuInput)
    returns (rsp: GuResponse, ghost visits: seq<Visit>)
    requires c.polls && ValidGuInput(c.msg, input)
    modifies cache.redis
    ensures Legal(store.rows, c, old(cache.redis.kv), visits)
    ensures GuState(rsp, cache.redis.kv) == Result(c, old(cache.redis.kv), visits)
    ensures forall i :: 0 <= i < |visits| ==> visits[i].now == input.clock[i]
  {
    rsp, visits := NO_UPDATES, [];
    ghost var kv0 := cache.redis.kv;
    var i := 0;
    while i < |c.msg.markers| && rsp.status.Ok?
      invariant i == |visits| && Filled(store.rows, c, kv0, input.clock, visits, GuState(rsp, cache.redis.kv))
    {
      ghost var page, st := EMPTY_PAGE, GuState(rsp, cache.redis.kv);
      rsp, page := VisitMarker(store, cache, c, rsp, c.msg.markers[i], input.clock[i], input.dbFails[i]);
      OneMoreFilled(store.rows, c, kv0, input.clock, visits, st, Visit(input.clock[i], page));
      visits := visits + [Visit(input.clock[i], page)];
      i := i + 1;
    }
    visits := AfterHalt(store.rows, c, kv0, visits, input.clock);
  }

  method HandleGetUpdates(store: Store, cache: CacheClient, client: ClientId, msg: GuMsg, input: GuInput)
    returns (rsp: GuResponse, ghost call: Call)
    requires ValidGuInput(msg, input)
    modifies store, cache.redis
    ensures Records(call, client, msg, input)
    ensures WillBootstrap(old(store.View()), call) && !input.throttled ==> IsBatch(client, call.batch)
    ensures Served(WorldOf(store, cache), Updates(rsp))
            == ServeUpdates(ConfigOf(store), old(WorldOf(store, cache)), call)
    ensures Bootstrapped(old(store.View()), call).Some? && !(msg.origin.NewClient? && input.throttled) ==>
              Legal(Bootstrapped(old(store.View()), call).value.rows, GuContextOf(ConfigOf(store), call),
                    old(cache.redis.kv), call.visits)
  {
    ghost var unvisited := seq(|msg.markers|, i requires 0 <= i < |msg.markers| => Visit(input.clock[i], EMPTY_PAGE));
    call := GuCall(client, msg, input.throttled, [], input.at, unvisited);
    if msg.origin.NewClient? {
      if input.throttled {
        return NO_UPDATES.(status := Throttled), call;
      }
      var err;
      ghost var batch;
      err, batch := InsertServerDefinedUniqueEntities(store, client, input.stamps);
      call := call.(batch := batch);
      if err {
        return NO_UPDATES.(status := Transient), call;
      }
    }
    if msg.markers == [] {
      rsp := NO_UPDATES;
      return;
    }
    ghost var visits;
    rsp, visits := FillUpdates(store, cache, GuContext(client, msg, true), input);
    call := call.(visits := visits);
  }

  // ---- clear ----

  ghost function TypeKeysOf(es: set<Entity>): set<string> {
    set e | e in es && e.dataType.Some? :: TypeMtimeKey(e.clientId, e.dataType.value)
  }

  lemma TypeKeysAreRowKeys(db: DB, client: ClientId, entities: set<Entity>)
    requires entities == set k | k in db.rows && db.rows[k].clientId == client :: db.rows[k]
    ensures TypeKeysOf(entities) == RowTypeKeys(db, client)
  {
  }

  lemma TypeKeysGrow(es: set<Entity>, e: Entity, keys: seq<string>)
    requires (set k | k in keys) == TypeKeysOf(es)
    ensures e.dataType.None? ==> TypeKeysOf(es + {e}) == TypeKeysOf(es)
    ensures e.dataType.Some? ==>
              (set k | k in keys + [TypeMtimeKey(e.clientId, e.dataType.value)]) == TypeKeysOf(es + {e})
  {
    if e.dataType.Some? {
      var key := TypeMtimeKey(e.clientId, e.dataType.value);
      assert TypeKeysOf(es + {e}) == TypeKeysOf(es) + {key};
      assert (set k | k in keys + [key]) == (set k | k in keys) + {key};
    }
  }

  method HandleClearServerData(store: Store, cache: CacheClient, client: ClientId, now: int)
    modifies store, cache.redis
    ensures WorldOf(store, cache) == ServeClear(old(WorldOf(store, cache)), client, now)
  {
    store.DisableSyncChain(client, now);
    ghost var disabled := store.View();
    var entities := store.ClearServerData(client);
    var keys := [];
    var left := entities;
    while left != {}
      invariant left <= entities
      invariant (set k | k in keys) == TypeKeysOf(entities - left)
      invariant cache.redis.kv == old(cache.redis.kv) && store.View() == Cleared(disabled, client)
    {
      var e :| e in left;
      TypeKeysGrow(entities - left, e, keys);
      assert entities - (left - {e}) == (entities - left) + {e};
      if e.dataType.Some? {
        keys := keys + [TypeMtimeKey(e.clientId, e.dataType.value)];
      }
      left := left - {e};
    }
    assert entities - left == entities;
    if |keys| > 0 {
      cache.redis.Del(keys);
    } else {
      assert (set k | k in keys) == {};
      assert cache.redis.kv - {} == cache.redis.kv;
    }
    TypeKeysAreRowKeys(disabled, client, entities);
  }

  // ---- commit ----

  /** The local variables of the loop over the entries. */
  datatype Locals = Locals(idMap: map<string, string>, typeMtime: map<int, int>, newNormal: int, newHistory: int,
                           replies: seq<Reply>, failed: bool)

  ghost function StateOf(store: Store, cache: CacheClient, l: Locals): CommitState
    reads store, cache.redis
  {
    CommitState(store.View(), cache.redis.kv, l.idMap, l.typeMtime, l.newNormal, l.newHistory, l.replies, l.failed)
  }

  function Succeeded(l: Locals, e: Entity, t: Tick): Locals {
    l.(typeMtime := l.typeMtime[GetOr(e.dataType, 0) := t.now], replies := l.replies + [Success(e.id, t.now, t.now)])
  }

  method ReplySuccess(l: Locals, e: Entity, t: Tick) returns (next: Locals)
    ensures next == Succeeded(l, e, t)
  {
    next := l;
    next := next.(typeMtime := next.typeMtime[GetOr(e.dataType, 0) := t.now]);
    next := next.(replies := next.replies + [Success(e.id, t.now, t.now)]);
  }

  /** Counts the write in the cache and, unless that fails, reports success. */
  method CountOne(cache: CacheClient, c: CommitContext, l: Locals, e: Entity, delta: int, t: Tick)
    returns (next: Locals)
    requires !l.failed && (delta == 1 || delta == -1)
    modifies cache.redis
    ensures var n := Bumped(old(cache.redis.kv), c.client, KindOf(e), delta < 0, t.now);
            && cache.redis.kv == n.kv
            && next == (if n.value.None? then l.(failed := true)
                        else Succeeded(if KindOf(e).History? then l.(newHistory := n.value.value)
                                       else l.(newNormal := n.value.value), e, t))
  {
    if KindOf(e).History? {
      var count := cache.IncrementInterimCount(c.client, History, delta < 0, t.now);
      if count.None? {
        return l.(failed := true);
      }
      next := ReplySuccess(l.(newHistory := count.value), e, t);
    } else {
      var count := cache.IncrementInterimCount(c.client, Normal, delta < 0, t.now);
      if count.None? {
        return l.(failed := true);
      }
      next := ReplySuccess(l.(newNormal := count.value), e, t);
    }
  }

  method CreateOne(store: Store, cache: CacheClient, c: CommitContext, l: Locals, e: Entity, t: Tick)
    returns (next: Locals)
    requires !l.failed && c.backend == store.backend
    modifies store, cache.redis
    ensures var st := old(StateOf(store, cache, l));
            StateOf(store, cache, next) == Settled(c, st, e, CreateOutcome(c, st, e, t), t)
  {
    var isHistoryRelatedItem := e.dataType.Some? && IsHistoryRelated(e.dataType.value);
    if c.items + c.history + l.newNormal + l.newHistory >= MAX_CLIENT_OBJECT_QUOTA + Boost(c.history) {
      return l.(replies := l.replies + [OverQuota]);
    }
    if !isHistoryRelatedItem || c.history + l.newHistory < MAX_CLIENT_HISTORY_OBJECT_QUOTA {
      var conflict, err := store.InsertSyncEntity(e, t.writeFails);
      if err {
        return l.(replies := l.replies + [if conflict then Conflict else TransientError]);
      }
      var mapped := l;
      if e.clientItemId.Some? {
        mapped := l.(idMap := l.idMap[e.clientItemId.value := e.id]);
      }
      next := CountOne(cache, c, mapped, e, 1, t);
    } else {
      next := ReplySuccess(l, e, t);
    }
  }

  method UpdateOne(store: Store, cache: CacheClient, c: CommitContext, l: Locals, e: Entity, base: int, t: Tick)
    returns (next: Locals)
    requires !l.failed && c.backend == store.backend
    modifies store, cache.redis
    ensures var st := old(StateOf(store, cache, l));
            StateOf(store, cache, next) == Settled(c, st, e, UpdateOutcome(c, st, e, base, t), t)
  {
    var conflict, deleted, err := store.UpdateSyncEntity(e, base, t.writeFails);
    if err {
      return l.(replies := l.replies + [TransientError]);
    }
    if conflict {
      return l.(replies := l.replies + [Conflict]);
    }
    if deleted {
      next := CountOne(cache, c, l, e, -1, t);
    } else {
      next := ReplySuccess(l, e, t);
    }
  }

  /** The body of the loop over the entries. */
  method CommitOne(store: Store, cache: CacheClient, c: CommitContext, l: Locals, pb: PbEntity, t: Tick)
    returns (next: Locals)
    requires Addressable(pb) && !l.failed && c.backend == store.backend
    modifies store, cache.redis
    ensures StateOf(store, cache, next) == CommitEntry(c, old(StateOf(store, cache, l)), pb, t)
  {
    var created := CreateDBSyncEntity(pb, c.cacheGuid, c.client, t.now, t.uuid);
    if created.None? {
      return l.(replies := l.replies + [InvalidMessage]);
    }
    var e := created.value;
    if e.parentId.Some? {
      if e.parentId.value in l.idMap {
        e := e.(parentId := Some(l.idMap[e.parentId.value]));
      }
    }
    var base := GetOr(e.version, 0);
    var isUpdateOp := base != 0;
    e := e.(version := e.mtime);
    assert Some(e) == Prepared(c, StateOf(store, cache, l), pb, t);
    if IsHistoryType(e) {
      if t.hasItemFails {
        return l.(replies := l.replies + [TransientError]);
      }
      isUpdateOp := store.HasItem(c.client, e.id);
    }
    if !isUpdateOp {
      next := CreateOne(store, cache, c, l, e, t);
    } else {
      next := UpdateOne(store, cache, c, l, e, base, t);
    }
  }

  lemma StampsGrow(client: ClientId, mtimes: map<int, int>, dataType: int, mtime: int, now: int)
    requires dataType !in mtimes
    ensures Stamps(client, mtimes[dataType := mtime], now)
            == var v := MemoryValue(Decimal.Itoa(mtime), Some(now + TTL));
               Stamps(client, mtimes, now)[TypeMtimeKey(client, dataType) := v]
  {
    TypeMtimeKeysDiffer(client);
  }

  lemma UpdateAfterMerge(a: KV, b: KV, key: string, v: MemoryValue)
    ensures a + b[key := v] == (a + b)[key := v]
  {
  }

  lemma AddStamp(kv: KV, client: ClientId, mtimes: map<int, int>, dataType: int, mtime: int, now: int)
    requires dataType !in mtimes
    ensures WithTypeMtime(Stamped(kv, client, mtimes, now), client, dataType, mtime, now)
            == Stamped(kv, client, mtimes[dataType := mtime], now)
  {
    StampsGrow(client, mtimes, dataType, mtime, now);
    UpdateAfterMerge(kv, Stamps(client, mtimes, now), TypeMtimeKey(client, dataType),
                     MemoryValue(Decimal.Itoa(mtime), Some(now + TTL)));
  }

  /** Walking a map entry by entry: what is done and what is left make up the whole. */
  ghost predicate Walked(all: map<int, int>, done: map<int, int>, left: set<(int, int)>) {
    && (forall i :: i in left ==> i in all.Items && i.0 !in done)
    && (forall t :: t in all ==> (t, all[t]) in left || (t in done && done[t] == all[t]))
    && (forall t :: t in done ==> t in all)
  }

  lemma WalkOn(all: map<int, int>, done: map<int, int>, left: set<(int, int)>, item: (int, int))
    requires Walked(all, done, left) && item in left
    ensures item.0 !in done && Walked(all, done[item.0 := item.1], left - {item})
  {
  }

  lemma WalkedAllStamps(client: ClientId, all: map<int, int>, done: map<int, int>, now: int)
    requires Walked(all, done, {})
    ensures Stamps(client, done, now) == Stamps(client, all, now)
  {
  }

  /** Caches the newest mtime of every type the commit wrote, in any order. */
  method StampTypes(cache: CacheClient, client: ClientId, typeMtime: map<int, int>, now: int)
    modifies cache.redis
    ensures cache.redis.kv == Stamped(old(cache.redis.kv), client, typeMtime, now)
  {
    var left := typeMtime.Items;
    ghost var done: map<int, int> := map[];
    while left != {}
      invariant Walked(typeMtime, done, left)
      invariant cache.redis.kv == Stamped(old(cache.redis.kv), client, done, now)
    {
      var item :| item in left;
      WalkOn(typeMtime, done, left, item);
      AddStamp(old(cache.redis.kv), client, done, item.0, item.1, now);
      cache.SetTypeMtime(client, item.0, item.1, now);
      done := done[item.0 := item.1];
      left := left - {item};
    }
    WalkedAllStamps(client, typeMtime, done, now);
  }

  /** After the loop: drain both interim counters, cache the mtimes, save the counts. */
  method FinishCommit(store: Store, cache: CacheClient, itemCounts: ClientItemCounts, l: Locals, env: CommitEnv)
    returns (rsp: CommitResponse)
    modifies store, cache.redis, itemCounts
    ensures var st, client := old(StateOf(store, cache, l)), itemCounts.clientId;
            forall w: World | LoadedCounts(w.db, client, env.start / 1000) == old(itemCounts.View()) ::
              (WorldOf(store, cache), rsp) == Finished(w, st, client, env)
  {
    var client := itemCounts.clientId;
    var newNormal := cache.GetInterimCount(client, Normal, true, env.end);
    if newNormal.None? {
      return CommitResponse(Transient, l.replies);
    }
    var newHistory := cache.GetInterimCount(client, History, true, env.end);
    if newHistory.None? {
      return CommitResponse(Transient, l.replies);
    }
    StampTypes(cache, client, l.typeMtime, env.end);
    var err := store.UpdateClientItemCount(itemCounts, newNormal.value, newHistory.value, env.saveFails);
    return CommitResponse(Ok, l.replies);
  }

  /** The loop over the entries. */
  method CommitAll(store: Store, cache: CacheClient, c: CommitContext, newNormal: int, newHistory: int,
                   entries: seq<PbEntity>, ticks: seq<Tick>) returns (l: Locals)
    requires AllAddressable(entries) && |ticks| == |entries| && c.backend == store.backend
    modifies store, cache.redis
    ensures StateOf(store, cache, l)
            == CommitUpto(c, LoopStart(old(WorldOf(store, cache)), newNormal, newHistory), entries, ticks, |entries|)
  {
    l := Locals(map[], map[], newNormal, newHistory, [], false);
    ghost var st0 := StateOf(store, cache, l);
    for i := 0 to |entries|
      invariant StateOf(store, cache, l) == CommitUpto(c, st0, entries, ticks, i)
    {
      if !l.failed {
        l := CommitOne(store, cache, c, l, entries[i], ticks[i]);
      }
    }
  }

  method HandleCommit(store: Store, cache: CacheClient, client: ClientId, msg: CommitMsg, env: CommitEnv)
    returns (rsp: CommitResponse)
    requires ValidCommit(msg, env)
    modifies store, cache.redis
    ensures (WorldOf(store, cache), rsp) == Committed(old(WorldOf(store, cache)), client, msg, env, store.backend)
  {
    if msg.entries == [] {
      return CommitResponse(Ok, []);
    }
    if env.countsFail {
      return CommitResponse(Transient, []);
    }
    var itemCounts := store.GetClientItemCount(client, env.start / 1000);
    var newNormal := cache.GetInterimCount(client, Normal, false, env.start);
    if newNormal.None? {
      return CommitResponse(Transient, []);
    }
    var newHistory := cache.GetInterimCount(client, History, false, env.start);
    if newHistory.None? {
      return CommitResponse(Transient, []);
    }
    var c := CommitContext(client, msg.cacheGuid, itemCounts.itemCount, itemCounts.SumHistoryCounts(), store.backend);
    var l := CommitAll(store, cache, c, newNormal.value, newHistory.value, msg.entries, env.ticks);
    if l.failed {
      return CommitResponse(Transient, l.replies);
    }
    rsp := FinishCommit(store, cache, itemCounts, l, env);
  }

  // ---- dispatch ----

  /** A request and what its handling meets. */
  datatype Message =
    | GetUpdatesMessage(msg: GuMsg, gu: GuInput)
    | CommitMessage(commit: CommitMsg, env: CommitEnv)
    | ClearMessage(now: int)

  predicate ValidMessage(m: Message) {
    match m
    case GetUpdatesMessage(msg, input) => ValidGuInput(msg, input)
    case CommitMessage(msg, env) => ValidCommit(msg, env)
    case ClearMessage(_) => true
  }

  /** The gate for disabled chains and the three handlers: every request is a step of the
      server with answers the store may give. */
  method HandleClientToServerMessage(store: Store, cache: CacheClient, client: ClientId, m: Message)
    returns (answer: Answer, ghost call: Call)
    requires ValidMessage(m)
    modifies store, cache.redis
    ensures call.client == client
    ensures m.GetUpdatesMessage? ==> Records(call, client, m.msg, m.gu)
    ensures m.CommitMessage? ==> call == CommitCall(client, m.commit, m.env)
    ensures m.ClearMessage? ==> call == ClearCall(client, m.now)
    ensures LegalCall(ConfigOf(store), old(WorldOf(store, cache)), call)
    ensures Served(WorldOf(store, cache), answer) == Serve(ConfigOf(store), old(WorldOf(store, cache)), call)
  {
    var disabled := store.IsSyncChainDisabled(client);
    if disabled {
      call := match m
        case GetUpdatesMessage(msg, input) =>
          GuCall(client, msg, input.throttled, [], input.at,
                 seq(|msg.markers|, i requires 0 <= i < |msg.markers| => Visit(input.clock[i], EMPTY_PAGE)))
        case CommitMessage(msg, env) => CommitCall(client, msg, env)
        case ClearMessage(now) => ClearCall(client, now);
      return DisabledByAdmin, call;
    }
    match m
    case GetUpdatesMessage(msg, input) =>
      var rsp;
      rsp, call := HandleGetUpdates(store, cache, client, msg, input);
      answer := Updates(rsp);
    case CommitMessage(msg, env) =>
      var rsp := HandleCommit(store, cache, client, msg, env);
      answer, call := CommitResult(rsp), CommitCall(client, msg, env);
    case ClearMessage(now) =>
      HandleClearServerData(store, cache, client, now);
      answer, call := ClearDone, ClearCall(client, now);
  }
}
