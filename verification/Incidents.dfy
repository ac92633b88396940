/** Runs in which the server does what one would not expect, each from a server that has stored
    nothing. */
module Incidents {
  import opened Basics
  import opened SyncEntities
  import opened ItemCounts
  import opened Tables
  import opened Query
  import opened GetUpdates
  import opened Commit
  import opened Quota
  import opened Agreement
  import opened Server
  import opened Runs
  import opened Drain
  import Bootstrap
  import Replies

  // ---- commits of one entry ----

  /** An entity of some type with a tag, as a device commits it. */
  function Item(id: string, tag: string, dataType: int, version: int, deleted: bool): PbEntity {
    PbEntity(Some(id), None, Some(version), None, None, None, None, None, Some(tag), None, None,
             Some(deleted), Some(false), Some(Blob(dataType, [])), None)
  }

  /** One device committing one entry at one moment, without database errors. */
  function OneEntry(client: ClientId, pb: PbEntity, now: int, uuid: string): Call {
    CommitCall(client, CommitMsg([pb], Some("device")),
               CommitEnv(now, [Tick(now, uuid, false, false)], now, false, false))
  }

  lemma OneEntryRuns(cfg: Config, w: World, client: ClientId, pb: PbEntity, now: int, uuid: string)
    requires AtRest(w) && Addressable(pb) && !IsDisabled(w.db, client)
    ensures var call := OneEntry(client, pb, now, uuid);
            var after := Serve(cfg, w, call).world;
            var c := ContextOf(w, client, call.commit, call.env, cfg.backend);
            var st := CommitEntry(c, LoopStart(w, 0, 0), pb, call.env.ticks[0]);
            && AtRest(after) && Tracks(c, LoopStart(w, 0, 0))
            && after.db.rows == st.db.rows && after.db.tags == st.db.tags
            && after.db.counts
               == w.db.counts[client := Added(LoadedCounts(w.db, client, now / 1000), st.newNormal, st.newHistory)]
            && Serve(cfg, w, call).answer == CommitResult(CommitResponse(Ok, st.replies))
  {
    var call := OneEntry(client, pb, now, uuid);
    var c, st0 := ContextOf(w, client, call.commit, call.env, cfg.backend), LoopStart(w, 0, 0);
    CommitSaves(w, client, call.commit, call.env, cfg.backend);
    CommitMeaning(w, client, call.commit, call.env, cfg.backend);
    FinishMeaning(w, LoopEnd(w, client, call.commit, call.env, cfg.backend), client, call.env);
    assert CommitUpto(c, st0, [pb], call.env.ticks, 0) == st0;
    assert CommitUpto(c, st0, [pb], call.env.ticks, 1) == CommitEntry(c, st0, pb, call.env.ticks[0]);
  }

  /** The row a created item becomes. */
  function ItemRow(client: ClientId, tag: string, dataType: int, id: string, now: int, uuid: string): Entity
    requires !IsHistoryRelated(dataType)
  {
    var e := CreateDBSyncEntity(Item(id, tag, dataType, 0, false), Some("device"), client, now, uuid).value;
    e.(version := Some(now))
  }

  /** A create within the quota is counted, whether it is inserted or swallowed. */
  lemma CreateCounts(c: CommitContext, st: CommitState, id: string, tag: string, dataType: int, t: Tick)
    requires !IsHistoryRelated(dataType) && Tracks(c, st) && st.idMap == map[] && !t.writeFails
    requires c.cacheGuid == Some("device") && !OverTotalQuota(c, st)
    ensures var pb, e := Item(id, tag, dataType, 0, false), ItemRow(c.client, tag, dataType, id, t.now, t.uuid);
            var after := CommitEntry(c, st, pb, t);
            && Prepared(c, st, pb, t) == Some(e) && UsesTag(e) && Orderly(c, st, pb, t)
            && (c.backend.SQLite? || !InsertConflicts(st.db, e) ==>
                  && after.db == Inserted(st.db, e)
                  && after.newNormal == st.newNormal + 1 && after.newHistory == st.newHistory
                  && after.replies == st.replies + [Success(t.uuid, t.now, t.now)]
                  && (Swallowed(c, st, pb, t) <==> InsertConflicts(st.db, e)))
  {
    var pb := Item(id, tag, dataType, 0, false);
    EntryCounts(c, st, pb, t);
  }

  /** An accepted delete, and what it counts. */
  lemma DeleteCounts(c: CommitContext, st: CommitState, id: string, tag: string, dataType: int, base: int, t: Tick)
    requires !IsHistoryRelated(dataType) && Tracks(c, st) && st.idMap == map[] && !t.writeFails && base != 0
    requires c.cacheGuid == Some("device") && Key(c.client, id) in st.db.rows
    requires var row := st.db.rows[Key(c.client, id)];
             row.version == Some(base) && row.dataType == Some(dataType) && row.serverTag.None?
    ensures var pb := Item(id, tag, dataType, base, true);
            var e, after := Prepared(c, st, pb, t), CommitEntry(c, st, pb, t);
            && e.Some? && KeyOf(e.value) == Key(c.client, id) && Orderly(c, st, pb, t)
            && e.value.version == Some(t.now) && IsDeleted(e.value)
            && OwnTag(e.value) == {ClientTagKey(c.client, tag)}
            && after.db == Updated(st.db, e.value, base) && UpdateAccepted(st.db, e.value, base)
            && after.newHistory == st.newHistory
            && after.newNormal == st.newNormal - (if ReportsDelete(st.db, e.value, c.backend) then 1 else 0)
            && (Repeated(c, st, pb, t) <==> RepeatsDelete(st.db, e.value, c.backend))
  {
    EntryCounts(c, st, Item(id, tag, dataType, base, true), t);
  }

  /** The client's stored counts: so many items and no history, in the current format. */
  predicate Holds(db: DB, client: ClientId, items: int) {
    var c := StoredCounts(db, client);
    c.items == items && NoHistory(c) && (if client in db.counts then c.version == COUNT_VERSION else items == 0)
  }

  lemma LoadedHolds(db: DB, client: ClientId, items: int, nowSec: int)
    requires Holds(db, client, items)
    ensures var c := LoadedCounts(db, client, nowSec);
            c.items == items && NoHistory(c) && HistorySum(c) == 0 && c.version == COUNT_VERSION
  {
  }

  /** The swallowed conflicts and the repeated deletes of one commit. */
  function ErrorsOf(cfg: Config, w: World, call: Call): (nat, nat)
    requires call.CommitCall? && ValidCommit(call.commit, call.env)
  {
    var c, n := ContextOf(w, call.client, call.commit, call.env, cfg.backend), |call.commit.entries|;
    (SwallowedUpto(c, LoopStart(w, 0, 0), call.commit.entries, call.env.ticks, n),
     RepeatedUpto(c, LoopStart(w, 0, 0), call.commit.entries, call.env.ticks, n))
  }

  lemma OneEntryErrors(cfg: Config, w: World, client: ClientId, pb: PbEntity, now: int, uuid: string)
    requires Addressable(pb)
    ensures var call := OneEntry(client, pb, now, uuid);
            var c, st0 := ContextOf(w, client, call.commit, call.env, cfg.backend), LoopStart(w, 0, 0);
            && (OrderlyCall(cfg, w, call) <==> Orderly(c, st0, pb, call.env.ticks[0]))
            && ErrorsOf(cfg, w, call) == (if Swallowed(c, st0, pb, call.env.ticks[0]) then 1 else 0,
                                          if Repeated(c, st0, pb, call.env.ticks[0]) then 1 else 0)
  {
    var call := OneEntry(client, pb, now, uuid);
    var c, st0 := ContextOf(w, client, call.commit, call.env, cfg.backend), LoopStart(w, 0, 0);
    assert CommitUpto(c, st0, [pb], call.env.ticks, 0) == st0;
    assert SwallowedUpto(c, st0, [pb], call.env.ticks, 0) == 0 == RepeatedUpto(c, st0, [pb], call.env.ticks, 0);
    assert OrderlyUpto(c, st0, [pb], call.env.ticks, 0);
  }

  /** A create by a client with few items and no history, in the server's terms. */
  lemma CreateRuns(cfg: Config, w: World, client: ClientId, id: string, tag: string, dataType: int,
                   now: int, uuid: string, items: int)
    requires AtRest(w) && !IsDisabled(w.db, client) && Holds(w.db, client, items) && items < MAX_CLIENT_OBJECT_QUOTA
    requires !IsHistoryRelated(dataType)
    requires cfg.backend.SQLite? || !InsertConflicts(w.db, ItemRow(client, tag, dataType, id, now, uuid))
    ensures var call, e := OneEntry(client, Item(id, tag, dataType, 0, false), now, uuid),
                           ItemRow(client, tag, dataType, id, now, uuid);
            var after := Serve(cfg, w, call).world;
            && AtRest(after) && Holds(after.db, client, items + 1)
            && after.db.rows == Inserted(w.db, e).rows && after.db.tags == Inserted(w.db, e).tags
            && Serve(cfg, w, call).answer == CommitResult(CommitResponse(Ok, [Success(uuid, now, now)]))
            && OrderlyCall(cfg, w, call)
            && ErrorsOf(cfg, w, call) == (if InsertConflicts(w.db, e) then 1 else 0, 0)
  {
    var call := OneEntry(client, Item(id, tag, dataType, 0, false), now, uuid);
    var c, st0 := ContextOf(w, client, call.commit, call.env, cfg.backend), LoopStart(w, 0, 0);
    LoadedHolds(w.db, client, items, now / 1000);
    OneEntryRuns(cfg, w, client, Item(id, tag, dataType, 0, false), now, uuid);
    OneEntryErrors(cfg, w, client, Item(id, tag, dataType, 0, false), now, uuid);
    CreateCounts(c, st0, id, tag, dataType, call.env.ticks[0]);
  }

  predicate DeletedAs(row: Entity, row': Entity, now: int) {
    && IsDeleted(row') && row'.version == Some(now)
    && row'.dataType == row.dataType && row'.serverTag == row.serverTag
  }

  /** An accepted delete by such a client. */
  lemma DeleteRuns(cfg: Config, w: World, client: ClientId, id: string, tag: string, dataType: int, base: int,
                   now: int, uuid: string, items: int)
    requires AtRest(w) && !IsDisabled(w.db, client) && Holds(w.db, client, items)
    requires !IsHistoryRelated(dataType) && base != 0 && Key(client, id) in w.db.rows
    requires var row := w.db.rows[Key(client, id)];
             row.version == Some(base) && row.dataType == Some(dataType) && row.serverTag.None?
    ensures var call, row := OneEntry(client, Item(id, tag, dataType, base, true), now, uuid),
                             w.db.rows[Key(client, id)];
            var after := Serve(cfg, w, call).world;
            var again := IsDeleted(row);
            && AtRest(after) && Holds(after.db, client, items - (if again && cfg.backend.SQLite? then 0 else 1))
            && Key(client, id) in after.db.rows
            && after.db.rows == w.db.rows[Key(client, id) := after.db.rows[Key(client, id)]]
            && DeletedAs(row, after.db.rows[Key(client, id)], now)
            && OrderlyCall(cfg, w, call)
            && ErrorsOf(cfg, w, call) == (0, if again && cfg.backend.DynamoDB? then 1 else 0)
  {
    var call := OneEntry(client, Item(id, tag, dataType, base, true), now, uuid);
    var c, st0 := ContextOf(w, client, call.commit, call.env, cfg.backend), LoopStart(w, 0, 0);
    LoadedHolds(w.db, client, items, now / 1000);
    OneEntryRuns(cfg, w, client, Item(id, tag, dataType, base, true), now, uuid);
    OneEntryErrors(cfg, w, client, Item(id, tag, dataType, base, true), now, uuid);
    DeleteCounts(c, st0, id, tag, dataType, base, call.env.ticks[0]);
  }

  lemma SameWorlds(cfg: Config, calls: seq<Call>, all: seq<Call>, n: nat)
    requires AllWellFormed(all) && AllWellFormed(calls) && calls <= all && n <= |calls|
    ensures WorldAfter(cfg, FRESH_WORLD, all, n) == WorldAfter(cfg, FRESH_WORLD, calls, n)
  {
    for i := 0 to n
      invariant WorldAfter(cfg, FRESH_WORLD, all, i) == WorldAfter(cfg, FRESH_WORLD, calls, i)
    {
      assert all[i] == calls[i];
    }
  }

  lemma {:induction false} SameOrder(cfg: Config, calls: seq<Call>, all: seq<Call>, n: nat, client: ClientId)
    requires AllWellFormed(all) && AllWellFormed(calls) && calls <= all && n <= |calls|
    ensures OrderlyRunUpto(cfg, all, n, client) == OrderlyRunUpto(cfg, calls, n, client)
  {
    if n > 0 {
      SameWorlds(cfg, calls, all, n - 1);
      SameOrder(cfg, calls, all, n - 1, client);
    }
  }

  lemma {:induction false} SameErrors(cfg: Config, calls: seq<Call>, all: seq<Call>, n: nat, client: ClientId)
    requires AllWellFormed(all) && AllWellFormed(calls) && calls <= all && n <= |calls|
    ensures SwallowedIn(cfg, all, n, client) == SwallowedIn(cfg, calls, n, client)
    ensures RepeatedIn(cfg, all, n, client) == RepeatedIn(cfg, calls, n, client)
  {
    if n > 0 {
      SameWorlds(cfg, calls, all, n - 1);
      SameErrors(cfg, calls, all, n - 1, client);
    }
  }

  /** An orderly run from nothing stored, the world it ends in and the errors of its commits. */
  ghost predicate Reaches(cfg: Config, calls: seq<Call>, client: ClientId, w: World, swallowed: nat, repeated: nat) {
    && AllWellFormed(calls) && OrderlyRunUpto(cfg, calls, |calls|, client)
    && WorldAfter(cfg, FRESH_WORLD, calls, |calls|) == w
    && SwallowedIn(cfg, calls, |calls|, client) == swallowed && RepeatedIn(cfg, calls, |calls|, client) == repeated
  }

  /** A run and one more commit of the client. */
  lemma OneMoreCommit(cfg: Config, calls: seq<Call>, call: Call, client: ClientId, w: World,
                      swallowed: nat, repeated: nat)
    requires Reaches(cfg, calls, client, w, swallowed, repeated)
    requires call.CommitCall? && WellFormed(call) && call.client == client && ReachesLoop(call.commit, call.env)
    requires !IsDisabled(w.db, client) && OrderlyCall(cfg, w, call)
    ensures Reaches(cfg, calls + [call], client, Serve(cfg, w, call).world,
                    swallowed + ErrorsOf(cfg, w, call).0, repeated + ErrorsOf(cfg, w, call).1)
    ensures AnswerTo(cfg, FRESH_WORLD, calls + [call], |calls|) == Serve(cfg, w, call).answer
  {
    SameWorlds(cfg, calls, calls + [call], |calls|);
    SameOrder(cfg, calls, calls + [call], |calls|, client);
    SameErrors(cfg, calls, calls + [call], |calls|, client);
  }

  lemma AfterCreate(cfg: Config, client: ClientId, dataType: int, tag: string, id: string, uuid: string, now: int)
    returns (w: World)
    requires !IsHistoryRelated(dataType) && uuid != DISABLED_CHAIN_ID
    ensures var call, e := OneEntry(client, Item(id, tag, dataType, 0, false), now, uuid),
                           ItemRow(client, tag, dataType, id, now, uuid);
            && w == Serve(cfg, FRESH_WORLD, call).world && Reaches(cfg, [call], client, w, 0, 0)
            && AtRest(w) && Holds(w.db, client, 1) && w.db.rows == map[KeyOf(e) := e] && w.db.tags == OwnTag(e)
  {
    var call := OneEntry(client, Item(id, tag, dataType, 0, false), now, uuid);
    NothingStoredIsWithin(client);
    CreateRuns(cfg, FRESH_WORLD, client, id, tag, dataType, now, uuid, 0);
    OneMoreCommit(cfg, [], call, client, FRESH_WORLD, 0, 0);
    assert [] + [call] == [call];
    w := Serve(cfg, FRESH_WORLD, call).world;
  }

  lemma TagTaken(db: DB, e: Entity, e': Entity)
    requires db.tags == OwnTag(e) && UsesTag(e) && UsesTag(e')
    requires e.clientId == e'.clientId && e.clientTag == e'.clientTag
    ensures InsertConflicts(db, e')
  {
    assert ClientTagKey(e.clientId, e.clientTag.value) in OwnTag(e') * db.tags;
  }

  /** SQLite, two creates with one tag: the second is answered with success and counted, but its
      row is not stored. One row, a count of two, one swallowed conflict. */
  lemma SwallowedConflict(cfg: Config, client: ClientId, dataType: int, tag: string, id: string, id': string,
                          uuid: string, uuid': string, now: int, now': int) returns (w: World)
    requires cfg.backend.SQLite? && !IsHistoryRelated(dataType) && uuid != uuid'
    requires uuid != DISABLED_CHAIN_ID && uuid' != DISABLED_CHAIN_ID
    ensures var calls := [OneEntry(client, Item(id, tag, dataType, 0, false), now, uuid),
                          OneEntry(client, Item(id', tag, dataType, 0, false), now', uuid')];
            && Reaches(cfg, calls, client, w, 1, 0)
            && AnswerTo(cfg, FRESH_WORLD, calls, 1) == CommitResult(CommitResponse(Ok, [Success(uuid', now', now')]))
            && w.db.rows.Keys == {Key(client, uuid)} && StoredCounts(w.db, client).items == 2
  {
    var first, second := OneEntry(client, Item(id, tag, dataType, 0, false), now, uuid),
                         OneEntry(client, Item(id', tag, dataType, 0, false), now', uuid');
    var e' := ItemRow(client, tag, dataType, id', now', uuid');
    var w1 := AfterCreate(cfg, client, dataType, tag, id, uuid, now);
    TagTaken(w1.db, ItemRow(client, tag, dataType, id, now, uuid), e');
    CreateRuns(cfg, w1, client, id', tag, dataType, now', uuid', 1);
    OneMoreCommit(cfg, [first], second, client, w1, 0, 0);
    assert [first] + [second] == [first, second];
    w := Serve(cfg, w1, second).world;
  }

  /** A deleted item, in a run that has counted no error yet. */
  lemma AfterDelete(cfg: Config, client: ClientId, dataType: int, tag: string, id: string, uuid: string,
                    now: int, now': int) returns (w: World)
    requires !IsHistoryRelated(dataType) && uuid != DISABLED_CHAIN_ID && now != 0
    ensures var calls := [OneEntry(client, Item(id, tag, dataType, 0, false), now, uuid),
                          OneEntry(client, Item(uuid, tag, dataType, now, true), now', "")];
            && Reaches(cfg, calls, client, w, 0, 0)
            && AtRest(w) && Holds(w.db, client, 0) && w.db.rows.Keys == {Key(client, uuid)}
    ensures DeletedAs(ItemRow(client, tag, dataType, id, now, uuid), w.db.rows[Key(client, uuid)], now')
  {
    var first, second := OneEntry(client, Item(id, tag, dataType, 0, false), now, uuid),
                         OneEntry(client, Item(uuid, tag, dataType, now, true), now', "");
    var w1 := AfterCreate(cfg, client, dataType, tag, id, uuid, now);
    DeleteRuns(cfg, w1, client, uuid, tag, dataType, now, now', "", 1);
    OneMoreCommit(cfg, [first], second, client, w1, 0, 0);
    assert [first] + [second] == [first, second];
    w := Serve(cfg, w1, second).world;
  }

  /** DynamoDB, a tagged row deleted twice: the second delete is reported, and counted, again. No
      live row, a count of minus one, one repeated delete. */
  lemma RepeatedDelete(cfg: Config, client: ClientId, dataType: int, tag: string, id: string, uuid: string,
                       now: int, now': int, now'': int) returns (w: World)
    requires cfg.backend.DynamoDB? && !IsHistoryRelated(dataType) && uuid != DISABLED_CHAIN_ID
    requires now != 0 && now' != 0
    ensures var calls := [OneEntry(client, Item(id, tag, dataType, 0, false), now, uuid),
                          OneEntry(client, Item(uuid, tag, dataType, now, true), now', ""),
                          OneEntry(client, Item(uuid, tag, dataType, now', true), now'', "")];
            && Reaches(cfg, calls, client, w, 0, 1)
            && CountableKeys(w.db, client) == {} && StoredCounts(w.db, client).items == -1
  {
    var first, second, third := OneEntry(client, Item(id, tag, dataType, 0, false), now, uuid),
                                OneEntry(client, Item(uuid, tag, dataType, now, true), now', ""),
                                OneEntry(client, Item(uuid, tag, dataType, now', true), now'', "");
    var w2 := AfterDelete(cfg, client, dataType, tag, id, uuid, now, now');
    DeleteRuns(cfg, w2, client, uuid, tag, dataType, now', now'', "", 0);
    OneMoreCommit(cfg, [first, second], third, client, w2, 0, 0);
    assert [first, second] + [third] == [first, second, third];
    w := Serve(cfg, w2, third).world;
  }

  // ---- a server tag of the client's own ----

  lemma NeitherNoneNorAll(db: DB, client: ClientId, k: Key, tag: string, serverTag: string)
    requires Bootstrap.HasServerTag(db, k, client, serverTag) && Bootstrap.IsServerTag(serverTag)
    requires db.tags == {ClientTagKey(client, tag)}
    ensures !Bootstrap.AllOrNone(db, client)
  {
    TagKeysDiffer(client, tag, client, Bootstrap.NIGORI_TAG);
    assert Bootstrap.IsServerTag(Bootstrap.NIGORI_TAG);
  }

  lemma ForgedEntity(c: CommitContext, st: CommitState, pb: PbEntity, t: Tick)
    requires Tracks(c, st) && st.db == EMPTY_DB && st.idMap == map[] && !t.writeFails && !OverTotalQuota(c, st)
    requires c.cacheGuid == Some("device") && pb.clientTagHash.Some? && pb.serverTag.Some?
    requires ValidPbEntity(pb) && pb.version == Some(0) && !IsHistoryRelated(pb.specifics.value.variant)
    ensures var after, k := CommitEntry(c, st, pb, t).db, Key(c.client, t.uuid);
            && k in after.rows && after.rows[k].serverTag == pb.serverTag
            && after.tags == {ClientTagKey(c.client, pb.clientTagHash.value)}
  {
    EntryCounts(c, st, pb, t);
    var e := Prepared(c, st, pb, t).value;
    assert CommitEntry(c, st, pb, t).db == Inserted(EMPTY_DB, e) && UsesTag(e);
  }

  /** A commit of an entity with one of the five server tags leaves the client with a row of that tag
      and no bootstrap: neither none of the five nor all. */
  lemma ForgedServerTag(cfg: Config, client: ClientId, dataType: int, tag: string, serverTag: string, now: int,
                        uuid: string)
    requires !IsHistoryRelated(dataType) && Bootstrap.IsServerTag(serverTag)
    ensures var pb := Item("item", tag, dataType, 0, false).(serverTag := Some(serverTag));
            var w := Serve(cfg, FRESH_WORLD, OneEntry(client, pb, now, uuid)).world;
            Bootstrap.HasServerTag(w.db, Key(client, uuid), client, serverTag) && !Bootstrap.AllOrNone(w.db, client)
  {
    var pb := Item("item", tag, dataType, 0, false).(serverTag := Some(serverTag));
    var call := OneEntry(client, pb, now, uuid);
    var c, st0 := ContextOf(FRESH_WORLD, client, call.commit, call.env, cfg.backend), LoopStart(FRESH_WORLD, 0, 0);
    NothingStoredIsWithin(client);
    OneEntryRuns(cfg, FRESH_WORLD, client, pb, now, uuid);
    LoadedHolds(EMPTY_DB, client, 0, now / 1000);
    ForgedEntity(c, st0, pb, call.env.ticks[0]);
    NeitherNoneNorAll(Serve(cfg, FRESH_WORLD, call).world.db, client, Key(client, uuid), tag, serverTag);
  }

  // ---- rows a client cannot page to ----

  /** An untagged entity of some type, as a device creates it. */
  function Plain(dataType: int): (pb: PbEntity)
    requires dataType != HISTORY_TYPE_ID
    ensures Addressable(pb)
  {
    PbEntity(Some("item"), None, Some(0), None, None, None, None, None, None, None, None,
             Some(false), Some(false), Some(Blob(dataType, [])), None)
  }

  function Uuid(i: nat): (id: string)
    ensures |id| == i + 1 && id[0] == 'u'
  {
    seq(i + 1, _ => 'u')
  }

  /** What a device commits: so many entities of one type, then entities of another. */
  datatype Load = Load(client: ClientId, a: int, b: int, fill: nat, n: nat, now: int)

  predicate ValidLoad(l: Load) {
    && l.a != l.b && l.fill <= l.n < MAX_CLIENT_OBJECT_QUOTA && l.n > 0
    && !IsHistoryRelated(l.a) && !IsHistoryRelated(l.b)
  }

  function TypeAt(l: Load, i: nat): int {
    if i < l.fill then l.a else l.b
  }

  function LoadEntries(l: Load): (es: seq<PbEntity>)
    requires ValidLoad(l)
    ensures |es| == l.n && forall i :: 0 <= i < l.n ==> es[i] == Plain(TypeAt(l, i))
  {
    seq(l.n, i requires 0 <= i < l.n => Plain(TypeAt(l, i)))
  }

  /** All in one millisecond, under ids of different lengths. */
  function LoadTicks(l: Load): (ts: seq<Tick>)
    ensures |ts| == l.n && forall i :: 0 <= i < l.n ==> ts[i] == Tick(l.now, Uuid(i), false, false)
  {
    seq(l.n, i requires 0 <= i < l.n => Tick(l.now, Uuid(i), false, false))
  }

  function LoadCall(l: Load): (call: Call)
    requires ValidLoad(l)
    ensures WellFormed(call)
  {
    CommitCall(l.client, CommitMsg(LoadEntries(l), Some("device")),
               CommitEnv(l.now, LoadTicks(l), l.now, false, false))
  }

  /** The row that entity i becomes. */
  function LoadRow(l: Load, i: nat): (e: Entity)
    requires ValidLoad(l)
    ensures KeyOf(e) == Key(l.client, Uuid(i)) && e.dataType == Some(TypeAt(l, i)) && e.mtime == Some(l.now)
    ensures !UsesTag(e) && e.expirationTime.None? && e.folder == Some(false) && e.deleted == Some(false)
  {
    CreateDBSyncEntity(Plain(TypeAt(l, i)), Some("device"), l.client, l.now, Uuid(i)).value.(version := Some(l.now))
  }

  function LoadRows(l: Load, n: nat): map<Key, Entity>
    requires ValidLoad(l)
  {
    if n == 0 then map[] else LoadRows(l, n - 1)[Key(l.client, Uuid(n - 1)) := LoadRow(l, n - 1)]
  }

  lemma {:induction false} LoadKeys(l: Load, n: nat)
    requires ValidLoad(l)
    ensures forall k :: k in LoadRows(l, n) ==> k.client == l.client && 1 <= |k.id| <= n && k.id[0] == 'u'
    ensures forall k :: k in LoadRows(l, n) ==> KeyOf(LoadRows(l, n)[k]) == k
  {
    if n > 0 { LoadKeys(l, n - 1); }
  }

  lemma LoadOutcome(c: CommitContext, st: CommitState, l: Load, i: nat)
    requires ValidLoad(l) && c.client == l.client && c.cacheGuid == Some("device") && !OverTotalQuota(c, st)
    requires Key(l.client, Uuid(i)) !in st.db.rows
    ensures var pb, t := Plain(TypeAt(l, i)), Tick(l.now, Uuid(i), false, false);
            && Prepared(c, st, pb, t) == Some(LoadRow(l, i)) && KindOf(LoadRow(l, i)).Normal?
            && OutcomeOf(c, st, LoadRow(l, i), pb.version.value, t) == Applied(Inserted(st.db, LoadRow(l, i)), 1, true)
            && Inserted(st.db, LoadRow(l, i)).rows == st.db.rows[Key(l.client, Uuid(i)) := LoadRow(l, i)]
  {
  }

  /** One entity of the load: it is stored, and counted. */
  lemma LoadOne(c: CommitContext, st: CommitState, l: Load, i: nat)
    requires ValidLoad(l) && Tracks(c, st)
    requires c.client == l.client && c.cacheGuid == Some("device") && !OverTotalQuota(c, st)
    requires Key(l.client, Uuid(i)) !in st.db.rows
    ensures var after := CommitEntry(c, st, Plain(TypeAt(l, i)), Tick(l.now, Uuid(i), false, false));
            && after.db.rows == st.db.rows[Key(l.client, Uuid(i)) := LoadRow(l, i)]
            && after.newNormal == st.newNormal + 1 && after.newHistory == st.newHistory
  {
    LoadOutcome(c, st, l, i);
    EntryCounts(c, st, Plain(TypeAt(l, i)), Tick(l.now, Uuid(i), false, false));
  }

  /** The loop has stored and counted the first n entities. */
  predicate HoldsLoad(l: Load, st: CommitState, n: nat)
    requires ValidLoad(l)
  {
    st.db.rows == LoadRows(l, n) && st.newNormal == n && st.newHistory == 0
  }

  lemma OneMoreLoaded(c: CommitContext, st: CommitState, l: Load, n: nat)
    requires ValidLoad(l) && n < l.n && Tracks(c, st) && HoldsLoad(l, st, n)
    requires c.client == l.client && c.cacheGuid == Some("device") && c.items == 0 == c.history
    ensures HoldsLoad(l, CommitEntry(c, st, Plain(TypeAt(l, n)), Tick(l.now, Uuid(n), false, false)), n + 1)
  {
    LoadKeys(l, n);
    assert Key(l.client, Uuid(n)) !in st.db.rows;
    LoadOne(c, st, l, n);
  }

  lemma LoadStores(c: CommitContext, st0: CommitState, l: Load, n: nat)
    requires ValidLoad(l) && n <= l.n && Tracks(c, st0) && HoldsLoad(l, st0, 0)
    requires c.client == l.client && c.cacheGuid == Some("device") && c.items == 0 == c.history
    ensures HoldsLoad(l, CommitUpto(c, st0, LoadEntries(l), LoadTicks(l), n), n)
  {
    var es, ts := LoadEntries(l), LoadTicks(l);
    for k := 0 to n
      invariant HoldsLoad(l, CommitUpto(c, st0, es, ts, k), k)
    {
      LoopCounts(c, st0, es, ts, k);
      OneMoreLoaded(c, CommitUpto(c, st0, es, ts, k), l, k);
    }
  }

  /** The rows a server that has stored nothing holds after the commit. */
  lemma LoadedRows(cfg: Config, l: Load)
    requires ValidLoad(l)
    ensures Serve(cfg, FRESH_WORLD, LoadCall(l)).world.db.rows == LoadRows(l, l.n)
  {
    var call := LoadCall(l);
    NothingStoredIsWithin(l.client);
    CommitSaves(FRESH_WORLD, l.client, call.commit, call.env, cfg.backend);
    LoadStores(ContextOf(FRESH_WORLD, l.client, call.commit, call.env, cfg.backend), LoopStart(FRESH_WORLD, 0, 0), l,
               l.n);
  }

  // ---- what is pending of them ----

  lemma PendingOfNewRow(rows: map<Key, Entity>, e: Entity, f: Filter)
    requires KeyOf(e) !in rows
    ensures PendingRows(rows[KeyOf(e) := e], f) == PendingRows(rows, f) + (if Visible(e, f) then {e} else {})
  {
    var after := rows[KeyOf(e) := e];
    forall x | x in PendingRows(rows, f) ensures x in PendingRows(after, f) {
      var k :| k in rows && Visible(rows[k], f) && rows[k] == x;
      assert k in after && after[k] == x;
    }
    assert after[KeyOf(e)] == e;
  }

  lemma LoadPendingStep(l: Load, n: nat, f: Filter)
    requires ValidLoad(l) && f.client == l.client && f.token < l.now
    ensures PendingRows(LoadRows(l, n + 1), f)
            == PendingRows(LoadRows(l, n), f) + (if f.dataType == TypeAt(l, n) then {LoadRow(l, n)} else {})
    ensures LoadRow(l, n) !in PendingRows(LoadRows(l, n), f)
  {
    LoadKeys(l, n);
    PendingOfNewRow(LoadRows(l, n), LoadRow(l, n), f);
    assert Visible(LoadRow(l, n), f) <==> f.dataType == TypeAt(l, n);
  }

  lemma LoadPendingSize(l: Load, n: nat, f: Filter)
    requires ValidLoad(l) && f.client == l.client && f.token < l.now
    ensures |PendingRows(LoadRows(l, n + 1), f)|
            == |PendingRows(LoadRows(l, n), f)| + (if f.dataType == TypeAt(l, n) then 1 else 0)
  {
    LoadPendingStep(l, n, f);
  }

  lemma LoadPendingFirst(l: Load, n: nat, f: Filter)
    requires ValidLoad(l) && f.client == l.client && f.token < l.now && f.dataType == l.a
    ensures |PendingRows(LoadRows(l, n), f)| == Min(n, l.fill)
  {
    assert PendingRows(LoadRows(l, 0), f) == {};
    for k := 0 to n
      invariant |PendingRows(LoadRows(l, k), f)| == Min(k, l.fill)
    {
      LoadPendingSize(l, k, f);
    }
  }

  lemma {:induction false} LoadPendingNone(l: Load, n: nat, f: Filter)
    requires ValidLoad(l) && f.client == l.client && f.token < l.now && f.dataType == l.b && n <= l.fill
    ensures PendingRows(LoadRows(l, n), f) == {}
  {
    if n > 0 {
      LoadPendingNone(l, n - 1, f);
      LoadPendingStep(l, n - 1, f);
    }
  }

  lemma LoadPendingSecond(l: Load, f: Filter)
    requires ValidLoad(l) && f.client == l.client && f.token < l.now && f.dataType == l.b
    ensures PendingRows(LoadRows(l, l.fill + 2), f) == {LoadRow(l, l.fill), LoadRow(l, l.fill + 1)}
  {
    LoadPendingNone(l, l.fill, f);
    LoadPendingStep(l, l.fill, f);
    LoadPendingStep(l, l.fill + 1, f);
  }

  lemma LoadRowsDiffer(l: Load, i: nat, j: nat)
    requires ValidLoad(l) && i != j
    ensures LoadRow(l, i) != LoadRow(l, j)
  {
    assert |Uuid(i)| != |Uuid(j)|;
  }

  /** With two entities of the second type, both are pending for it, with one mtime. */
  lemma LoadPools(l: Load, cl: Client, token: int, nowSec: int)
    requires ValidLoad(l) && l.n == l.fill + 2 && token < l.now
    requires cl.id == l.client && cl.types == [l.a, l.b]
    ensures var ps := Pools(LoadRows(l, l.n), cl, [token, token], nowSec);
            && |ps[0]| == l.fill && ps[1] == {LoadRow(l, l.fill), LoadRow(l, l.fill + 1)}
            && LoadRow(l, l.fill) != LoadRow(l, l.fill + 1)
  {
    var fa, fb := PoolFilter(cl, [token, token], nowSec, 0), PoolFilter(cl, [token, token], nowSec, 1);
    LoadPendingFirst(l, l.n, fa);
    LoadPendingSecond(l, fb);
    LoadRowsDiffer(l, l.fill, l.fill + 1);
  }

  /** One commit of 499 entities of one type and two of another, in one millisecond. A client can
      then page from before it, for any number of requests, and receives one of the two and never
      the other. */
  lemma TieLosesCommittedRow(cfg: Config, cl: Client, a: int, b: int, now: int, token: int, nowSec: int, rounds: nat)
    returns (s: Session)
    requires a != b && !IsHistoryRelated(a) && !IsHistoryRelated(b) && cl.types == [a, b] && token < now && rounds > 0
    requires !cl.origin.NewClient?
    ensures var l := Load(cl.id, a, b, MAX_GU_BATCH_SIZE - 1, MAX_GU_BATCH_SIZE + 1, now);
            var rows := Serve(cfg, FRESH_WORLD, LoadCall(l)).world.db.rows;
            && GoodSession(rows, cl, nowSec, s) && |s.rounds| == rounds && s.tokens[0] == [token, token]
            && (LoadRow(l, l.fill) in Received(s, 1, rounds) <==> LoadRow(l, l.fill + 1) !in Received(s, 1, rounds))
  {
    var l := Load(cl.id, a, b, MAX_GU_BATCH_SIZE - 1, MAX_GU_BATCH_SIZE + 1, now);
    LoadedRows(cfg, l);
    LoadPools(l, cl, token, nowSec);
    s := SessionExists(LoadRows(l, l.n), cl, [token, token], nowSec, rounds);
    TieLosesRow(LoadRows(l, l.n), cl, nowSec, s, LoadRow(l, l.fill), LoadRow(l, l.fill + 1));
  }

  lemma TwoPools(ps: seq<Pool>)
    requires |ps| == 2
    ensures Amount(ps, 1) == |ps[0]| && Total(ps) == |ps[0]| + |ps[1]|
  {
    assert Amount(ps, 0) == 0;
    assert Amount(ps, 1) == Amount(ps, 0) + |ps[0]|;
  }

  /** The same commit with 500 entities of the first type: there is a request for both types that is
      told that nothing remains, while both rows of the second are pending. */
  lemma FullResponseHidesCommittedRows(cfg: Config, cl: Client, a: int, b: int, now: int, token: int, nowSec: int)
    returns (r: Round, next: seq<int>)
    requires a != b && !IsHistoryRelated(a) && !IsHistoryRelated(b) && cl.types == [a, b] && token < now
    requires !cl.origin.NewClient?
    ensures var l := Load(cl.id, a, b, MAX_GU_BATCH_SIZE, MAX_GU_BATCH_SIZE + 2, now);
            var rows := Serve(cfg, FRESH_WORLD, LoadCall(l)).world.db.rows;
            && GoodRound(rows, cl, [token, token], nowSec, r) && FeedsBack(cl, [token, token], r, next)
            && ResponseOf(cl, [token, token], r).changesRemaining == 0
            && !AllEmpty(Pools(rows, cl, next, nowSec))
  {
    var l := Load(cl.id, a, b, MAX_GU_BATCH_SIZE, MAX_GU_BATCH_SIZE + 2, now);
    var rows := LoadRows(l, l.n);
    LoadedRows(cfg, l);
    LoadPools(l, cl, token, nowSec);
    var ps := Pools(rows, cl, [token, token], nowSec);
    TwoPools(ps);
    assert FillsAt(ps, 1) && FillsExactly(ps);
    r, next := RoundExists(rows, cl, [token, token], nowSec);
    FullResponseHidesPending(rows, cl, [token, token], nowSec, r, next);
  }

  // ---- history beyond its quota ----

  function HistoryTag(i: nat): (tag: string)
    ensures |tag| == i + 1 && tag[0] == 'h'
  {
    seq(i + 1, _ => 'h')
  }

  function HistoryKey(client: ClientId, i: nat): (k: Key)
    ensures k.id != DISABLED_CHAIN_ID
  {
    assert DISABLED_CHAIN_ID[0] == 'd';
    Key(client, HistoryTag(i))
  }

  /** History entity number i, committed or deleted by a device. */
  function HistoryItem(i: nat, deleted: bool): (pb: PbEntity)
    ensures Addressable(pb)
  {
    PbEntity(Some(""), None, Some(0), None, None, None, None, None, Some(HistoryTag(i)), None, None,
             Some(deleted), Some(false), Some(Blob(HISTORY_TYPE_ID, [])), None)
  }

  function HistoryItems(first: nat, n: nat, deleted: bool): (es: seq<PbEntity>)
    ensures |es| == n && AllAddressable(es)
    ensures forall i :: 0 <= i < n ==> es[i] == HistoryItem(first + i, deleted)
  {
    var es := seq(n, i requires 0 <= i < n => HistoryItem(first + i, deleted));
    assert forall i :: 0 <= i < n ==> es[i] == HistoryItem(first + i, deleted);
    es
  }

  function SameTicks(n: nat, now: int): (ts: seq<Tick>)
    ensures |ts| == n && forall i :: 0 <= i < n ==> ts[i] == Tick(now, "", false, false)
  {
    seq(n, _ => Tick(now, "", false, false))
  }

  datatype RowState = Absent | Dead | Alive

  function HistoryState(db: DB, client: ClientId, i: nat): RowState {
    var k := HistoryKey(client, i);
    if k !in db.rows then Absent else if IsDeleted(db.rows[k]) then Dead else Alive
  }

  /** Item i is now in the given state; all other items, and the disabled marker, are as before. */
  ghost predicate OnlyChanges(client: ClientId, db: DB, after: DB, i: nat, to: RowState) {
    && HistoryState(after, client, i) == to
    && (forall j: nat :: j != i ==> HistoryState(after, client, j) == HistoryState(db, client, j))
    && (IsDisabled(after, client) <==> IsDisabled(db, client))
  }

  lemma RowChanges(client: ClientId, db: DB, after: DB, i: nat)
    requires HistoryKey(client, i) in after.rows
    requires after.rows == db.rows[HistoryKey(client, i) := after.rows[HistoryKey(client, i)]]
    ensures OnlyChanges(client, db, after, i, HistoryState(after, client, i))
  {
    forall j: nat | j != i ensures HistoryState(after, client, j) == HistoryState(db, client, j) {
      assert |HistoryTag(j)| != |HistoryTag(i)|;
    }
  }

  lemma HistoryPrepared(c: CommitContext, st: CommitState, i: nat, deleted: bool, t: Tick)
    ensures var e := Prepared(c, st, HistoryItem(i, deleted), t);
            && e.Some? && KeyOf(e.value) == HistoryKey(c.client, i) && IsHistoryType(e.value)
            && e.value.deleted == Some(deleted) && !UsesTag(e.value) && KindOf(e.value).History?
  {
  }

  /** What n items count that go to the given state. */
  function Steps(to: RowState, n: nat): int {
    if to.Alive? then n else 0 - n
  }

  /** One entry: item i goes to the given state and is counted. */
  ghost predicate Stepped(c: CommitContext, st: CommitState, after: CommitState, i: nat, to: RowState) {
    && after.newHistory == st.newHistory + Steps(to, 1) && after.newNormal == st.newNormal
    && OnlyChanges(c.client, st.db, after.db, i, to)
  }

  lemma HistoryCreate(c: CommitContext, st: CommitState, i: nat, t: Tick)
    requires Tracks(c, st) && !t.hasItemFails && !t.writeFails && HistoryState(st.db, c.client, i).Absent?
    requires !OverTotalQuota(c, st) && WithinHistoryQuota(c, st)
    ensures Stepped(c, st, CommitEntry(c, st, HistoryItem(i, false), t), i, Alive)
  {
    var after := CommitEntry(c, st, HistoryItem(i, false), t);
    EntryCounts(c, st, HistoryItem(i, false), t);
    HistoryPrepared(c, st, i, false, t);
    var e := Prepared(c, st, HistoryItem(i, false), t).value;
    assert after.db == Inserted(st.db, e) && !InsertConflicts(st.db, e);
    RowChanges(c.client, st.db, after.db, i);
  }

  lemma HistoryDelete(c: CommitContext, st: CommitState, i: nat, t: Tick)
    requires Tracks(c, st) && !t.hasItemFails && !t.writeFails && HistoryState(st.db, c.client, i).Alive?
    ensures Stepped(c, st, CommitEntry(c, st, HistoryItem(i, true), t), i, Dead)
  {
    var after := CommitEntry(c, st, HistoryItem(i, true), t);
    EntryCounts(c, st, HistoryItem(i, true), t);
    HistoryPrepared(c, st, i, true, t);
    var e := Prepared(c, st, HistoryItem(i, true), t).value;
    assert after.db == Updated(st.db, e, 0) && UpdateAccepted(st.db, e, 0);
    RowChanges(c.client, st.db, after.db, i);
  }

  /** Items first to first + n have gone from one state to another, one count each. */
  ghost predicate Moved(c: CommitContext, st0: CommitState, st: CommitState, first: nat, n: nat, to: RowState) {
    && st.newHistory == st0.newHistory + Steps(to, n) && st.newNormal == st0.newNormal
    && (forall j: nat :: first <= j < first + n ==> HistoryState(st.db, c.client, j) == to)
    && (forall j: nat :: !(first <= j < first + n) ==>
          HistoryState(st.db, c.client, j) == HistoryState(st0.db, c.client, j))
    && (IsDisabled(st.db, c.client) <==> IsDisabled(st0.db, c.client))
  }

  lemma OneMoreMoved(c: CommitContext, st0: CommitState, st: CommitState, after: CommitState, first: nat, k: nat,
                     to: RowState)
    requires Moved(c, st0, st, first, k, to) && Stepped(c, st, after, first + k, to)
    ensures Moved(c, st0, after, first, k + 1, to)
  {
  }

  lemma MayCreate(c: CommitContext, st0: CommitState, st: CommitState, first: nat, k: nat)
    requires Moved(c, st0, st, first, k, Alive) && HistoryState(st0.db, c.client, first + k).Absent?
    requires c.history + st0.newHistory + k < MAX_CLIENT_HISTORY_OBJECT_QUOTA
    requires c.items + c.history + st0.newNormal + st0.newHistory + k < MAX_CLIENT_OBJECT_QUOTA
    ensures HistoryState(st.db, c.client, first + k).Absent? && !OverTotalQuota(c, st) && WithinHistoryQuota(c, st)
  {
  }

  lemma OneMoreCreate(c: CommitContext, st0: CommitState, st: CommitState, first: nat, k: nat, t: Tick)
    requires Tracks(c, st) && Moved(c, st0, st, first, k, Alive) && !t.hasItemFails && !t.writeFails
    requires HistoryState(st.db, c.client, first + k).Absent? && !OverTotalQuota(c, st) && WithinHistoryQuota(c, st)
    ensures Moved(c, st0, CommitEntry(c, st, HistoryItem(first + k, false), t), first, k + 1, Alive)
  {
    HistoryCreate(c, st, first + k, t);
    OneMoreMoved(c, st0, st, CommitEntry(c, st, HistoryItem(first + k, false), t), first, k, Alive);
  }

  lemma OneMoreDelete(c: CommitContext, st0: CommitState, st: CommitState, first: nat, k: nat, t: Tick)
    requires Tracks(c, st) && Moved(c, st0, st, first, k, Dead) && !t.hasItemFails && !t.writeFails
    requires HistoryState(st0.db, c.client, first + k).Alive?
    ensures Moved(c, st0, CommitEntry(c, st, HistoryItem(first + k, true), t), first, k + 1, Dead)
  {
    HistoryDelete(c, st, first + k, t);
    OneMoreMoved(c, st0, st, CommitEntry(c, st, HistoryItem(first + k, true), t), first, k, Dead);
  }

  /** Every entry of the commit moves its item. */
  ghost predicate EachMoves(c: CommitContext, st0: CommitState, es: seq<PbEntity>, ts: seq<Tick>, first: nat,
                            to: RowState)
    requires |es| == |ts| && AllAddressable(es)
  {
    forall k: nat, st :: k < |es| && Tracks(c, st) && Moved(c, st0, st, first, k, to) ==>
      Moved(c, st0, CommitEntry(c, st, es[k], ts[k]), first, k + 1, to)
  }

  lemma MovesOn(c: CommitContext, st0: CommitState, es: seq<PbEntity>, ts: seq<Tick>, first: nat, to: RowState,
                st: CommitState, k: nat)
    requires |es| == |ts| && AllAddressable(es) && k < |es| && EachMoves(c, st0, es, ts, first, to)
    requires Tracks(c, st) && Moved(c, st0, st, first, k, to)
    ensures Moved(c, st0, CommitEntry(c, st, es[k], ts[k]), first, k + 1, to)
  {
  }

  lemma LoopMoves(c: CommitContext, st0: CommitState, es: seq<PbEntity>, ts: seq<Tick>, first: nat, to: RowState,
                  k: nat)
    requires |es| == |ts| && AllAddressable(es) && k <= |es| && Tracks(c, st0)
    requires EachMoves(c, st0, es, ts, first, to)
    ensures Moved(c, st0, CommitUpto(c, st0, es, ts, k), first, k, to)
  {
    for j := 0 to k
      invariant Moved(c, st0, CommitUpto(c, st0, es, ts, j), first, j, to)
    {
      LoopCounts(c, st0, es, ts, j);
      MovesOn(c, st0, es, ts, first, to, CommitUpto(c, st0, es, ts, j), j);
    }
  }

  lemma EachCreateMoves(c: CommitContext, st0: CommitState, first: nat, n: nat, now: int)
    requires Tracks(c, st0)
    requires forall j: nat :: first <= j < first + n ==> HistoryState(st0.db, c.client, j).Absent?
    requires c.history + st0.newHistory + n <= MAX_CLIENT_HISTORY_OBJECT_QUOTA
    requires c.items + c.history + st0.newNormal + st0.newHistory + n <= MAX_CLIENT_OBJECT_QUOTA
    ensures EachMoves(c, st0, HistoryItems(first, n, false), SameTicks(n, now), first, Alive)
  {
    var es, ts := HistoryItems(first, n, false), SameTicks(n, now);
    forall k: nat, st | k < n && Tracks(c, st) && Moved(c, st0, st, first, k, Alive)
      ensures Moved(c, st0, CommitEntry(c, st, es[k], ts[k]), first, k + 1, Alive)
    {
      MayCreate(c, st0, st, first, k);
      OneMoreCreate(c, st0, st, first, k, ts[k]);
    }
  }

  /** Creates of n new history items within both quotas. */
  lemma HistoryCreates(c: CommitContext, st0: CommitState, first: nat, n: nat, now: int)
    requires Tracks(c, st0)
    requires forall j: nat :: first <= j < first + n ==> HistoryState(st0.db, c.client, j).Absent?
    requires c.history + st0.newHistory + n <= MAX_CLIENT_HISTORY_OBJECT_QUOTA
    requires c.items + c.history + st0.newNormal + st0.newHistory + n <= MAX_CLIENT_OBJECT_QUOTA
    ensures Moved(c, st0, CommitUpto(c, st0, HistoryItems(first, n, false), SameTicks(n, now), n), first, n, Alive)
  {
    EachCreateMoves(c, st0, first, n, now);
    LoopMoves(c, st0, HistoryItems(first, n, false), SameTicks(n, now), first, Alive, n);
  }

  lemma EachDeleteMoves(c: CommitContext, st0: CommitState, first: nat, n: nat, now: int)
    requires Tracks(c, st0)
    requires forall j: nat :: first <= j < first + n ==> HistoryState(st0.db, c.client, j).Alive?
    ensures EachMoves(c, st0, HistoryItems(first, n, true), SameTicks(n, now), first, Dead)
  {
    var es, ts := HistoryItems(first, n, true), SameTicks(n, now);
    forall k: nat, st | k < n && Tracks(c, st) && Moved(c, st0, st, first, k, Dead)
      ensures Moved(c, st0, CommitEntry(c, st, es[k], ts[k]), first, k + 1, Dead)
    {
      OneMoreDelete(c, st0, st, first, k, ts[k]);
    }
  }

  /** Deletes of n live ones. */
  lemma HistoryDeletes(c: CommitContext, st0: CommitState, first: nat, n: nat, now: int)
    requires Tracks(c, st0)
    requires forall j: nat :: first <= j < first + n ==> HistoryState(st0.db, c.client, j).Alive?
    ensures Moved(c, st0, CommitUpto(c, st0, HistoryItems(first, n, true), SameTicks(n, now), n), first, n, Dead)
  {
    EachDeleteMoves(c, st0, first, n, now);
    LoopMoves(c, st0, HistoryItems(first, n, true), SameTicks(n, now), first, Dead, n);
  }

  /** The commit of n history items at some second. */
  function HistoryCall(client: ClientId, first: nat, n: nat, deleted: bool, sec: int): Call {
    CommitCall(client, CommitMsg(HistoryItems(first, n, deleted), None),
               CommitEnv(sec * 1000, SameTicks(n, sec * 1000), sec * 1000, false, false))
  }

  /** The loop of such a commit moves its items. */
  ghost predicate LoopEndMoved(cfg: Config, w: World, client: ClientId, first: nat, n: nat, deleted: bool, sec: int,
                               to: RowState)
  {
    var call := HistoryCall(client, first, n, deleted, sec);
    Moved(ContextOf(w, client, call.commit, call.env, cfg.backend), LoopStart(w, 0, 0),
          LoopEnd(w, client, call.commit, call.env, cfg.backend), first, n, to)
  }

  lemma SameStates(a: DB, b: DB, client: ClientId)
    requires a.rows == b.rows
    ensures forall j: nat :: HistoryState(a, client, j) == HistoryState(b, client, j)
    ensures IsDisabled(a, client) == IsDisabled(b, client)
  {
  }

  lemma HistoryCommitRows(cfg: Config, w: World, client: ClientId, first: nat, n: nat, deleted: bool, sec: int,
                          to: RowState)
    requires AtRest(w) && !IsDisabled(w.db, client) && n > 0
    requires LoopEndMoved(cfg, w, client, first, n, deleted, sec, to)
    ensures var after := Serve(cfg, w, HistoryCall(client, first, n, deleted, sec)).world;
            && !IsDisabled(after.db, client)
            && (forall j: nat :: first <= j < first + n ==> HistoryState(after.db, client, j) == to)
            && (forall j: nat :: !(first <= j < first + n) ==>
                  HistoryState(after.db, client, j) == HistoryState(w.db, client, j))
  {
    var call := HistoryCall(client, first, n, deleted, sec);
    CommitSaves(w, client, call.commit, call.env, cfg.backend);
    SameStates(Serve(cfg, w, call).world.db, LoopEnd(w, client, call.commit, call.env, cfg.backend).db, client);
  }

  lemma LoopEndCounts(cfg: Config, w: World, client: ClientId, first: nat, n: nat, deleted: bool, sec: int,
                      to: RowState)
    requires LoopEndMoved(cfg, w, client, first, n, deleted, sec, to)
    ensures var call := HistoryCall(client, first, n, deleted, sec);
            var st := LoopEnd(w, client, call.commit, call.env, cfg.backend);
            st.newNormal == 0 && st.newHistory == Steps(to, n) && call.env.start / 1000 == sec
  {
  }

  lemma HistoryCommitSaves(cfg: Config, w: World, client: ClientId, first: nat, n: nat, deleted: bool, sec: int)
    requires AtRest(w) && !IsDisabled(w.db, client) && n > 0
    ensures var call := HistoryCall(client, first, n, deleted, sec);
            var after, st := Serve(cfg, w, call).world, LoopEnd(w, client, call.commit, call.env, cfg.backend);
            && AtRest(after)
            && StoredCounts(after.db, client)
               == Added(LoadedCounts(w.db, client, call.env.start / 1000), st.newNormal, st.newHistory)
  {
    var call := HistoryCall(client, first, n, deleted, sec);
    CommitSaves(w, client, call.commit, call.env, cfg.backend);
  }

  lemma HistoryCommitCounts(cfg: Config, w: World, client: ClientId, first: nat, n: nat, deleted: bool, sec: int,
                            to: RowState)
    requires AtRest(w) && !IsDisabled(w.db, client) && n > 0
    requires LoopEndMoved(cfg, w, client, first, n, deleted, sec, to)
    ensures var after := Serve(cfg, w, HistoryCall(client, first, n, deleted, sec)).world;
            AtRest(after) && StoredCounts(after.db, client) == Added(LoadedCounts(w.db, client, sec), 0, Steps(to, n))
  {
    LoopEndCounts(cfg, w, client, first, n, deleted, sec, to);
    HistoryCommitSaves(cfg, w, client, first, n, deleted, sec);
  }

  /** Between two such commits: the counts, which items are alive and which were never there. */
  ghost predicate HistoryWorld(w: World, client: ClientId, counts: Counts, dead: nat, alive: nat) {
    && AtRest(w) && !IsDisabled(w.db, client) && StoredCounts(w.db, client) == counts
    && (forall j: nat :: dead <= j < alive ==> HistoryState(w.db, client, j).Alive?)
    && (forall j: nat :: j >= alive ==> HistoryState(w.db, client, j).Absent?)
  }

  lemma CreatesLoop(cfg: Config, w: World, client: ClientId, alive: nat, n: nat, sec: int)
    requires AtRest(w) && forall j: nat :: j >= alive ==> HistoryState(w.db, client, j).Absent?
    requires var c := LoadedCounts(w.db, client, sec);
             HistorySum(c) + n <= MAX_CLIENT_HISTORY_OBJECT_QUOTA && TotalOf(c) + n <= MAX_CLIENT_OBJECT_QUOTA
    ensures LoopEndMoved(cfg, w, client, alive, n, false, sec, Alive)
  {
    var call := HistoryCall(client, alive, n, false, sec);
    HistoryCreates(ContextOf(w, client, call.commit, call.env, cfg.backend), LoopStart(w, 0, 0), alive, n, sec * 1000);
  }

  lemma CreatesRun(cfg: Config, w: World, client: ClientId, counts: Counts, dead: nat, alive: nat, n: nat, sec: int,
                   loaded: Counts)
    requires HistoryWorld(w, client, counts, dead, alive) && dead <= alive && n > 0
    requires LoadedCounts(w.db, client, sec) == loaded
    requires HistorySum(loaded) + n <= MAX_CLIENT_HISTORY_OBJECT_QUOTA && TotalOf(loaded) + n <= MAX_CLIENT_OBJECT_QUOTA
    ensures HistoryWorld(Serve(cfg, w, HistoryCall(client, alive, n, false, sec)).world, client,
                         Added(loaded, 0, n), dead, alive + n)
  {
    CreatesLoop(cfg, w, client, alive, n, sec);
    HistoryCommitRows(cfg, w, client, alive, n, false, sec, Alive);
    HistoryCommitCounts(cfg, w, client, alive, n, false, sec, Alive);
  }

  lemma DeletesRun(cfg: Config, w: World, client: ClientId, counts: Counts, dead: nat, alive: nat, n: nat, sec: int,
                   loaded: Counts)
    requires HistoryWorld(w, client, counts, dead, alive) && 0 < n <= alive - dead
    requires LoadedCounts(w.db, client, sec) == loaded
    ensures HistoryWorld(Serve(cfg, w, HistoryCall(client, dead, n, true, sec)).world, client,
                         Added(loaded, 0, 0 - n), dead + n, alive)
  {
    var call := HistoryCall(client, dead, n, true, sec);
    HistoryDeletes(ContextOf(w, client, call.commit, call.env, cfg.backend), LoopStart(w, 0, 0), dead, n, sec * 1000);
    HistoryCommitRows(cfg, w, client, dead, n, true, sec, Dead);
    HistoryCommitCounts(cfg, w, client, dead, n, true, sec, Dead);
  }

  lemma ThreeCalls(cfg: Config, w0: World, calls: seq<Call>)
    requires |calls| == 3 && AllWellFormed(calls)
    ensures WorldAfter(cfg, w0, calls, 3)
            == Serve(cfg, Serve(cfg, Serve(cfg, w0, calls[0]).world, calls[1]).world, calls[2]).world
  {
    assert WorldAfter(cfg, w0, calls, 0) == w0;
    assert WorldAfter(cfg, w0, calls, 1) == Serve(cfg, w0, calls[0]).world;
    assert WorldAfter(cfg, w0, calls, 2) == Serve(cfg, WorldAfter(cfg, w0, calls, 1), calls[1]).world;
  }

  function AfterFirst(start: int): Counts {
    Counts(0, 0, 0, 0, 30000, start, COUNT_VERSION)
  }

  function AfterDeletes(start: int): Counts {
    Counts(0, 0, 0, 30000, -20000, start + PERIOD_SECS, COUNT_VERSION)
  }

  function AfterSecond(start: int): Counts {
    Counts(0, -20000, 0, 0, 50000, start + 4 * PERIOD_SECS, COUNT_VERSION)
  }

  /** Counts of the current format that are loaded k periods later. */
  lemma LoadedLater(db: DB, client: ClientId, counts: Counts, k: nat)
    requires StoredCounts(db, client) == counts && counts.version == COUNT_VERSION
    ensures var sec := counts.lastChange + PERIOD_SECS * k;
            LoadedCounts(db, client, sec) == Shifted(counts, k).(lastChange := sec)
  {
    RotatedAt(counts, k);
  }

  lemma FirstItems(cfg: Config, client: ClientId, start: int)
    ensures HistoryWorld(Serve(cfg, FRESH_WORLD, HistoryCall(client, 0, 30000, false, start)).world, client,
                         AfterFirst(start), 0, 30000)
  {
    NothingStoredIsWithin(client);
    assert HistoryWorld(FRESH_WORLD, client, NO_COUNTS, 0, 0);
    CreatesRun(cfg, FRESH_WORLD, client, NO_COUNTS, 0, 0, 30000, start, FirstCounts(start));
  }

  lemma DeletedItems(cfg: Config, w: World, client: ClientId, start: int)
    requires HistoryWorld(w, client, AfterFirst(start), 0, 30000)
    ensures HistoryWorld(Serve(cfg, w, HistoryCall(client, 0, 20000, true, start + PERIOD_SECS)).world, client,
                         AfterDeletes(start), 20000, 30000)
  {
    LoadedLater(w.db, client, AfterFirst(start), 1);
    DeletesRun(cfg, w, client, AfterFirst(start), 0, 30000, 20000, start + PERIOD_SECS,
               Counts(0, 0, 0, 30000, 0, start + PERIOD_SECS, COUNT_VERSION));
  }

  lemma SecondItems(cfg: Config, w: World, client: ClientId, start: int)
    requires HistoryWorld(w, client, AfterDeletes(start), 20000, 30000)
    ensures HistoryWorld(Serve(cfg, w, HistoryCall(client, 30000, 50000, false, start + 4 * PERIOD_SECS)).world, client,
                         AfterSecond(start), 20000, 80000)
  {
    LoadedLater(w.db, client, AfterDeletes(start), 3);
    CreatesRun(cfg, w, client, AfterDeletes(start), 20000, 30000, 50000, start + 4 * PERIOD_SECS,
               Counts(0, -20000, 0, 0, 0, start + 4 * PERIOD_SECS, COUNT_VERSION));
  }

  lemma SecondItemsCount(w: World, client: ClientId, start: int)
    requires HistoryWorld(w, client, AfterSecond(start), 20000, 80000)
    ensures HistorySum(LoadedCounts(w.db, client, start + 5 * PERIOD_SECS)) == 50000
  {
    LoadedLater(w.db, client, AfterSecond(start), 1);
  }

  function HistoryCalls(client: ClientId, start: int): (calls: seq<Call>)
    ensures |calls| == 3 && AllWellFormed(calls)
  {
    [HistoryCall(client, 0, 30000, false, start),
     HistoryCall(client, 0, 20000, true, start + PERIOD_SECS),
     HistoryCall(client, 30000, 50000, false, start + 4 * PERIOD_SECS)]
  }

  lemma HistoryRun(cfg: Config, client: ClientId, start: int)
    ensures HistoryWorld(WorldAfter(cfg, FRESH_WORLD, HistoryCalls(client, start), 3), client, AfterSecond(start),
                         20000, 80000)
  {
    ThreeCalls(cfg, FRESH_WORLD, HistoryCalls(client, start));
    var w1 := Serve(cfg, FRESH_WORLD, HistoryCall(client, 0, 30000, false, start)).world;
    FirstItems(cfg, client, start);
    var w2 := Serve(cfg, w1, HistoryCall(client, 0, 20000, true, start + PERIOD_SECS)).world;
    DeletedItems(cfg, w1, client, start);
    SecondItems(cfg, w2, client, start);
  }

  /** With history deletes the history quota can be passed. Three commits from nothing stored, at any
      time: 30000 history items; 20000 of them deleted one period later; and, once the first have
      rotated out and left the deletes as a negative bucket, 50000 more. When that bucket rotates
      out too, all 50000 count. */
  lemma HistoryDeletesPassQuota(cfg: Config, client: ClientId, start: int)
    ensures var w := WorldAfter(cfg, FRESH_WORLD, HistoryCalls(client, start), 3);
            HistorySum(LoadedCounts(w.db, client, start + 5 * PERIOD_SECS)) == 50000 > MAX_CLIENT_HISTORY_OBJECT_QUOTA
  {
    HistoryRun(cfg, client, start);
    SecondItemsCount(WorldAfter(cfg, FRESH_WORLD, HistoryCalls(client, start), 3), client, start);
  }

  /** An untagged entity under a new id is stored where there is room. */
  lemma PlainIsLetIn(cfg: Config, w: World, client: ClientId, dataType: int, now: int, uuid: string)
    requires AtRest(w) && !IsDisabled(w.db, client) && !IsHistoryRelated(dataType) && Key(client, uuid) !in w.db.rows
    requires var call := OneEntry(client, Plain(dataType), now, uuid);
             !Replies.NoRoom(ContextOf(w, client, call.commit, call.env, cfg.backend), LoopStart(w, 0, 0))
    ensures var served := Serve(cfg, w, OneEntry(client, Plain(dataType), now, uuid));
            && served.answer == CommitResult(CommitResponse(Ok, [Success(uuid, now, now)]))
            && Key(client, uuid) in served.world.db.rows
  {
    var call := OneEntry(client, Plain(dataType), now, uuid);
    var c, st0 := ContextOf(w, client, call.commit, call.env, cfg.backend), LoopStart(w, 0, 0);
    Replies.CommitAnswers(cfg, w, client, call.commit, call.env);
    var answer := Serve(cfg, w, call).answer.commit;
    assert StartOf(w, client) == st0;
    assert Replies.AnswersAt(c, st0, call.commit.entries, call.env.ticks, 0, answer.replies[0]);
    assert CommitUpto(c, st0, call.commit.entries, call.env.ticks, 0) == st0;
    assert answer.replies == [answer.replies[0]];
  }

  /** After that run, with 50000 items of history, another entity is still let in: the history beyond
      30000 is added to the quota, up to 20000. */
  lemma BoostLetsIn(cfg: Config, client: ClientId, dataType: int, start: int, uuid: string)
    requires !IsHistoryRelated(dataType)
    requires var w := WorldAfter(cfg, FRESH_WORLD, HistoryCalls(client, start), 3);
             Key(client, uuid) !in w.db.rows
    ensures var w := WorldAfter(cfg, FRESH_WORLD, HistoryCalls(client, start), 3);
            var now := (start + 5 * PERIOD_SECS) * 1000;
            var served := Serve(cfg, w, OneEntry(client, Plain(dataType), now, uuid));
            && served.answer == CommitResult(CommitResponse(Ok, [Success(uuid, now, now)]))
            && Key(client, uuid) in served.world.db.rows
  {
    var w := WorldAfter(cfg, FRESH_WORLD, HistoryCalls(client, start), 3);
    HistoryRun(cfg, client, start);
    SecondItemsCount(w, client, start);
    LoadedLater(w.db, client, AfterSecond(start), 1);
    PlainIsLetIn(cfg, w, client, dataType, (start + 5 * PERIOD_SECS) * 1000, uuid);
  }
}
