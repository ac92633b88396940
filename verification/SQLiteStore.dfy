/** The SQLite store (sync-lite/sqlite_store.go): each method runs one transaction on the
    tables and either commits it or leaves them alone. */
module SQLiteStore {
  import opened Basics
  import opened SyncEntities
  import opened ItemCounts
  import opened Tables
  import opened Query

  class Store {
    /** SQLite, or the same tables behind the answers of the DynamoDB implementation
        (datastore/sync_entity.go), which the handlers serve as well. */
    const backend: Backend
    var rows: map<Key, Entity>
    var tags: set<Key>
    var counts: map<ClientId, Counts>

    ghost function View(): DB
      reads this
    {
      DB(rows, tags, counts)
    }

    constructor (backend: Backend)
      ensures View() == EMPTY_DB && this.backend == backend
    {
      this.backend := backend;
      rows, tags, counts := map[], {}, map[];
    }

    /** `fails` is a database error other than a constraint violation. */
    method InsertSyncEntity(e: Entity, fails: bool) returns (conflict: bool, err: bool)
      modifies this
      ensures View() == if fails then old(View()) else Inserted(old(View()), e)
      ensures (conflict, err) == InsertAnswer(old(View()), e, fails, backend)
    {
      if fails {
        return false, true;
      }
      var txTags := tags;
      if UsesTag(e) {
        var tag := ClientTagKey(e.clientId, e.clientTag.value);
        if tag in txTags {
          assert tag in OwnTag(e) * tags;
          return true, backend.DynamoDB?;
        }
        txTags := txTags + {tag};
      }
      if KeyOf(e) in rows {
        return backend.SQLite? || UsesTag(e), backend.DynamoDB?;
      }
      rows, tags := rows[KeyOf(e) := e], txTags;
      return false, false;
    }

    method InsertSyncEntitiesWithServerTags(es: seq<Entity>) returns (err: bool)
      modifies this
      ensures err == ServerEntitiesInserted(old(View()), es).None?
      ensures View() == GetOr(ServerEntitiesInserted(old(View()), es), old(View()))
    {
      var txRows, txTags := rows, tags;
      for i := 0 to |es|
        invariant View() == old(View())
        invariant ServerEntitiesInserted(View(), es) == ServerEntitiesInserted(DB(txRows, txTags, counts), es[i..])
      {
        if ServerTagOf(es[i]) in txTags || KeyOf(es[i]) in txRows {
          return true;
        }
        txTags := txTags + {ServerTagOf(es[i])};
        txRows := txRows[KeyOf(es[i]) := es[i]];
      }
      rows, tags := txRows, txTags;
      return false;
    }

    method UpdateSyncEntity(e: Entity, base: int, fails: bool) returns (conflict: bool, deleted: bool, err: bool)
      modifies this
      ensures View() == if fails then old(View()) else Updated(old(View()), e, base)
      ensures err == fails
      ensures conflict == (!fails && !UpdateAccepted(old(View()), e, base))
      ensures deleted == (!fails && UpdateAccepted(old(View()), e, base) && ReportsDelete(old(View()), e, backend))
    {
      if fails {
        return false, false, true;
      }
      if KeyOf(e) !in rows {
        return true, false, false;
      }
      var current := rows[KeyOf(e)];
      if e.dataType.Some? && e.dataType.value != HISTORY_TYPE_ID {
        if current.version.None? || current.version.value != base {
          return true, false, false;
        }
      }
      rows := rows[KeyOf(e) := Overlay(current, e)];
      if e.deleted.Some? && e.deleted.value && UsesTag(e) {
        tags := tags - {ClientTagKey(e.clientId, e.clientTag.value)};
        if backend.DynamoDB? {
          return false, true, false;
        }
      }
      var oldDeleted := current.deleted.Some? && current.deleted.value;
      var newDeleted := e.deleted.Some? && e.deleted.value;
      return false, !oldDeleted && newDeleted, false;
    }

    /** The rows come off the cursor one by one, each an oldest of those left. */
    method GetUpdatesForType(f: Filter, maxSize: int) returns (more: bool, entities: seq<Entity>)
      requires maxSize >= 0
      ensures IsAnswer(rows, f, maxSize, Page(more, entities))
    {
      var limit := maxSize + 1;
      var pending := PendingRows(rows, f);
      var cursor := pending;
      entities := [];
      while cursor != {} && |entities| < limit
        invariant |entities| <= limit && |entities| + |cursor| == |pending|
        invariant NoRepeats(entities) && SortedByMtime(entities)
        invariant forall e :: e in pending <==> e in entities || e in cursor
        invariant forall e :: e in entities ==> e !in cursor
        invariant forall e, x :: e in entities && x in cursor ==> MtimeOf(e) <= MtimeOf(x)
        decreases |cursor|
      {
        OldestExists(cursor);
        var next :| next in cursor && forall x :: x in cursor ==> MtimeOf(next) <= MtimeOf(x);
        entities := entities + [next];
        cursor := cursor - {next};
      }
      assert IsFirstOf(entities, pending, limit);
      more := |entities| > maxSize;
      if more {
        FrontOfPage(entities, pending, limit, maxSize);
        entities := entities[..maxSize];
      }
    }

    method HasServerDefinedUniqueTag(client: ClientId, tag: string) returns (found: bool)
      ensures found == (ServerTagKey(client, tag) in tags)
    {
      return ServerTagKey(client, tag) in tags;
    }

    method HasItem(client: ClientId, id: string) returns (found: bool)
      ensures found == (Key(client, id) in rows)
    {
      return Key(client, id) in rows;
    }

    method InitRealCountsAndUpdateHistoryCounts(c: ClientItemCounts, nowSec: int)
      modifies c
      ensures c.View() == Refreshed(old(c.View()), nowSec, HistoryRows(View(), c.clientId, nowSec),
                                    NormalRows(View(), c.clientId))
    {
      if c.version < COUNT_VERSION {
        if c.itemCount > 0 {
          c.historyItemCountPeriod1 := 0;
          c.historyItemCountPeriod2 := 0;
          c.historyItemCountPeriod3 := 0;
          c.historyItemCountPeriod4 := |set k | k in rows && CountsAsHistory(rows[k], c.clientId, nowSec)|;
          c.itemCount := |set k | k in rows && CountsAsNormal(rows[k], c.clientId)|;
        }
        c.lastPeriodChangeTime := nowSec;
        c.version := COUNT_VERSION;
        return;
      }
      c.RotatePeriods(nowSec);
    }

    method GetClientItemCount(client: ClientId, nowSec: int) returns (c: ClientItemCounts)
      ensures fresh(c) && c.clientId == client
      ensures c.View() == LoadedCounts(View(), client, nowSec)
    {
      c := new ClientItemCounts(client, StoredCounts(DB(rows, tags, counts), client));
      InitRealCountsAndUpdateHistoryCounts(c, nowSec);
    }

    method UpdateClientItemCount(c: ClientItemCounts, newNormal: int, newHistory: int, fails: bool) returns (err: bool)
      modifies this`counts, c
      ensures err == fails
      ensures View() == if fails then old(View())
                        else old(View()).(counts := old(counts)[c.clientId := Added(old(c.View()), newNormal,
                                                                                    newHistory)])
    {
      c.AddNew(newNormal, newHistory);
      if fails {
        return true;
      }
      counts := counts[c.clientId := Counts(c.itemCount, c.historyItemCountPeriod1, c.historyItemCountPeriod2,
                                            c.historyItemCountPeriod3, c.historyItemCountPeriod4,
                                            c.lastPeriodChangeTime, c.version)];
      return false;
    }

    /** Returns the rows the client had, the marker included. */
    method ClearServerData(client: ClientId) returns (entities: set<Entity>)
      modifies this
      ensures View() == Cleared(old(View()), client)
      ensures entities == set k | k in old(rows) && old(rows)[k].clientId == client :: old(rows)[k]
    {
      entities := set k | k in rows && rows[k].clientId == client :: rows[k];
      tags := set k | k in tags && k.client != client :: k;
      counts := counts - {client};
      rows := map k | k in rows && !Clearable(k, client) :: rows[k];
    }

    method DisableSyncChain(client: ClientId, now: int)
      modifies this`rows
      ensures View() == Disabled(old(View()), client, now)
    {
      var k := Key(client, DISABLED_CHAIN_ID);
      if k in rows {
        rows := rows[k := rows[k].(mtime := Some(now), ctime := Some(now), name := Some(REASON_DELETED))];
      } else {
        rows := rows[k := MarkerRow(client, now)];
      }
    }

    method IsSyncChainDisabled(client: ClientId) returns (disabled: bool)
      ensures disabled == IsDisabled(View(), client)
    {
      return Key(client, DISABLED_CHAIN_ID) in rows;
    }
  }
}
