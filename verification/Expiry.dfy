/** What the updates query returns and what a recount counts, in terms of the columns, and how long an
    entity is served (sync-lite/sqlite_store.go, datastore/sync_entity.go). */
module Expiry {
  import opened Basics
  import opened SyncEntities
  import opened ItemCounts
  import opened Tables
  import opened Query
  import opened Cache
  import opened Commit
  import opened Quota
  import opened Server
  import Bootstrap
  import Paging

  // ---- the query, column by column ----

  /** No expiration, an expiration of 0, or one that has not passed. */
  predicate Unexpired(e: Entity, sec: int) {
    e.expirationTime == None || e.expirationTime == Some(0) || (e.expirationTime.Some? && sec <= e.expirationTime.value)
  }

  predicate Matches(e: Entity, f: Filter) {
    && e.clientId == f.client && e.dataType == Some(f.dataType)
    && e.mtime.Some? && f.token < e.mtime.value
    && (f.fetchFolders || e.folder == Some(false))
    && Unexpired(e, f.nowSec)
  }

  lemma MatchingIsPending(rows: map<Key, Entity>, f: Filter)
    ensures forall k :: k in rows && Matches(rows[k], f) ==> rows[k] in PendingRows(rows, f)
    ensures forall e :: e in PendingRows(rows, f) ==> e in rows.Values && Matches(e, f)
  {
  }

  /** Every answer the store may give holds only matching rows, oldest first; a matching row is left out
      only by a full page of rows no newer than it, and exactly then the answer says that there is more. */
  lemma AnswerMatches(rows: map<Key, Entity>, f: Filter, size: nat, p: Page)
    requires IsAnswer(rows, f, size, p) && p.Page?
    ensures forall i :: 0 <= i < |p.entities| ==> p.entities[i] in rows.Values && Matches(p.entities[i], f)
    ensures forall i, j :: 0 <= i < j < |p.entities| ==>
              && p.entities[i].mtime.Some? && p.entities[j].mtime.Some?
              && p.entities[i].mtime.value <= p.entities[j].mtime.value
    ensures forall k :: k in rows && Matches(rows[k], f) && rows[k] !in p.entities ==>
              p.more && |p.entities| == size && forall e :: e in p.entities ==> e.mtime.value <= rows[k].mtime.value
    ensures p.more ==> exists k :: k in rows && Matches(rows[k], f) && rows[k] !in p.entities
  {
    var pending := PendingRows(rows, f);
    MatchingIsPending(rows, f);
    Paging.DistinctCount(p.entities);
    var taken := Paging.Members(p.entities);
    if |pending| <= size { Paging.FullPageIsAll(p.entities, pending, size); }
    if p.more {
      assert taken != pending;
      var e :| e in pending && e !in taken;
      var k :| k in rows && rows[k] == e;
    }
  }

  // ---- the recount, column by column ----

  function LiveItems(rows: map<Key, Entity>, client: ClientId): set<Key> {
    set k | k in rows && rows[k].clientId == client && rows[k].dataType.Some?
            && rows[k].dataType.value != 963985 && rows[k].dataType.value != 150251
            && rows[k].deleted == Some(false)
  }

  function LiveHistory(rows: map<Key, Entity>, client: ClientId, sec: int): set<Key> {
    set k | k in rows && rows[k].clientId == client
            && (rows[k].dataType == Some(963985) || rows[k].dataType == Some(150251))
            && rows[k].deleted == Some(false) && Unexpired(rows[k], sec)
  }

  lemma CountedRows(db: DB, client: ClientId, sec: int)
    ensures NormalRows(db, client) == |LiveItems(db.rows, client)|
    ensures HistoryRows(db, client, sec) == |LiveHistory(db.rows, client, sec)|
  {
    assert (set k | k in db.rows && CountsAsNormal(db.rows[k], client)) == LiveItems(db.rows, client);
    assert (set k | k in db.rows && CountsAsHistory(db.rows[k], client, sec)) == LiveHistory(db.rows, client, sec);
  }

  /** A record from before version 2 that counts any items is loaded as the client's live rows: the items,
      and in the newest bucket the history that has not expired. One that counts none is only stamped, and
      a client without a record starts from zero. */
  lemma OldRecordIsRecounted(db: DB, client: ClientId, sec: int)
    requires client in db.counts ==> db.counts[client].version < 2
    ensures var c := LoadedCounts(db, client, sec);
            c == if client !in db.counts then Counts(0, 0, 0, 0, 0, sec, 2)
                 else if db.counts[client].items <= 0 then db.counts[client].(version := 2, lastChange := sec)
                 else Counts(|LiveItems(db.rows, client)|, 0, 0, 0, |LiveHistory(db.rows, client, sec)|, sec, 2)
  {
    CountedRows(db, client, sec);
  }

  // ---- how long an entity is served ----

  /** When an entity of a type, stored at some millisecond, expires: history and its delete directives after
      14 days, the rest never. */
  function ExpiryOf(dataType: int, created: int): Option<int> {
    if dataType == 963985 || dataType == 150251 then Some(created / 1000 + 1209600) else None
  }

  predicate Dated(e: Entity, created: int) {
    e.dataType.Some? && e.expirationTime == ExpiryOf(e.dataType.value, created)
  }

  /** The columns an update leaves alone. */
  predicate SameOrigin(a: Entity, b: Entity) {
    a.clientId == b.clientId && a.dataType == b.dataType && a.expirationTime == b.expirationTime
  }

  /** Rows are kept, with their origin. */
  ghost predicate KeepsOrigins(before: map<Key, Entity>, after: map<Key, Entity>) {
    forall k :: k in before && k in after ==> SameOrigin(before[k], after[k])
  }

  lemma EntryDates(c: CommitContext, st: CommitState, pb: PbEntity, t: Tick)
    requires Addressable(pb)
    ensures var rows, after := st.db.rows, CommitEntry(c, st, pb, t).db.rows;
            && rows.Keys <= after.Keys && KeepsOrigins(rows, after)
            && (forall k :: k in after && k !in rows ==> Dated(after[k], t.now))
  {
    EntryWrites(c, st, pb, t);
  }

  predicate KeepsRow(before: DB, after: DB, k: Key) {
    k in before.rows ==> k in after.rows && SameOrigin(before.rows[k], after.rows[k])
  }

  lemma EntryKeepsRow(c: CommitContext, st: CommitState, pb: PbEntity, t: Tick, k: Key)
    requires Addressable(pb)
    ensures KeepsRow(st.db, CommitEntry(c, st, pb, t).db, k)
  {
    EntryDates(c, st, pb, t);
  }

  lemma {:induction false} LoopKeepsRow(c: CommitContext, st0: CommitState, entries: seq<PbEntity>, ticks: seq<Tick>,
                                        i: nat, n: nat, k: Key)
    requires i <= n <= |entries| && n <= |ticks| && AllAddressable(entries)
    ensures KeepsRow(CommitUpto(c, st0, entries, ticks, i).db, CommitUpto(c, st0, entries, ticks, n).db, k)
    decreases n
  {
    if i < n {
      LoopKeepsRow(c, st0, entries, ticks, i, n - 1, k);
      EntryKeepsRow(c, CommitUpto(c, st0, entries, ticks, n - 1), entries[n - 1], ticks[n - 1], k);
    }
  }

  lemma CommitKeepsOrigins(w: World, client: ClientId, msg: CommitMsg, env: CommitEnv, backend: Backend)
    requires ValidCommit(msg, env)
    ensures KeepsOrigins(w.db.rows, Committed(w, client, msg, env, backend).0.db.rows)
  {
    if msg.entries != [] && !env.countsFail {
      var normal := InterimCount(w.kv, client, Normal, false, env.start);
      var history := InterimCount(normal.kv, client, History, false, env.start);
      if normal.value.Some? && history.value.Some? {
        var c, st0 := ContextOf(w, client, msg, env, backend),
                      LoopStart(w.(kv := history.kv), normal.value.value, history.value.value);
        var st := CommitUpto(c, st0, msg.entries, env.ticks, |msg.entries|);
        forall k | k in w.db.rows && k in st.db.rows ensures SameOrigin(w.db.rows[k], st.db.rows[k]) {
          LoopKeepsRow(c, st0, msg.entries, env.ticks, 0, |msg.entries|, k);
        }
        FinishWrites(w, st, client, env);
      }
    }
  }

  lemma ServeKeepsOrigins(cfg: Config, w: World, call: Call)
    requires WellFormed(call)
    ensures KeepsOrigins(w.db.rows, Serve(cfg, w, call).world.db.rows)
  {
    match call
    case GuCall(_, _, _, batch, _, _) =>
      if ServerEntitiesInserted(w.db, batch).Some? { Bootstrap.BatchEffect(w.db, batch); }
    case CommitCall(client, msg, env) => CommitKeepsOrigins(w, client, msg, env, cfg.backend);
    case ClearCall(_, _) =>
  }

  /** Entry i of the commit stores a row of that key, which was not there. */
  ghost predicate Stores(cfg: Config, w: World, call: Call, i: nat, k: Key)
    requires call.CommitCall? && ValidCommit(call.commit, call.env) && i < |call.commit.entries|
  {
    var c := ContextOf(w, call.client, call.commit, call.env, cfg.backend);
    && k !in CommitUpto(c, StartOf(w, call.client), call.commit.entries, call.env.ticks, i).db.rows
    && k in CommitUpto(c, StartOf(w, call.client), call.commit.entries, call.env.ticks, i + 1).db.rows
  }

  lemma LoopDates(c: CommitContext, st0: CommitState, entries: seq<PbEntity>, ticks: seq<Tick>, i: nat, k: Key)
    requires i < |entries| == |ticks| && AllAddressable(entries)
    requires k !in CommitUpto(c, st0, entries, ticks, i).db.rows
    requires k in CommitUpto(c, st0, entries, ticks, i + 1).db.rows
    ensures var rows := CommitUpto(c, st0, entries, ticks, |entries|).db.rows;
            k in rows && Dated(rows[k], ticks[i].now)
  {
    EntryDates(c, CommitUpto(c, st0, entries, ticks, i), entries[i], ticks[i]);
    LoopKeepsRow(c, st0, entries, ticks, i + 1, |entries|, k);
  }

  lemma StoredIsDated(cfg: Config, w: World, call: Call, i: nat, k: Key)
    requires call.CommitCall? && ReachesLoop(call.commit, call.env) && !IsDisabled(w.db, call.client)
    requires WellTyped(w.kv) && i < |call.commit.entries| && Stores(cfg, w, call, i, k)
    ensures var rows := Serve(cfg, w, call).world.db.rows;
            k in rows && Dated(rows[k], call.env.ticks[i].now)
  {
    CommitInFlight(w, call.client, call.commit, call.env, cfg.backend);
    LoopDates(ContextOf(w, call.client, call.commit, call.env, cfg.backend), StartOf(w, call.client),
              call.commit.entries, call.env.ticks, i, k);
  }

  /** The row is there throughout the run. */
  ghost predicate Stays(cfg: Config, w0: World, calls: seq<Call>, n: nat, k: Key)
    requires n <= |calls| && AllWellFormed(calls)
  {
    k in WorldAfter(cfg, w0, calls, n).db.rows && (n == 0 || Stays(cfg, w0, calls, n - 1, k))
  }

  lemma {:induction false} StaysDated(cfg: Config, w0: World, calls: seq<Call>, n: nat, k: Key, created: int)
    requires n <= |calls| && AllWellFormed(calls) && Stays(cfg, w0, calls, n, k)
    requires k in w0.db.rows ==> Dated(w0.db.rows[k], created)
    ensures Dated(WorldAfter(cfg, w0, calls, n).db.rows[k], created)
    decreases n
  {
    if n > 0 {
      StaysDated(cfg, w0, calls, n - 1, k, created);
      ServeKeepsOrigins(cfg, WorldAfter(cfg, w0, calls, n - 1), calls[n - 1]);
    }
  }

  /** From commit to expiry: an entity that a commit stores at some millisecond is returned, while its row
      stays, to a query of its type from an older token up to 14 days after that second if it is history or a
      delete directive, and for ever if not; never later, however often it is updated; and within that time
      it is left out only by a full page of rows no newer than it. */
  lemma ServedUntilExpiry(cfg: Config, w: World, call: Call, i: nat, k: Key, calls: seq<Call>, n: nat, f: Filter,
                          size: nat, p: Page)
    requires call.CommitCall? && ReachesLoop(call.commit, call.env) && !IsDisabled(w.db, call.client)
    requires WellTyped(w.kv) && i < |call.commit.entries| && Stores(cfg, w, call, i, k)
    requires n <= |calls| && AllWellFormed(calls) && Stays(cfg, Serve(cfg, w, call).world, calls, n, k)
    requires var rows := WorldAfter(cfg, Serve(cfg, w, call).world, calls, n).db.rows;
             IsAnswer(rows, f, size, p) && p.Page?
    ensures var row := WorldAfter(cfg, Serve(cfg, w, call).world, calls, n).db.rows[k];
            var created := call.env.ticks[i].now;
            var inTime := !(row.dataType == Some(963985) || row.dataType == Some(150251))
                          || f.nowSec <= created / 1000 + 1209600 || created / 1000 + 1209600 == 0;
            && (row in p.entities ==> inTime)
            && (inTime && row.clientId == f.client && row.dataType == Some(f.dataType)
                && row.mtime.Some? && f.token < row.mtime.value && (f.fetchFolders || row.folder == Some(false)) ==>
                  || row in p.entities
                  || (p.more && |p.entities| == size
                      && forall e :: e in p.entities ==> e.mtime.Some? && e.mtime.value <= row.mtime.value))
  {
    var w1 := Serve(cfg, w, call).world;
    var rows := WorldAfter(cfg, w1, calls, n).db.rows;
    StoredIsDated(cfg, w, call, i, k);
    StaysDated(cfg, w1, calls, n, k, call.env.ticks[i].now);
    AnswerMatches(rows, f, size, p);
    if rows[k] in p.entities {
      var j :| 0 <= j < |p.entities| && p.entities[j] == rows[k];
      assert Matches(p.entities[j], f);
    }
  }
}
