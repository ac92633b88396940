/** One commit request as a fold over its entries (command/command.go, handleCommitRequest). */
module Commit {
  import opened Basics
  import opened Decimal
  import opened SyncEntities
  import opened ItemCounts
  import opened MemoryCache
  import opened Cache
  import opened Tables
  import opened GetUpdates

  const MAX_CLIENT_OBJECT_QUOTA := 50000

  const MAX_CLIENT_HISTORY_OBJECT_QUOTA := 30000

  datatype CommitMsg = CommitMsg(entries: seq<PbEntity>, cacheGuid: Option<string>)

  /** What processing one entry meets: the clock in milliseconds, the fresh id it would use,
      and whether the existence check or the write fails in the database. */
  datatype Tick = Tick(now: int, uuid: string, hasItemFails: bool, writeFails: bool)

  datatype Reply =
    | InvalidMessage
    | TransientError
    | OverQuota
    | Conflict
    | Success(id: string, version: int, mtime: int)

  /** What the loop knows of the client; `items` and `history` are the loaded counts. */
  datatype CommitContext = CommitContext(
    client: ClientId, cacheGuid: Option<string>, items: int, history: int, backend: Backend)

  datatype CommitState = CommitState(
    db: DB, kv: KV, idMap: map<string, string>, typeMtime: map<int, int>,
    newNormal: int, newHistory: int, replies: seq<Reply>, failed: bool)

  /** Chains that were over the history quota before it existed may exceed the total by as
      much, up to the part of the quota not reserved for history. */
  function Boost(history: int): int {
    if history > MAX_CLIENT_HISTORY_OBJECT_QUOTA then
      Min(MAX_CLIENT_OBJECT_QUOTA - MAX_CLIENT_HISTORY_OBJECT_QUOTA, history - MAX_CLIENT_HISTORY_OBJECT_QUOTA)
    else 0
  }

  function RemapParent(idMap: map<string, string>, parent: Option<string>): Option<string> {
    if parent.Some? && parent.value in idMap then Some(idMap[parent.value]) else parent
  }

  /** The entity handed to the store: its parent remapped, its version set to its mtime. */
  function Prepared(c: CommitContext, st: CommitState, pb: PbEntity, t: Tick): Option<Entity>
    requires Addressable(pb)
  {
    var e := CreateDBSyncEntity(pb, c.cacheGuid, c.client, t.now, t.uuid);
    if e.None? then None
    else Some(e.value.(parentId := RemapParent(st.idMap, e.value.parentId), version := Some(t.now)))
  }

  function KindOf(e: Entity): CountType {
    if e.dataType.Some? && IsHistoryRelated(e.dataType.value) then History else Normal
  }

  predicate IsHistoryType(e: Entity) {
    e.dataType == Some(HISTORY_TYPE_ID)
  }

  /** History is created or updated by whether its row exists, the rest by the version. */
  predicate IsUpdateOp(db: DB, e: Entity, base: int) {
    if IsHistoryType(e) then KeyOf(e) in db.rows else base != 0
  }

  predicate OverTotalQuota(c: CommitContext, st: CommitState) {
    c.items + c.history + st.newNormal + st.newHistory >= MAX_CLIENT_OBJECT_QUOTA + Boost(c.history)
  }

  predicate WithinHistoryQuota(c: CommitContext, st: CommitState) {
    c.history + st.newHistory < MAX_CLIENT_HISTORY_OBJECT_QUOTA
  }

  /** What the store did with an entry: nothing, with a reply saying why, or a write that
      counts `delta` items of the entity's kind; `created` says an id was assigned. */
  datatype Outcome = Refused(reply: Reply) | Applied(db: DB, delta: int, created: bool)

  function CreateOutcome(c: CommitContext, st: CommitState, e: Entity, t: Tick): Outcome {
    if OverTotalQuota(c, st) then Refused(OverQuota)
    else if KindOf(e).History? && !WithinHistoryQuota(c, st) then Applied(st.db, 0, false)
    else
      var (conflict, err) := InsertAnswer(st.db, e, t.writeFails, c.backend);
      if err then Refused(if conflict then Conflict else TransientError)
      else Applied(Inserted(st.db, e), 1, true)
  }

  function UpdateOutcome(c: CommitContext, st: CommitState, e: Entity, base: int, t: Tick): Outcome {
    if t.writeFails then Refused(TransientError)
    else if !UpdateAccepted(st.db, e, base) then Refused(Conflict)
    else Applied(Updated(st.db, e, base), if ReportsDelete(st.db, e, c.backend) then -1 else 0, false)
  }

  function OutcomeOf(c: CommitContext, st: CommitState, e: Entity, base: int, t: Tick): Outcome {
    if IsHistoryType(e) && t.hasItemFails then Refused(TransientError)
    else if IsUpdateOp(st.db, e, base) then UpdateOutcome(c, st, e, base, t)
    else CreateOutcome(c, st, e, t)
  }

  function MappedId(st: CommitState, e: Entity, created: bool): map<string, string> {
    if created && e.clientItemId.Some? then st.idMap[e.clientItemId.value := e.id] else st.idMap
  }

  /** Counting a write in the cache; without a difference to count nothing is touched. */
  function CountedIn(c: CommitContext, st: CommitState, e: Entity, delta: int, t: Tick): Counted {
    if delta == 0 then Counted(st.kv, Some(if KindOf(e).History? then st.newHistory else st.newNormal))
    else Bumped(st.kv, c.client, KindOf(e), delta < 0, t.now)
  }

  function Settled(c: CommitContext, st: CommitState, e: Entity, o: Outcome, t: Tick): CommitState {
    match o
    case Refused(reply) => st.(replies := st.replies + [reply])
    case Applied(db, delta, created) =>
      var n := CountedIn(c, st, e, delta, t);
      var st1 := st.(db := db, kv := n.kv, idMap := MappedId(st, e, created));
      if n.value.None? then st1.(failed := true)
      else
        st1.(
          newHistory := if KindOf(e).History? then n.value.value else st.newHistory,
          newNormal := if KindOf(e).Normal? then n.value.value else st.newNormal,
          typeMtime := st.typeMtime[GetOr(e.dataType, 0) := t.now],
          replies := st.replies + [Success(e.id, t.now, t.now)])
  }

  /** One iteration of the loop over the entries. */
  function CommitEntry(c: CommitContext, st: CommitState, pb: PbEntity, t: Tick): CommitState
    requires Addressable(pb)
  {
    if st.failed then st
    else
      var e := Prepared(c, st, pb, t);
      if e.None? then st.(replies := st.replies + [InvalidMessage])
      else Settled(c, st, e.value, OutcomeOf(c, st, e.value, pb.version.value, t), t)
  }

  /** History is filed under its tag: two entries with one tag share their row whatever ids
      they carry, so once the first is stored the second is an update of it. */
  lemma HistoryTagIsIdentity(c: CommitContext, st: CommitState, pb: PbEntity, t: Tick,
                             st': CommitState, pb': PbEntity, t': Tick)
    requires Addressable(pb) && Addressable(pb') && ValidPbEntity(pb) && ValidPbEntity(pb')
    requires pb.specifics.value.variant == HISTORY_TYPE_ID == pb'.specifics.value.variant
    ensures var e, e' := Prepared(c, st, pb, t).value, Prepared(c, st', pb', t').value;
            && (KeyOf(e) == KeyOf(e') <==> pb.clientTagHash == pb'.clientTagHash)
            && (pb.clientTagHash == pb'.clientTagHash && KeyOf(e) in st'.db.rows ==>
                  IsUpdateOp(st'.db, e', pb'.version.value) && UpdateAccepted(st'.db, e', pb'.version.value))
  {
  }

  /** A create from a named device gets the fresh id, so it can only conflict over its tag. */
  lemma FreshCreateConflictsOnTagOnly(c: CommitContext, st: CommitState, pb: PbEntity, t: Tick)
    requires Addressable(pb) && ValidPbEntity(pb) && pb.version == Some(0) && c.cacheGuid.Some?
    requires pb.specifics.value.variant != HISTORY_TYPE_ID && Key(c.client, t.uuid) !in st.db.rows
    ensures var e := Prepared(c, st, pb, t).value;
            && !IsUpdateOp(st.db, e, 0) && e.clientItemId == pb.idString
            && (InsertConflicts(st.db, e) <==>
                  pb.clientTagHash.Some? && ClientTagKey(c.client, pb.clientTagHash.value) in st.db.tags)
  {
    var e := Prepared(c, st, pb, t).value;
    if UsesTag(e) {
      var tag := ClientTagKey(c.client, pb.clientTagHash.value);
      assert OwnTag(e) == {tag};
      assert tag in st.db.tags ==> tag in OwnTag(e) * st.db.tags;
    }
  }

  /** What an entry writes: nothing, its insert, or its update, stamped with the clock. */
  lemma EntryWrites(c: CommitContext, st: CommitState, pb: PbEntity, t: Tick)
    requires Addressable(pb)
    ensures var e, after := Prepared(c, st, pb, t), CommitEntry(c, st, pb, t).db;
            && (e.Some? ==> e.value.clientId == c.client && e.value.mtime == Some(t.now)
                            && e.value.version == Some(t.now) && e.value.dataType.Some?)
            && (after == st.db
                || (e.Some? && after == Inserted(st.db, e.value))
                || (e.Some? && after == Updated(st.db, e.value, pb.version.value)))
  {
    var e := Prepared(c, st, pb, t);
    if e.Some? {
      var o := OutcomeOf(c, st, e.value, pb.version.value, t);
      assert Settled(c, st, e.value, o, t).db == if o.Applied? then o.db else st.db;
    }
  }

  lemma EntryKeyed(c: CommitContext, st: CommitState, pb: PbEntity, t: Tick)
    requires Addressable(pb) && KeyedRows(st.db)
    ensures KeyedRows(CommitEntry(c, st, pb, t).db)
  {
    EntryWrites(c, st, pb, t);
  }

  predicate AllAddressable(entries: seq<PbEntity>) {
    forall i :: 0 <= i < |entries| ==> Addressable(entries[i])
  }

  function CommitUpto(c: CommitContext, st0: CommitState, entries: seq<PbEntity>, ticks: seq<Tick>, n: nat): CommitState
    requires n <= |entries| && n <= |ticks| && AllAddressable(entries)
  {
    if n == 0 then st0
    else CommitEntry(c, CommitUpto(c, st0, entries, ticks, n - 1), entries[n - 1], ticks[n - 1])
  }

  // ---- the whole request ----

  datatype World = World(db: DB, kv: KV)

  /** What a commit meets: clock readings at the start, per entry and at the end, and which
      of the count operations fail in the database. */
  datatype CommitEnv = CommitEnv(start: int, ticks: seq<Tick>, end: int, countsFail: bool, saveFails: bool)

  datatype CommitResponse = CommitResponse(status: Status, replies: seq<Reply>)

  lemma TypeMtimeKeysDiffer(client: ClientId)
    ensures forall t, t' {:trigger TypeMtimeKey(client, t), TypeMtimeKey(client, t')} ::
              TypeMtimeKey(client, t) == TypeMtimeKey(client, t') ==> t == t'
  {
    forall t, t' | TypeMtimeKey(client, t) == TypeMtimeKey(client, t') ensures t == t' {
      TypeMtimeKeyInjective(client, t, client, t');
    }
  }

  function Stamps(client: ClientId, mtimes: map<int, int>, now: int): KV {
    TypeMtimeKeysDiffer(client);
    map t | t in mtimes :: TypeMtimeKey(client, t) := MemoryValue(Itoa(mtimes[t]), Some(now + TTL))
  }

  /** The cache after the newest mtime of every committed type was stored. */
  function Stamped(kv: KV, client: ClientId, mtimes: map<int, int>, now: int): KV {
    kv + Stamps(client, mtimes, now)
  }

  function LoopStart(w: World, newNormal: int, newHistory: int): CommitState {
    CommitState(w.db, w.kv, map[], map[], newNormal, newHistory, [], false)
  }

  function ContextOf(w: World, client: ClientId, msg: CommitMsg, env: CommitEnv, backend: Backend): CommitContext {
    var counts := LoadedCounts(w.db, client, env.start / 1000);
    CommitContext(client, msg.cacheGuid, counts.items, HistorySum(counts), backend)
  }

  /** After the loop: drain both interim counters, stamp the types, save the counts. */
  function Finished(w: World, st: CommitState, client: ClientId, env: CommitEnv): (World, CommitResponse) {
    var normal := InterimCount(st.kv, client, Normal, true, env.end);
    var history := InterimCount(normal.kv, client, History, true, env.end);
    if normal.value.None? then (World(st.db, normal.kv), CommitResponse(Transient, st.replies))
    else if history.value.None? then (World(st.db, history.kv), CommitResponse(Transient, st.replies))
    else
      var kv := Stamped(history.kv, client, st.typeMtime, env.end);
      var counts := Added(LoadedCounts(w.db, client, env.start / 1000), normal.value.value, history.value.value);
      (World(if env.saveFails then st.db else st.db.(counts := st.db.counts[client := counts]), kv),
       CommitResponse(Ok, st.replies))
  }

  /** The end of a commit writes nothing but the client's counts. */
  lemma FinishWrites(w: World, st: CommitState, client: ClientId, env: CommitEnv)
    ensures var db := Finished(w, st, client, env).0.db;
            db == st.db || (client in db.counts && db == st.db.(counts := st.db.counts[client := db.counts[client]]))
  {
  }

  predicate ValidCommit(msg: CommitMsg, env: CommitEnv) {
    AllAddressable(msg.entries) && |env.ticks| == |msg.entries|
  }

  function Committed(w: World, client: ClientId, msg: CommitMsg, env: CommitEnv, backend: Backend)
    : (World, CommitResponse)
    requires ValidCommit(msg, env)
  {
    if msg.entries == [] then (w, CommitResponse(Ok, []))
    else if env.countsFail then (w, CommitResponse(Transient, []))
    else
      var normal := InterimCount(w.kv, client, Normal, false, env.start);
      var history := InterimCount(normal.kv, client, History, false, env.start);
      if normal.value.None? then (w.(kv := normal.kv), CommitResponse(Transient, []))
      else if history.value.None? then (w.(kv := history.kv), CommitResponse(Transient, []))
      else
        var c := ContextOf(w, client, msg, env, backend);
        var st := CommitUpto(c, LoopStart(w.(kv := history.kv), normal.value.value, history.value.value),
                             msg.entries, env.ticks, |msg.entries|);
        if st.failed then (World(st.db, st.kv), CommitResponse(Transient, st.replies))
        else Finished(w, st, client, env)
  }
}
