/** The item count against the rows it is meant to count. */
module Agreement {
  import opened Basics
  import opened SyncEntities
  import opened Cache
  import opened Tables
  import opened Commit
  import opened Quota

  /** A live row a client created that the normal count is about. */
  predicate Countable(e: Entity, client: ClientId) {
    && e.clientId == client && e.dataType.Some? && !IsHistoryRelated(e.dataType.value)
    && !IsDeleted(e) && e.serverTag.None?
  }

  function CountableKeys(db: DB, client: ClientId): set<Key> {
    set k | k in db.rows && Countable(db.rows[k], client)
  }

  /** What an orderly client sends: creates are live and carry no server tag; an accepted
      update has the row's own type, undeletes nothing and deletes no server-defined row. */
  predicate Orderly(c: CommitContext, st: CommitState, pb: PbEntity, t: Tick)
    requires Addressable(pb)
  {
    var e := Prepared(c, st, pb, t);
    e.Some? ==>
      if IsUpdateOp(st.db, e.value, pb.version.value) then
        UpdateAccepted(st.db, e.value, pb.version.value) ==>
          var row := st.db.rows[KeyOf(e.value)];
          && e.value.dataType == row.dataType
          && (IsDeleted(row) ==> e.value.deleted.None? || e.value.deleted.value)
          && (ReportsDelete(st.db, e.value, c.backend) ==> row.serverTag.None?)
      else !IsDeleted(e.value) && e.value.serverTag.None?
  }

  /** A normal create that ran into a conflict and was counted all the same. */
  predicate Swallowed(c: CommitContext, st: CommitState, pb: PbEntity, t: Tick)
    requires Addressable(pb)
  {
    var e := Prepared(c, st, pb, t);
    && e.Some? && KindOf(e.value).Normal? && InsertConflicts(st.db, e.value)
    && var o := OutcomeOf(c, st, e.value, pb.version.value, t);
       o.Applied? && o.created
  }

  /** A normal row that was deleted already and whose deletion is reported, and counted, again. */
  predicate Repeated(c: CommitContext, st: CommitState, pb: PbEntity, t: Tick)
    requires Addressable(pb)
  {
    var e := Prepared(c, st, pb, t);
    && e.Some? && KindOf(e.value).Normal? && RepeatsDelete(st.db, e.value, c.backend)
    && IsUpdateOp(st.db, e.value, pb.version.value)
    && OutcomeOf(c, st, e.value, pb.version.value, t).Applied?
  }

  lemma KeyAdded(db: DB, after: DB, e: Entity)
    requires KeyOf(e) !in db.rows && after.rows == db.rows[KeyOf(e) := e]
    ensures CountableKeys(after, e.clientId)
            == CountableKeys(db, e.clientId) + (if Countable(e, e.clientId) then {KeyOf(e)} else {})
  {
  }

  lemma RowAdded(db: DB, after: DB, e: Entity)
    requires KeyOf(e) !in db.rows && after.rows == db.rows[KeyOf(e) := e]
    ensures |CountableKeys(after, e.clientId)|
            == |CountableKeys(db, e.clientId)| + (if Countable(e, e.clientId) then 1 else 0)
  {
    KeyAdded(db, after, e);
    assert KeyOf(e) !in CountableKeys(db, e.clientId);
  }

  lemma InsertCountable(db: DB, e: Entity)
    requires !InsertConflicts(db, e)
    ensures |CountableKeys(Inserted(db, e), e.clientId)|
            == |CountableKeys(db, e.clientId)| + (if Countable(e, e.clientId) then 1 else 0)
  {
    RowAdded(db, Inserted(db, e), e);
  }

  // ---- what goes wrong ----

  /** A counted create adds one to the count; here, one without a countable row to show for it. */
  function CreateError(db: DB, e: Entity): int {
    if KindOf(e).Normal? && (InsertConflicts(db, e) || !Countable(e, e.clientId)) then 1 else 0
  }

  /** A countable row is deleted under a history type, and so not counted out. */
  predicate DeletesUncounted(row: Entity, e: Entity) {
    Countable(row, e.clientId) && IsDeleted(e) && KindOf(e).History?
  }

  /** A delete is counted of a row that was not countable. */
  predicate CountsNothingDeleted(db: DB, row: Entity, e: Entity, backend: Backend) {
    KindOf(e).Normal? && ReportsDelete(db, e, backend) && !Countable(row, e.clientId)
  }

  /** A row comes to life again, which is not counted. */
  predicate RevivesUncounted(row: Entity, e: Entity) {
    !Countable(row, e.clientId) && Countable(Overlay(row, e), e.clientId)
  }

  /** By how much an accepted update leaves the count above the rows. */
  function UpdateError(db: DB, e: Entity, backend: Backend): int
    requires KeyOf(e) in db.rows
  {
    var row := db.rows[KeyOf(e)];
    if DeletesUncounted(row, e) then 1
    else if CountsNothingDeleted(db, row, e, backend) || RevivesUncounted(row, e) then -1
    else 0
  }

  lemma SizeWithout(s: set<Key>, k: Key)
    ensures |s| == |s - {k}| + (if k in s then 1 else 0)
  {
    if k in s { assert s == (s - {k}) + {k}; } else { assert s == s - {k}; }
  }

  lemma RowReplaced(db: DB, after: DB, k: Key, row: Entity, client: ClientId)
    requires k in db.rows && after.rows == db.rows[k := row]
    ensures |CountableKeys(after, client)|
            == |CountableKeys(db, client)| - (if Countable(db.rows[k], client) then 1 else 0)
               + (if Countable(row, client) then 1 else 0)
  {
    var before, now := CountableKeys(db, client), CountableKeys(after, client);
    assert now - {k} == before - {k};
    SizeWithout(before, k);
    SizeWithout(now, k);
  }

  lemma UpdateCountable(db: DB, e: Entity, base: int, backend: Backend)
    requires KeyedRows(db) && UpdateAccepted(db, e, base)
    ensures |CountableKeys(Updated(db, e, base), e.clientId)|
            == |CountableKeys(db, e.clientId)|
               - (if ReportsDelete(db, e, backend) && KindOf(e).Normal? then 1 else 0)
               - UpdateError(db, e, backend)
  {
    RowReplaced(db, Updated(db, e, base), KeyOf(e), Overlay(db.rows[KeyOf(e)], e), e.clientId);
  }

  /** By how much one entry leaves the normal count above the rows it is about. */
  function EntryError(c: CommitContext, st: CommitState, pb: PbEntity, t: Tick): int
    requires Addressable(pb)
  {
    var e := Prepared(c, st, pb, t);
    if e.None? then 0
    else
      match OutcomeOf(c, st, e.value, pb.version.value, t)
      case Refused(_) => 0
      case Applied(_, _, created) =>
        if IsUpdateOp(st.db, e.value, pb.version.value) then UpdateError(st.db, e.value, c.backend)
        else if created then CreateError(st.db, e.value)
        else 0
  }

  lemma CountingNeverFails(c: CommitContext, st: CommitState, e: Entity, o: Outcome, t: Tick)
    requires Tracks(c, st) && (o.Applied? ==> -1 <= o.delta <= 1)
    ensures Settled(c, st, e, o, t).db == if o.Applied? then o.db else st.db
  {
  }

  /** Whatever the client sends, one entry changes the count and the countable rows alike but for the
      error of that entry: a create counted without a new countable row, a countable row deleted
      without being counted out, a delete counted of a row that is not countable, or a row revived. */
  lemma EntryErrs(c: CommitContext, st: CommitState, pb: PbEntity, t: Tick)
    requires Addressable(pb) && KeyedRows(st.db) && Tracks(c, st)
    ensures |CountableKeys(CommitEntry(c, st, pb, t).db, c.client)| + EntryError(c, st, pb, t)
            == |CountableKeys(st.db, c.client)| + EntryDelta(c, st, pb, t, Normal)
  {
    var e := Prepared(c, st, pb, t);
    if e.Some? {
      var base := pb.version.value;
      var o := OutcomeOf(c, st, e.value, base, t);
      CountingNeverFails(c, st, e.value, o, t);
      if o.Applied? && IsUpdateOp(st.db, e.value, base) {
        UpdateCountable(st.db, e.value, base, c.backend);
      } else if o.Applied? && o.created && !InsertConflicts(st.db, e.value) {
        InsertCountable(st.db, e.value);
      }
    }
  }

  lemma OrderlyUpdateErrors(db: DB, e: Entity, backend: Backend)
    requires KeyedRows(db) && KeyOf(e) in db.rows && e.dataType.Some? && e.dataType == db.rows[KeyOf(e)].dataType
    requires IsDeleted(db.rows[KeyOf(e)]) ==> e.deleted.None? || e.deleted.value
    requires ReportsDelete(db, e, backend) ==> db.rows[KeyOf(e)].serverTag.None?
    ensures UpdateError(db, e, backend) == (if KindOf(e).Normal? && RepeatsDelete(db, e, backend) then -1 else 0)
  {
  }

  /** Of these an orderly entry makes two: a swallowed conflict and a repeated delete. */
  lemma OrderlyErrors(c: CommitContext, st: CommitState, pb: PbEntity, t: Tick)
    requires Addressable(pb) && KeyedRows(st.db) && Orderly(c, st, pb, t)
    ensures EntryError(c, st, pb, t)
            == (if Swallowed(c, st, pb, t) then 1 else 0) - (if Repeated(c, st, pb, t) then 1 else 0)
  {
    var e := Prepared(c, st, pb, t);
    if e.Some? && OutcomeOf(c, st, e.value, pb.version.value, t).Applied? {
      if IsUpdateOp(st.db, e.value, pb.version.value) { OrderlyUpdateErrors(st.db, e.value, c.backend); }
    }
  }

  /** One orderly entry changes the count and the countable rows alike, but for a swallowed conflict,
      which is counted without adding a row, and a repeated delete, which is counted without
      removing one. */
  lemma EntryAgrees(c: CommitContext, st: CommitState, pb: PbEntity, t: Tick)
    requires Addressable(pb) && KeyedRows(st.db) && Tracks(c, st) && Orderly(c, st, pb, t)
    ensures |CountableKeys(CommitEntry(c, st, pb, t).db, c.client)| + (if Swallowed(c, st, pb, t) then 1 else 0)
            == |CountableKeys(st.db, c.client)| + EntryDelta(c, st, pb, t, Normal)
               + (if Repeated(c, st, pb, t) then 1 else 0)
  {
    EntryErrs(c, st, pb, t);
    OrderlyErrors(c, st, pb, t);
  }

  function ErrorUpto(c: CommitContext, st0: CommitState, entries: seq<PbEntity>, ticks: seq<Tick>, n: nat): int
    requires n <= |entries| && n <= |ticks| && AllAddressable(entries)
  {
    if n == 0 then 0
    else ErrorUpto(c, st0, entries, ticks, n - 1)
         + EntryError(c, CommitUpto(c, st0, entries, ticks, n - 1), entries[n - 1], ticks[n - 1])
  }

  function SwallowedUpto(c: CommitContext, st0: CommitState, entries: seq<PbEntity>, ticks: seq<Tick>, n: nat): nat
    requires n <= |entries| && n <= |ticks| && AllAddressable(entries)
  {
    if n == 0 then 0
    else SwallowedUpto(c, st0, entries, ticks, n - 1)
         + (if Swallowed(c, CommitUpto(c, st0, entries, ticks, n - 1), entries[n - 1], ticks[n - 1]) then 1 else 0)
  }

  function RepeatedUpto(c: CommitContext, st0: CommitState, entries: seq<PbEntity>, ticks: seq<Tick>, n: nat): nat
    requires n <= |entries| && n <= |ticks| && AllAddressable(entries)
  {
    if n == 0 then 0
    else RepeatedUpto(c, st0, entries, ticks, n - 1)
         + (if Repeated(c, CommitUpto(c, st0, entries, ticks, n - 1), entries[n - 1], ticks[n - 1]) then 1 else 0)
  }

  predicate OrderlyUpto(c: CommitContext, st0: CommitState, entries: seq<PbEntity>, ticks: seq<Tick>, n: nat)
    requires n <= |entries| && n <= |ticks| && AllAddressable(entries)
  {
    n == 0 || (OrderlyUpto(c, st0, entries, ticks, n - 1)
               && Orderly(c, CommitUpto(c, st0, entries, ticks, n - 1), entries[n - 1], ticks[n - 1]))
  }

  /** Over the loop: count and rows move apart by the sum of the errors. */
  lemma {:induction false} LoopErrs(c: CommitContext, st0: CommitState, entries: seq<PbEntity>, ticks: seq<Tick>,
                                    n: nat)
    requires n <= |entries| && n <= |ticks| && AllAddressable(entries)
    requires KeyedRows(st0.db) && Tracks(c, st0)
    ensures var st := CommitUpto(c, st0, entries, ticks, n);
            && KeyedRows(st.db)
            && |CountableKeys(st.db, c.client)| + ErrorUpto(c, st0, entries, ticks, n)
               == |CountableKeys(st0.db, c.client)| + NetDelta(c, st0, entries, ticks, n, Normal)
    decreases n
  {
    if n > 0 {
      var st := CommitUpto(c, st0, entries, ticks, n - 1);
      LoopErrs(c, st0, entries, ticks, n - 1);
      LoopCounts(c, st0, entries, ticks, n - 1);
      EntryKeyed(c, st, entries[n - 1], ticks[n - 1]);
      EntryErrs(c, st, entries[n - 1], ticks[n - 1]);
    }
  }

  lemma {:induction false} OrderlyLoopErrors(c: CommitContext, st0: CommitState, entries: seq<PbEntity>,
                                             ticks: seq<Tick>, n: nat)
    requires n <= |entries| && n <= |ticks| && AllAddressable(entries)
    requires KeyedRows(st0.db) && Tracks(c, st0) && OrderlyUpto(c, st0, entries, ticks, n)
    ensures ErrorUpto(c, st0, entries, ticks, n)
            == SwallowedUpto(c, st0, entries, ticks, n) - RepeatedUpto(c, st0, entries, ticks, n)
    decreases n
  {
    if n > 0 {
      OrderlyLoopErrors(c, st0, entries, ticks, n - 1);
      LoopErrs(c, st0, entries, ticks, n - 1);
      OrderlyErrors(c, CommitUpto(c, st0, entries, ticks, n - 1), entries[n - 1], ticks[n - 1]);
    }
  }

  lemma LoopAgrees(c: CommitContext, st0: CommitState, entries: seq<PbEntity>, ticks: seq<Tick>, n: nat)
    requires n <= |entries| && n <= |ticks| && AllAddressable(entries)
    requires KeyedRows(st0.db) && Tracks(c, st0) && OrderlyUpto(c, st0, entries, ticks, n)
    ensures var st := CommitUpto(c, st0, entries, ticks, n);
            && KeyedRows(st.db)
            && |CountableKeys(st.db, c.client)| + SwallowedUpto(c, st0, entries, ticks, n)
               == |CountableKeys(st0.db, c.client)| + NetDelta(c, st0, entries, ticks, n, Normal)
                  + RepeatedUpto(c, st0, entries, ticks, n)
  {
    LoopErrs(c, st0, entries, ticks, n);
    OrderlyLoopErrors(c, st0, entries, ticks, n);
  }

  /** Each store makes only one of the two errors: SQLite repeats no delete report, DynamoDB
      swallows no conflict. */
  lemma {:induction false} OneErrorPerStore(c: CommitContext, st0: CommitState, entries: seq<PbEntity>,
                                            ticks: seq<Tick>, n: nat)
    requires n <= |entries| && n <= |ticks| && AllAddressable(entries)
    ensures c.backend.SQLite? ==> RepeatedUpto(c, st0, entries, ticks, n) == 0
    ensures c.backend.DynamoDB? ==> SwallowedUpto(c, st0, entries, ticks, n) == 0
    decreases n
  {
    if n > 0 { OneErrorPerStore(c, st0, entries, ticks, n - 1); }
  }
}
