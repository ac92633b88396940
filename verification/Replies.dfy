/** What a commit answers, entry by entry, in terms of the rows, the tags and the numbers it meets
    (command/command.go, handleCommitRequest; datastore/sync_entity.go). */
module Replies {
  import opened Basics
  import opened Decimal
  import opened SyncEntities
  import opened Cache
  import opened Tables
  import opened Commit
  import opened Quota
  import opened Server

  // ---- what an entry meets ----

  predicate Complete(pb: PbEntity) {
    pb.idString.Some? && pb.version.Some? && pb.specifics.Some?
  }

  /** The history type. */
  predicate OfHistory(pb: PbEntity)
    requires Complete(pb)
  {
    pb.specifics.value.variant == 963985
  }

  /** History and history delete directives. */
  predicate HistoryRelated(pb: PbEntity)
    requires Complete(pb)
  {
    pb.specifics.value.variant == 963985 || pb.specifics.value.variant == 150251
  }

  /** History sits under its tag; a device's create gets the generated id, the rest keep their own. */
  function RowKey(c: CommitContext, pb: PbEntity, t: Tick): Key
    requires Complete(pb) && Addressable(pb)
  {
    Key(c.client,
        if OfHistory(pb) then pb.clientTagHash.value
        else if pb.version.value == 0 && c.cacheGuid.Some? then t.uuid
        else pb.idString.value)
  }

  /** The entry asks for a new row: history if it has none yet, the rest by version 0. */
  predicate AsksNew(c: CommitContext, st: CommitState, pb: PbEntity, t: Tick)
    requires Complete(pb) && Addressable(pb)
  {
    if OfHistory(pb) then RowKey(c, pb, t) !in st.db.rows else pb.version.value == 0
  }

  predicate LookupFails(pb: PbEntity, t: Tick)
    requires Complete(pb)
  {
    OfHistory(pb) && t.hasItemFails
  }

  /** What the client stores and what the loop has counted, against 50000 items and the part of the
      history beyond 30000, up to 20000. */
  predicate NoRoom(c: CommitContext, st: CommitState) {
    c.items + c.history + st.newNormal + st.newHistory
    >= 50000 + (if c.history <= 30000 then 0 else if c.history <= 50000 then c.history - 30000 else 20000)
  }

  predicate NoHistoryRoom(c: CommitContext, st: CommitState, pb: PbEntity)
    requires Complete(pb)
  {
    HistoryRelated(pb) && c.history + st.newHistory >= 30000
  }

  /** The entry claims a tag. */
  predicate Tagged(pb: PbEntity)
    requires Complete(pb)
  {
    pb.clientTagHash.Some? && !OfHistory(pb)
  }

  function TagKeys(c: CommitContext, pb: PbEntity): set<Key>
    requires Complete(pb)
  {
    if Tagged(pb) then {Key(c.client, "Client#" + pb.clientTagHash.value)} else {}
  }

  /** The id or the tag of the new row is in use. */
  predicate Taken(c: CommitContext, st: CommitState, pb: PbEntity, t: Tick)
    requires Complete(pb) && Addressable(pb)
  {
    || RowKey(c, pb, t) in st.db.rows
    || (Tagged(pb) && Key(c.client, "Client#" + pb.clientTagHash.value) in st.db.tags)
  }

  /** The row is missing or has another version than the one the update names. */
  predicate Outdated(c: CommitContext, st: CommitState, pb: PbEntity, t: Tick)
    requires Complete(pb) && Addressable(pb)
  {
    var k := RowKey(c, pb, t);
    k !in st.db.rows || (!OfHistory(pb) && st.db.rows[k].version != pb.version)
  }

  // ---- what it is answered ----

  /** The reply as a decision on all of that. */
  predicate Answers(c: CommitContext, st: CommitState, pb: PbEntity, t: Tick, r: Reply)
    requires Addressable(pb)
  {
    if !Complete(pb) then r == InvalidMessage
    else
      && !r.InvalidMessage?
      && (r.OverQuota? <==> !LookupFails(pb, t) && AsksNew(c, st, pb, t) && NoRoom(c, st))
      && (r.Conflict? <==>
            !LookupFails(pb, t) && !t.writeFails
            && if AsksNew(c, st, pb, t) then
                 !NoRoom(c, st) && !NoHistoryRoom(c, st, pb)
                 && Taken(c, st, pb, t) && Tagged(pb) && c.backend.DynamoDB?
               else Outdated(c, st, pb, t))
      && (r.TransientError? <==>
            || LookupFails(pb, t)
            || if AsksNew(c, st, pb, t) then
                 !NoRoom(c, st) && !NoHistoryRoom(c, st, pb)
                 && (t.writeFails || (Taken(c, st, pb, t) && !Tagged(pb) && c.backend.DynamoDB?))
               else t.writeFails)
      && (r.Success? ==> r == Success(RowKey(c, pb, t).id, t.now, t.now))
  }

  /** The row the entry leaves: its own specifics and range key, stamped with the clock. */
  predicate Holds(db: DB, k: Key, pb: PbEntity, t: Tick)
    requires Complete(pb)
  {
    && k in db.rows && db.rows[k].clientId == k.client && db.rows[k].id == k.id
    && db.rows[k].version == Some(t.now) && db.rows[k].mtime == Some(t.now) && db.rows[k].specifics == pb.specifics
    && db.rows[k].dataTypeMtime == Some(Itoa(pb.specifics.value.variant) + "#" + Itoa(t.now))
  }

  /** Its parent is the id that an earlier entry of the commit was given, if it names one, or its own. */
  function ParentGiven(st: CommitState, pb: PbEntity): Option<string> {
    if pb.parentId.Some? && pb.parentId.value in st.idMap then Some(st.idMap[pb.parentId.value]) else pb.parentId
  }

  function Given<T>(column: Option<T>, otherwise: Option<T>): Option<T> {
    if column.Some? then column else otherwise
  }

  /** The other columns of a new row. A create is live and no folder unless it says otherwise; the device
      is the one that commits, with its own id for the entity. */
  predicate IsNewRow(row: Entity, c: CommitContext, st: CommitState, pb: PbEntity, t: Tick)
    requires Complete(pb)
  {
    var byDefault := if pb.version == Some(0) then Some(false) else None;
    && row.dataType == Some(pb.specifics.value.variant)
    && row.parentId == ParentGiven(st, pb) && row.ctime == Given(pb.ctime, Some(t.now))
    && row.name == pb.name && row.nonUniqueName == pb.nonUniqueName && row.uniquePosition == pb.uniquePosition
    && row.serverTag == pb.serverTag && row.clientTag == pb.clientTagHash
    && row.deleted == Given(pb.deleted, byDefault) && row.folder == Given(pb.folder, byDefault)
    && row.cacheGuid == c.cacheGuid && row.clientItemId == (if c.cacheGuid.Some? then pb.idString else None)
    && row.expirationTime == (if HistoryRelated(pb) then Some(t.now / 1000 + 1209600) else None)
  }

  /** The other columns of a changed row: what the entry carries, and otherwise what was there. */
  predicate IsChangedRow(was: Entity, row: Entity, st: CommitState, pb: PbEntity)
    requires Complete(pb)
  {
    var byDefault := if pb.version == Some(0) then Some(false) else None;
    && row.parentId == Given(ParentGiven(st, pb), was.parentId) && row.name == Given(pb.name, was.name)
    && row.nonUniqueName == Given(pb.nonUniqueName, was.nonUniqueName)
    && row.uniquePosition == Given(pb.uniquePosition, was.uniquePosition)
    && row.deleted == Given(Given(pb.deleted, byDefault), was.deleted)
    && row.folder == Given(Given(pb.folder, byDefault), was.folder)
    && row.dataType == was.dataType && row.ctime == was.ctime && row.expirationTime == was.expirationTime
    && row.serverTag == was.serverTag && row.clientTag == was.clientTag
    && row.cacheGuid == was.cacheGuid && row.clientItemId == was.clientItemId
  }

  /** Only the row of that key differs. */
  predicate OnlyRow(db: DB, after: DB, k: Key) {
    k in after.rows && after.rows == db.rows[k := after.rows[k]] && after.counts == db.counts
  }

  predicate Counted(st: CommitState, after: CommitState, pb: PbEntity, delta: int)
    requires Complete(pb)
  {
    && after.newHistory == st.newHistory + (if HistoryRelated(pb) then delta else 0)
    && after.newNormal == st.newNormal + (if HistoryRelated(pb) then 0 else delta)
  }

  /** A live row is deleted; DynamoDB takes any delete of a tagged entity for one. */
  predicate CountsDelete(c: CommitContext, st: CommitState, pb: PbEntity, t: Tick)
    requires Complete(pb) && Addressable(pb)
  {
    var k := RowKey(c, pb, t);
    && k in st.db.rows && pb.deleted == Some(true)
    && (st.db.rows[k].deleted.None? || !st.db.rows[k].deleted.value || (c.backend.DynamoDB? && Tagged(pb)))
  }

  /** What is behind the reply. Success: the row is there as committed, and a new one is counted; but
      history beyond its quota, and SQLite's conflicts, are answered so without a row. Anything else: the
      tables and the counts are as before. */
  predicate Honours(c: CommitContext, st: CommitState, pb: PbEntity, t: Tick, r: Reply, after: CommitState)
    requires Addressable(pb)
  {
    if !Complete(pb) || !r.Success? then
      after.db == st.db && after.newNormal == st.newNormal && after.newHistory == st.newHistory
    else if !AsksNew(c, st, pb, t) then
      && Holds(after.db, RowKey(c, pb, t), pb, t) && OnlyRow(st.db, after.db, RowKey(c, pb, t))
      && RowKey(c, pb, t) in st.db.rows
      && IsChangedRow(st.db.rows[RowKey(c, pb, t)], after.db.rows[RowKey(c, pb, t)], st, pb)
      && after.db.tags == st.db.tags - (if pb.deleted == Some(true) then TagKeys(c, pb) else {})
      && Counted(st, after, pb, if CountsDelete(c, st, pb, t) then -1 else 0)
    else if NoHistoryRoom(c, st, pb) then after.db == st.db && Counted(st, after, pb, 0)
    else if Taken(c, st, pb, t) then c.backend.SQLite? && after.db == st.db && Counted(st, after, pb, 1)
    else
      && Holds(after.db, RowKey(c, pb, t), pb, t) && OnlyRow(st.db, after.db, RowKey(c, pb, t))
      && IsNewRow(after.db.rows[RowKey(c, pb, t)], c, st, pb, t)
      && after.db.tags == st.db.tags + TagKeys(c, pb)
      && Counted(st, after, pb, 1)
  }

  function LastReply(st: CommitState): Reply
    requires st.replies != []
  {
    st.replies[|st.replies| - 1]
  }

  // ---- one entry ----

  lemma PreparedEntry(c: CommitContext, st: CommitState, pb: PbEntity, t: Tick)
    requires Addressable(pb)
    ensures Prepared(c, st, pb, t).Some? <==> Complete(pb)
    ensures Complete(pb) ==>
              var e := Prepared(c, st, pb, t).value;
              && KeyOf(e) == RowKey(c, pb, t) && e.clientId == c.client && e.specifics == pb.specifics
              && e.version == Some(t.now) && e.mtime == Some(t.now) && e.dataType == Some(pb.specifics.value.variant)
              && e.clientTag == pb.clientTagHash
              && (pb.version.value != 0 || OfHistory(pb) ==> (e.deleted == Some(true) <==> pb.deleted == Some(true)))
  {
  }

  lemma TakenIsConflict(c: CommitContext, st: CommitState, pb: PbEntity, t: Tick)
    requires Addressable(pb) && Complete(pb)
    ensures InsertConflicts(st.db, Prepared(c, st, pb, t).value) <==> Taken(c, st, pb, t)
  {
    PreparedEntry(c, st, pb, t);
    var e := Prepared(c, st, pb, t).value;
    if UsesTag(e) {
      var tag := ClientTagKey(c.client, pb.clientTagHash.value);
      assert OwnTag(e) == {tag};
      assert tag in st.db.tags ==> tag in OwnTag(e) * st.db.tags;
    }
  }

  lemma NewRowOutcome(c: CommitContext, st: CommitState, pb: PbEntity, t: Tick)
    requires Addressable(pb) && Complete(pb) && !LookupFails(pb, t) && AsksNew(c, st, pb, t)
    ensures var e, taken := Prepared(c, st, pb, t).value, Taken(c, st, pb, t);
            OutcomeOf(c, st, e, pb.version.value, t)
            == if NoRoom(c, st) then Refused(OverQuota)
               else if NoHistoryRoom(c, st, pb) then Applied(st.db, 0, false)
               else if t.writeFails then Refused(TransientError)
               else if taken && c.backend.DynamoDB? then Refused(if Tagged(pb) then Conflict else TransientError)
               else if taken then Applied(st.db, 1, true)
               else Applied(st.db.(rows := st.db.rows[RowKey(c, pb, t) := e], tags := st.db.tags + OwnTag(e)), 1, true)
  {
    PreparedEntry(c, st, pb, t);
    var e := Prepared(c, st, pb, t).value;
    TakenIsConflict(c, st, pb, t);
  }

  lemma ChangedRowOutcome(c: CommitContext, st: CommitState, pb: PbEntity, t: Tick)
    requires Addressable(pb) && Complete(pb) && !LookupFails(pb, t) && !AsksNew(c, st, pb, t)
    ensures var e := Prepared(c, st, pb, t).value;
            OutcomeOf(c, st, e, pb.version.value, t)
            == if t.writeFails then Refused(TransientError)
               else if Outdated(c, st, pb, t) then Refused(Conflict)
               else Applied(Updated(st.db, e, pb.version.value), if CountsDelete(c, st, pb, t) then -1 else 0, false)
    ensures var e := Prepared(c, st, pb, t).value;
            !Outdated(c, st, pb, t) ==> UpdateAccepted(st.db, e, pb.version.value)
  {
    PreparedEntry(c, st, pb, t);
  }

  lemma SettledReply(c: CommitContext, st: CommitState, e: Entity, o: Outcome, t: Tick)
    requires Tracks(c, st) && (o.Applied? ==> -1 <= o.delta <= 1)
    ensures var after := Settled(c, st, e, o, t);
            && after.replies == st.replies + [if o.Refused? then o.reply else Success(e.id, t.now, t.now)]
            && after.db == (if o.Applied? then o.db else st.db)
            && (o.Refused? ==> after.newNormal == st.newNormal && after.newHistory == st.newHistory)
  {
    if o.Applied? { CountingMeaning(c, st, e, o.delta, t); }
  }

  /** One entry appends one reply, and it is the right one. */
  lemma EntryAnswers(c: CommitContext, st: CommitState, pb: PbEntity, t: Tick)
    requires Addressable(pb) && Tracks(c, st)
    ensures var after := CommitEntry(c, st, pb, t);
            && |after.replies| == |st.replies| + 1 && after.replies[..|st.replies|] == st.replies
            && Answers(c, st, pb, t, LastReply(after))
  {
    PreparedEntry(c, st, pb, t);
    if Complete(pb) {
      var e := Prepared(c, st, pb, t).value;
      OutcomeDelta(c, st, e, pb.version.value, t);
      SettledReply(c, st, e, OutcomeOf(c, st, e, pb.version.value, t), t);
      if !LookupFails(pb, t) {
        if AsksNew(c, st, pb, t) { NewRowOutcome(c, st, pb, t); } else { ChangedRowOutcome(c, st, pb, t); }
      }
    }
  }

  lemma SettledNumbers(c: CommitContext, st: CommitState, pb: PbEntity, t: Tick, o: Outcome)
    requires Addressable(pb) && Complete(pb) && Tracks(c, st) && o.Applied? && -1 <= o.delta <= 1
    ensures var after := Settled(c, st, Prepared(c, st, pb, t).value, o, t);
            Counted(st, after, pb, o.delta) && after.db == o.db
  {
    PreparedEntry(c, st, pb, t);
    SettledCounts(c, st, Prepared(c, st, pb, t).value, o, t);
    SettledReply(c, st, Prepared(c, st, pb, t).value, o, t);
  }

  lemma PreparedIsNewRow(c: CommitContext, st: CommitState, pb: PbEntity, t: Tick)
    requires Addressable(pb) && Complete(pb)
    ensures var e := Prepared(c, st, pb, t).value;
            IsNewRow(e, c, st, pb, t) && e.dataTypeMtime == Some(Itoa(pb.specifics.value.variant) + "#" + Itoa(t.now))
  {
  }

  lemma OverlayIsChangedRow(was: Entity, c: CommitContext, st: CommitState, pb: PbEntity, t: Tick)
    requires Addressable(pb) && Complete(pb)
    ensures var row := Overlay(was, Prepared(c, st, pb, t).value);
            && IsChangedRow(was, row, st, pb) && row.clientId == was.clientId && row.id == was.id
            && row.version == Some(t.now) && row.mtime == Some(t.now) && row.specifics == pb.specifics
            && row.dataTypeMtime == Some(Itoa(pb.specifics.value.variant) + "#" + Itoa(t.now))
  {
  }

  lemma NewRowHonours(c: CommitContext, st: CommitState, pb: PbEntity, t: Tick)
    requires Addressable(pb) && Tracks(c, st) && Complete(pb) && !LookupFails(pb, t) && AsksNew(c, st, pb, t)
    requires !NoRoom(c, st)
    requires NoHistoryRoom(c, st, pb) || (!t.writeFails && (c.backend.SQLite? || !Taken(c, st, pb, t)))
    ensures Honours(c, st, pb, t, Success(RowKey(c, pb, t).id, t.now, t.now), CommitEntry(c, st, pb, t))
  {
    var e := Prepared(c, st, pb, t).value;
    PreparedEntry(c, st, pb, t);
    PreparedIsNewRow(c, st, pb, t);
    NewRowOutcome(c, st, pb, t);
    SettledNumbers(c, st, pb, t, OutcomeOf(c, st, e, pb.version.value, t));
  }

  lemma ChangedRowHonours(c: CommitContext, st: CommitState, pb: PbEntity, t: Tick)
    requires Addressable(pb) && Tracks(c, st) && KeyedRows(st.db) && Complete(pb) && !LookupFails(pb, t)
    requires !AsksNew(c, st, pb, t) && !t.writeFails && !Outdated(c, st, pb, t)
    ensures Honours(c, st, pb, t, Success(RowKey(c, pb, t).id, t.now, t.now), CommitEntry(c, st, pb, t))
  {
    var e := Prepared(c, st, pb, t).value;
    PreparedEntry(c, st, pb, t);
    if RowKey(c, pb, t) in st.db.rows { OverlayIsChangedRow(st.db.rows[RowKey(c, pb, t)], c, st, pb, t); }
    ChangedRowOutcome(c, st, pb, t);
    SettledNumbers(c, st, pb, t, OutcomeOf(c, st, e, pb.version.value, t));
  }

  lemma RefusedHonours(c: CommitContext, st: CommitState, pb: PbEntity, t: Tick)
    requires Addressable(pb) && Tracks(c, st) && !LastReply(CommitEntry(c, st, pb, t)).Success?
    requires CommitEntry(c, st, pb, t).replies != []
    ensures var after := CommitEntry(c, st, pb, t);
            after.db == st.db && after.newNormal == st.newNormal && after.newHistory == st.newHistory
  {
    var e := Prepared(c, st, pb, t);
    if e.Some? {
      OutcomeDelta(c, st, e.value, pb.version.value, t);
      SettledReply(c, st, e.value, OutcomeOf(c, st, e.value, pb.version.value, t), t);
    }
  }

  lemma WhenSuccess(c: CommitContext, st: CommitState, pb: PbEntity, t: Tick, r: Reply)
    requires Addressable(pb) && Answers(c, st, pb, t, r) && r.Success?
    ensures Complete(pb) && !LookupFails(pb, t) && r == Success(RowKey(c, pb, t).id, t.now, t.now)
    ensures if AsksNew(c, st, pb, t) then
              !NoRoom(c, st)
              && (NoHistoryRoom(c, st, pb) || (!t.writeFails && (c.backend.SQLite? || !Taken(c, st, pb, t))))
            else !t.writeFails && !Outdated(c, st, pb, t)
  {
  }

  /** And the tables and the counts are as the reply says. */
  lemma EntryHonours(c: CommitContext, st: CommitState, pb: PbEntity, t: Tick)
    requires Addressable(pb) && Tracks(c, st) && KeyedRows(st.db)
    ensures var after := CommitEntry(c, st, pb, t);
            after.replies != [] && Honours(c, st, pb, t, LastReply(after), after)
  {
    EntryAnswers(c, st, pb, t);
    if !LastReply(CommitEntry(c, st, pb, t)).Success? {
      RefusedHonours(c, st, pb, t);
    } else {
      WhenSuccess(c, st, pb, t, LastReply(CommitEntry(c, st, pb, t)));
      if AsksNew(c, st, pb, t) { NewRowHonours(c, st, pb, t); } else { ChangedRowHonours(c, st, pb, t); }
    }
  }

  /** An update of a type other than history: a conflict is a missing row or another version, and
      success is the row being there as committed. */
  lemma UpdateAnswers(c: CommitContext, st: CommitState, pb: PbEntity, t: Tick)
    requires Addressable(pb) && Tracks(c, st) && KeyedRows(st.db) && Complete(pb) && !OfHistory(pb)
    requires pb.version.value != 0 && !t.writeFails
    ensures var k, after := Key(c.client, pb.idString.value), CommitEntry(c, st, pb, t);
            && after.replies != []
            && (LastReply(after) == Conflict <==> k !in st.db.rows || st.db.rows[k].version != pb.version)
            && (LastReply(after) == Success(k.id, t.now, t.now) <==> LastReply(after) != Conflict)
            && (!Holds(st.db, k, pb, t) ==> (LastReply(after).Success? <==> Holds(after.db, k, pb, t)))
            && (LastReply(after) == Conflict ==> after.db == st.db)
  {
    EntryAnswers(c, st, pb, t);
    EntryHonours(c, st, pb, t);
  }

  // ---- the whole commit ----

  /** Entry i is answered on what the loop has made of the earlier ones. */
  ghost predicate AnswersAt(c: CommitContext, st0: CommitState, entries: seq<PbEntity>, ticks: seq<Tick>, i: nat,
                            r: Reply)
    requires i < |entries| && i < |ticks| && AllAddressable(entries)
  {
    var st, after := CommitUpto(c, st0, entries, ticks, i), CommitUpto(c, st0, entries, ticks, i + 1);
    Answers(c, st, entries[i], ticks[i], r) && Honours(c, st, entries[i], ticks[i], r, after)
  }

  lemma OneMoreAnswer(c: CommitContext, st0: CommitState, entries: seq<PbEntity>, ticks: seq<Tick>, n: nat)
    requires n < |entries| && n < |ticks| && AllAddressable(entries) && Tracks(c, st0)
    requires KeyedRows(CommitUpto(c, st0, entries, ticks, n).db)
    ensures var st, after := CommitUpto(c, st0, entries, ticks, n), CommitUpto(c, st0, entries, ticks, n + 1);
            && KeyedRows(after.db) && |after.replies| == |st.replies| + 1 && after.replies[..|st.replies|] == st.replies
            && AnswersAt(c, st0, entries, ticks, n, after.replies[|st.replies|])
  {
    var st := CommitUpto(c, st0, entries, ticks, n);
    LoopCounts(c, st0, entries, ticks, n);
    EntryAnswers(c, st, entries[n], ticks[n]);
    EntryHonours(c, st, entries[n], ticks[n]);
    EntryKeyed(c, st, entries[n], ticks[n]);
  }

  lemma {:induction false} LoopAnswers(c: CommitContext, st0: CommitState, entries: seq<PbEntity>, ticks: seq<Tick>,
                                       n: nat)
    requires n <= |entries| && n <= |ticks| && AllAddressable(entries) && Tracks(c, st0) && KeyedRows(st0.db)
    requires st0.replies == []
    ensures var st := CommitUpto(c, st0, entries, ticks, n);
            && KeyedRows(st.db) && |st.replies| == n
            && forall i :: 0 <= i < n ==> AnswersAt(c, st0, entries, ticks, i, st.replies[i])
    decreases n
  {
    if n > 0 {
      LoopAnswers(c, st0, entries, ticks, n - 1);
      OneMoreAnswer(c, st0, entries, ticks, n - 1);
      var st, after := CommitUpto(c, st0, entries, ticks, n - 1), CommitUpto(c, st0, entries, ticks, n);
      forall i | 0 <= i < n ensures AnswersAt(c, st0, entries, ticks, i, after.replies[i]) {
        if i < n - 1 { assert after.replies[i] == st.replies[i]; }
      }
    }
  }

  /** A commit is answered with one reply per entry, in order, each the right one for what the earlier
      entries left and what was in flight when it started; a failed load is answered without replies. The
      rows after it are those after its last entry. */
  lemma CommitAnswers(cfg: Config, w: World, client: ClientId, msg: CommitMsg, env: CommitEnv)
    requires ValidCommit(msg, env) && !IsDisabled(w.db, client) && KeyedRows(w.db) && WellTyped(w.kv)
    ensures var served := Serve(cfg, w, CommitCall(client, msg, env));
            var c, st0, n := ContextOf(w, client, msg, env, cfg.backend), StartOf(w, client), |msg.entries|;
            && served.answer.CommitResult?
            && (served.answer.commit.status.Ok? <==> n == 0 || !env.countsFail)
            && (served.answer.commit.status.Ok? || served.answer.commit.status.Transient?)
            && |served.answer.commit.replies| == (if served.answer.commit.status.Ok? then n else 0)
            && (served.answer.commit.status.Ok? ==>
                  forall i :: 0 <= i < n ==>
                    AnswersAt(c, st0, msg.entries, env.ticks, i, served.answer.commit.replies[i]))
            && served.world.db.rows == (if served.answer.commit.status.Ok?
                                        then CommitUpto(c, st0, msg.entries, env.ticks, n).db.rows else w.db.rows)
  {
    if ReachesLoop(msg, env) {
      CommitInFlight(w, client, msg, env, cfg.backend);
      LoopAnswers(ContextOf(w, client, msg, env, cfg.backend), StartOf(w, client), msg.entries, env.ticks,
                  |msg.entries|);
    }
  }

  /** What it saves is the loaded counts, those in flight and what its entries counted; it leaves none in
      flight. */
  lemma CommitCounts(cfg: Config, w: World, client: ClientId, msg: CommitMsg, env: CommitEnv)
    requires ReachesLoop(msg, env) && !IsDisabled(w.db, client) && WellTyped(w.kv) && !env.saveFails
    ensures var after := Serve(cfg, w, CommitCall(client, msg, env)).world;
            var loaded, st := LoadedCounts(w.db, client, env.start / 1000),
                              EndOfLoop(w, client, msg, env, cfg.backend);
            && client in after.db.counts
            && after.db.counts[client] == loaded.(items := loaded.items + st.newNormal, h4 := loaded.h4 + st.newHistory)
            && Pending(after.kv, client, Normal) == 0 && Pending(after.kv, client, History) == 0
  {
    CommitInFlight(w, client, msg, env, cfg.backend);
  }

  /** No later entry is for that row. */
  predicate NotWrittenAgain(c: CommitContext, entries: seq<PbEntity>, ticks: seq<Tick>, i: nat, k: Key)
    requires |entries| == |ticks| && AllAddressable(entries)
  {
    forall j :: (i < j < |entries| && Complete(entries[j])) ==> RowKey(c, entries[j], ticks[j]) != k
  }

  lemma RowStays(c: CommitContext, st: CommitState, pb: PbEntity, t: Tick, r: Reply, after: CommitState, k: Key)
    requires Addressable(pb) && Honours(c, st, pb, t, r, after) && k in st.db.rows
    requires Complete(pb) ==> RowKey(c, pb, t) != k
    ensures k in after.db.rows && after.db.rows[k] == st.db.rows[k]
  {
  }

  lemma LaterEntriesKeep(c: CommitContext, st0: CommitState, entries: seq<PbEntity>, ticks: seq<Tick>, i: nat, k: Key)
    requires |entries| == |ticks| && i < |entries| && AllAddressable(entries) && Tracks(c, st0) && KeyedRows(st0.db)
    requires st0.replies == [] && NotWrittenAgain(c, entries, ticks, i, k)
    requires k in CommitUpto(c, st0, entries, ticks, i + 1).db.rows
    ensures var end := CommitUpto(c, st0, entries, ticks, |entries|);
            k in end.db.rows && end.db.rows[k] == CommitUpto(c, st0, entries, ticks, i + 1).db.rows[k]
  {
    var row := CommitUpto(c, st0, entries, ticks, i + 1).db.rows[k];
    for j := i + 1 to |entries|
      invariant k in CommitUpto(c, st0, entries, ticks, j).db.rows
      invariant CommitUpto(c, st0, entries, ticks, j).db.rows[k] == row
    {
      LoopAnswers(c, st0, entries, ticks, j);
      LoopAnswers(c, st0, entries, ticks, j + 1);
      LoopCounts(c, st0, entries, ticks, j);
      var st := CommitUpto(c, st0, entries, ticks, j);
      EntryHonours(c, st, entries[j], ticks[j]);
      RowStays(c, st, entries[j], ticks[j], LastReply(CommitEntry(c, st, entries[j], ticks[j])),
               CommitEntry(c, st, entries[j], ticks[j]), k);
    }
  }

  /** What is answered with success is in the tables when the commit ends, as committed, unless a later
      entry of the commit is for the same row; the exceptions are new history beyond its quota and a new
      entity whose id or tag was in use. */
  lemma SuccessIsStored(cfg: Config, w: World, client: ClientId, msg: CommitMsg, env: CommitEnv, i: nat)
    requires ReachesLoop(msg, env) && !IsDisabled(w.db, client) && KeyedRows(w.db) && WellTyped(w.kv)
    requires i < |msg.entries|
    ensures var served := Serve(cfg, w, CommitCall(client, msg, env));
            var c, st0 := ContextOf(w, client, msg, env, cfg.backend), StartOf(w, client);
            var st, pb, t := CommitUpto(c, st0, msg.entries, env.ticks, i), msg.entries[i], env.ticks[i];
            && served.answer.CommitResult? && |served.answer.commit.replies| == |msg.entries|
            && (served.answer.commit.replies[i].Success? ==>
                  && Complete(pb)
                  && ((AsksNew(c, st, pb, t) && (NoHistoryRoom(c, st, pb) || Taken(c, st, pb, t)))
                      || !NotWrittenAgain(c, msg.entries, env.ticks, i, RowKey(c, pb, t))
                      || Holds(served.world.db, RowKey(c, pb, t), pb, t)))
  {
    var served := Serve(cfg, w, CommitCall(client, msg, env));
    var c, st0 := ContextOf(w, client, msg, env, cfg.backend), StartOf(w, client);
    var st, pb, t := CommitUpto(c, st0, msg.entries, env.ticks, i), msg.entries[i], env.ticks[i];
    CommitAnswers(cfg, w, client, msg, env);
    assert AnswersAt(c, st0, msg.entries, env.ticks, i, served.answer.commit.replies[i]);
    if served.answer.commit.replies[i].Success?
       && !(AsksNew(c, st, pb, t) && (NoHistoryRoom(c, st, pb) || Taken(c, st, pb, t)))
       && NotWrittenAgain(c, msg.entries, env.ticks, i, RowKey(c, pb, t)) {
      LaterEntriesKeep(c, st0, msg.entries, env.ticks, i, RowKey(c, pb, t));
    }
  }
}
