/** Parent remapping: a batch may name as parent an entity it creates itself, by the id the
    client gave it; the server stores the id it assigned instead. */
module Parents {
  import opened Basics
  import opened SyncEntities
  import opened Tables
  import opened Commit

  /** A commit's loop, as one value. */
  datatype Batch = Batch(c: CommitContext, st0: CommitState, entries: seq<PbEntity>, ticks: seq<Tick>)

  predicate ValidBatch(b: Batch) {
    && AllAddressable(b.entries) && |b.ticks| == |b.entries|
    && b.st0.idMap == map[] && !b.st0.failed
  }

  function StateAt(b: Batch, n: nat): CommitState
    requires ValidBatch(b) && n <= |b.entries|
  {
    CommitUpto(b.c, b.st0, b.entries, b.ticks, n)
  }

  /** The entity entry i hands to the store. */
  function EntityAt(b: Batch, i: nat): Option<Entity>
    requires ValidBatch(b) && i < |b.entries|
  {
    Prepared(b.c, StateAt(b, i), b.entries[i], b.ticks[i])
  }

  function OutcomeAt(b: Batch, i: nat): Outcome
    requires ValidBatch(b) && i < |b.entries| && EntityAt(b, i).Some?
  {
    OutcomeOf(b.c, StateAt(b, i), EntityAt(b, i).value, b.entries[i].version.value, b.ticks[i])
  }

  /** Entry i was created under an id the server assigned. */
  predicate Creates(b: Batch, i: nat)
    requires ValidBatch(b) && i < |b.entries|
  {
    && !StateAt(b, i).failed && EntityAt(b, i).Some?
    && OutcomeAt(b, i).Applied? && OutcomeAt(b, i).created
  }

  function ServerId(b: Batch, i: nat): string
    requires ValidBatch(b) && i < |b.entries| && ValidPbEntity(b.entries[i])
  {
    StoredId(b.entries[i], b.c.cacheGuid, b.ticks[i].uuid)
  }

  /** The server id of the latest of the first n entries created under a client id. */
  function LatestServerId(b: Batch, n: nat, clientId: string): Option<string>
    requires ValidBatch(b) && n <= |b.entries|
  {
    if n == 0 then None
    else if Creates(b, n - 1) && b.c.cacheGuid.Some? && b.entries[n - 1].idString == Some(clientId) then
      Some(ServerId(b, n - 1))
    else LatestServerId(b, n - 1, clientId)
  }

  lemma PreparedIds(b: Batch, i: nat)
    requires ValidBatch(b) && i < |b.entries| && EntityAt(b, i).Some?
    ensures var e := EntityAt(b, i).value;
            && ValidPbEntity(b.entries[i]) && e.id == ServerId(b, i) && e.clientId == b.c.client
            && e.clientItemId == (if b.c.cacheGuid.Some? then b.entries[i].idString else None)
            && e.parentId == RemapParent(StateAt(b, i).idMap, b.entries[i].parentId)
  {
  }

  lemma EntryMaps(b: Batch, i: nat, clientId: string)
    requires ValidBatch(b) && i < |b.entries|
    ensures var before, after := StateAt(b, i).idMap, StateAt(b, i + 1).idMap;
            if Creates(b, i) && b.c.cacheGuid.Some? && b.entries[i].idString == Some(clientId)
            then clientId in after && after[clientId] == ServerId(b, i)
            else (clientId in after <==> clientId in before)
                 && (clientId in before ==> after[clientId] == before[clientId])
  {
    if EntityAt(b, i).Some? { PreparedIds(b, i); }
  }

  /** The id map holds, per client id, the latest entry created under it. */
  lemma {:induction false} IdMapIsLatest(b: Batch, n: nat, clientId: string)
    requires ValidBatch(b) && n <= |b.entries|
    ensures clientId in StateAt(b, n).idMap <==> LatestServerId(b, n, clientId).Some?
    ensures clientId in StateAt(b, n).idMap ==>
              Some(StateAt(b, n).idMap[clientId]) == LatestServerId(b, n, clientId)
    decreases n
  {
    if n > 0 {
      IdMapIsLatest(b, n - 1, clientId);
      EntryMaps(b, n - 1, clientId);
    }
  }

  /** Every entity is handed to the store with its parent replaced by the server id of the
      latest earlier entry created in the batch under that client id, or else unchanged. */
  lemma ParentIsLatestServerId(b: Batch, i: nat)
    requires ValidBatch(b) && i < |b.entries| && EntityAt(b, i).Some?
    ensures EntityAt(b, i).value.parentId
            == (if b.entries[i].parentId.None? then None
                else OrElse(LatestServerId(b, i, b.entries[i].parentId.value), b.entries[i].parentId))
  {
    PreparedIds(b, i);
    if b.entries[i].parentId.Some? { IdMapIsLatest(b, i, b.entries[i].parentId.value); }
  }

  /** A created entry is in the store under its server id, with that parent, exactly when
      the insert did not run into a conflict. With a store that answers conflicts with an
      error that is always; SQLite answers success and maps the id all the same. */
  lemma CreatedIsStored(b: Batch, i: nat)
    requires ValidBatch(b) && i < |b.entries| && Creates(b, i)
    requires KeyedRows(StateAt(b, i).db)
    ensures var e, db, db' := EntityAt(b, i).value, StateAt(b, i).db, StateAt(b, i + 1).db;
            && (!InsertConflicts(db, e) ==> KeyOf(e) in db'.rows && db'.rows[KeyOf(e)] == e)
            && (InsertConflicts(db, e) ==> db' == db)
            && (b.c.backend.DynamoDB? ==> !InsertConflicts(db, e))
            && (KeyOf(e) !in db.rows ==> (KeyOf(e) in db'.rows <==> !InsertConflicts(db, e)))
  {
    PreparedIds(b, i);
  }

  // ---- batches that list parents first ----

  /** Parents come before their children, and every entry is created. */
  ghost predicate ParentsFirst(b: Batch)
    requires ValidBatch(b)
  {
    && b.c.cacheGuid.Some?
    && (forall i :: 0 <= i < |b.entries| ==> Creates(b, i))
    && (forall i, j ::
          (0 <= i < |b.entries| && 0 <= j < |b.entries| && b.entries[i].parentId.Some?
           && b.entries[i].parentId == b.entries[j].idString) ==> j < i)
  }

  /** Generated ids are new: different from each other and from every id in the batch. */
  ghost predicate FreshIds(b: Batch)
    requires ValidBatch(b)
  {
    && (forall i :: 0 <= i < |b.entries| ==> ValidPbEntity(b.entries[i]))
    && (forall i, j :: 0 <= i < j < |b.entries| ==> ServerId(b, i) != ServerId(b, j))
    && (forall i, j :: 0 <= i < |b.entries| && 0 <= j < |b.entries| ==>
          Some(ServerId(b, i)) != b.entries[j].idString && Some(ServerId(b, i)) != b.entries[j].parentId)
  }

  predicate MappedAt(b: Batch, j: nat, clientId: string, serverId: string)
    requires ValidBatch(b)
  {
    && j < |b.entries| && ValidPbEntity(b.entries[j])
    && b.entries[j].idString == Some(clientId) && ServerId(b, j) == serverId
  }

  lemma CreatedIsValid(b: Batch, i: nat)
    requires ValidBatch(b) && i < |b.entries| && Creates(b, i)
    ensures ValidPbEntity(b.entries[i])
  {
    PreparedIds(b, i);
  }

  lemma {:induction false} LatestIsEarlier(b: Batch, n: nat, clientId: string) returns (j: nat)
    requires ValidBatch(b) && n <= |b.entries| && LatestServerId(b, n, clientId).Some?
    ensures j < n && MappedAt(b, j, clientId, LatestServerId(b, n, clientId).value)
    decreases n
  {
    if Creates(b, n - 1) && b.c.cacheGuid.Some? && b.entries[n - 1].idString == Some(clientId) {
      CreatedIsValid(b, n - 1);
      j := n - 1;
    } else {
      j := LatestIsEarlier(b, n - 1, clientId);
    }
  }

  lemma MappingGrows(b: Batch, n: nat, clientId: string)
    requires ValidBatch(b) && n < |b.entries|
    ensures LatestServerId(b, n, clientId).Some? ==> LatestServerId(b, n + 1, clientId).Some?
    ensures Creates(b, n) && b.c.cacheGuid.Some? && b.entries[n].idString == Some(clientId) ==>
              LatestServerId(b, n + 1, clientId).Some?
  {
  }

  lemma {:induction false} CreatedIsMapped(b: Batch, n: nat, j: nat, clientId: string)
    requires ValidBatch(b) && j < n <= |b.entries| && b.c.cacheGuid.Some? && Creates(b, j)
    requires b.entries[j].idString == Some(clientId)
    ensures LatestServerId(b, n, clientId).Some?
    decreases n
  {
    if j < n - 1 { CreatedIsMapped(b, n - 1, j, clientId); }
    MappingGrows(b, n - 1, clientId);
  }

  /** In a parents-first batch no stored parent is an id the client made up for the batch. */
  lemma NoClientIdAsParent(b: Batch, i: nat, j: nat)
    requires ValidBatch(b) && ParentsFirst(b) && FreshIds(b)
    requires i < |b.entries| && j < |b.entries|
    ensures EntityAt(b, i).value.parentId.Some? ==> EntityAt(b, i).value.parentId != b.entries[j].idString
  {
    assert Creates(b, i) && Creates(b, j);
    ParentIsLatestServerId(b, i);
    var parent := b.entries[i].parentId;
    if parent.Some? {
      if LatestServerId(b, i, parent.value).Some? {
        var latest := LatestIsEarlier(b, i, parent.value);
      } else if parent == b.entries[j].idString {
        CreatedIsMapped(b, i, j, parent.value);
      }
    }
  }

  /** And the links between the new entries lead strictly backwards, so they form no cycle. */
  lemma ParentLinksLeadBack(b: Batch, i: nat, j: nat)
    requires ValidBatch(b) && ParentsFirst(b) && FreshIds(b)
    requires i < |b.entries| && j < |b.entries|
    requires EntityAt(b, i).value.parentId == Some(ServerId(b, j))
    ensures j < i
  {
    assert Creates(b, i) && Creates(b, j);
    ParentIsLatestServerId(b, i);
    var parent := b.entries[i].parentId;
    assert LatestServerId(b, i, parent.value).Some?;
    var latest := LatestIsEarlier(b, i, parent.value);
  }
}
