/** The five server-defined entities every new client needs
    (command/server_defined_unique_entity.go), over any interleaving of requests. */
module Bootstrap {
  import opened Basics
  import opened SyncEntities
  import opened Tables

  const NIGORI_TYPE_ID := 47745

  const BOOKMARK_TYPE_ID := 32904

  const NIGORI_NAME := "Nigori"

  const NIGORI_TAG := "google_chrome_nigori"

  const BOOKMARKS_NAME := "Bookmarks"

  const BOOKMARKS_TAG := "google_chrome_bookmarks"

  /** The second-level bookmark folders, by name. */
  const SUBFOLDERS := map[
    "Other Bookmarks" := "other_bookmarks",
    "Synced Bookmarks" := "synced_bookmarks",
    "Bookmark Bar" := "bookmark_bar"]

  const ROOT_PARENT := "0"

  const NIGORI_SPECIFICS := Blob(NIGORI_TYPE_ID, [0])

  const BOOKMARK_SPECIFICS := Blob(BOOKMARK_TYPE_ID, [0])

  ghost predicate IsSubfolderTag(tag: string) {
    tag == "other_bookmarks" || tag == "synced_bookmarks" || tag == "bookmark_bar"
  }

  ghost predicate IsServerTag(tag: string) {
    tag == NIGORI_TAG || tag == BOOKMARKS_TAG || IsSubfolderTag(tag)
  }

  /** The name each of the five goes by. */
  function NameOf(tag: string): string {
    if tag == "google_chrome_nigori" then "Nigori"
    else if tag == "google_chrome_bookmarks" then "Bookmarks"
    else if tag == "other_bookmarks" then "Other Bookmarks"
    else if tag == "synced_bookmarks" then "Synced Bookmarks"
    else "Bookmark Bar"
  }

  /** A folder that is not deleted and does not expire, at version 1, from no device. */
  predicate IsLiveFolder(e: Entity) {
    && e.deleted == Some(false) && e.folder == Some(true) && e.version == Some(1) && e.expirationTime.None?
    && e.ctime == e.mtime && e.nonUniqueName.None? && e.uniquePosition.None?
    && e.cacheGuid.None? && e.clientItemId.None?
  }

  /** The name and the specifics of its tag and type. */
  predicate IsNamedByTag(e: Entity) {
    && e.serverTag.Some? && e.name == Some(NameOf(e.serverTag.value))
    && e.dataType.Some? && e.specifics.Some? && e.specifics.value.variant == e.dataType.value
  }

  function ServerEntity(name: string, tag: string, client: ClientId, parent: string,
                        specifics: Blob, now: int, uuid: string): (e: Entity)
    requires specifics.variant != HISTORY_TYPE_ID
    ensures e.clientId == client && e.id == uuid && e.serverTag == Some(tag) && e.clientTag.None?
    ensures e.parentId == Some(parent) && e.dataType == Some(specifics.variant) && e.mtime == Some(now)
    ensures e.name == Some(name) && e.specifics == Some(specifics)
    ensures !IsHistoryRelated(specifics.variant) ==> IsLiveFolder(e)
  {
    var pb := PbEntity(Some(uuid), Some(parent), Some(1), Some(now), Some(now), Some(name), None,
                       Some(tag), None, None, None, Some(false), Some(true), Some(specifics), None);
    CreateDBSyncEntity(pb, None, client, now, uuid).value
  }

  /** A batch as the source builds it: nigori, the bookmarks root, and the three subfolders
      below it in any order. */
  ghost predicate IsBatch(client: ClientId, es: seq<Entity>) {
    && |es| == 5
    && (forall i :: 0 <= i < 5 ==> es[i].clientId == client && es[i].clientTag.None? && es[i].mtime.Some?
                                   && es[i].serverTag.Some?)
    && es[0].serverTag.value == NIGORI_TAG && es[0].dataType == Some(NIGORI_TYPE_ID)
    && es[1].serverTag.value == BOOKMARKS_TAG
    && (forall i :: 1 <= i < 5 ==> es[i].dataType == Some(BOOKMARK_TYPE_ID))
    && (forall i :: 2 <= i < 5 ==> IsSubfolderTag(es[i].serverTag.value) && es[i].parentId == Some(es[1].id))
    && (forall i, j :: 0 <= i < j < 5 ==> es[i].serverTag != es[j].serverTag)
    && es[0].parentId == Some("0") && es[1].parentId == Some("0")
    && (forall i :: 0 <= i < 5 ==> IsLiveFolder(es[i]) && IsNamedByTag(es[i]))
  }

  // ---- the two states a client can be in ----

  ghost predicate HasServerTag(db: DB, k: Key, client: ClientId, tag: string) {
    k in db.rows && k.client == client && db.rows[k].serverTag == Some(tag)
  }

  ghost predicate HasNone(db: DB, client: ClientId) {
    forall tag :: IsServerTag(tag) ==>
      ServerTagKey(client, tag) !in db.tags && forall k :: !HasServerTag(db, k, client, tag)
  }

  /** Each of the five tags has its tag row and exactly one entity row, and the subfolders
      point at the one bookmarks root. */
  ghost predicate HasAll(db: DB, client: ClientId) {
    && (forall tag :: IsServerTag(tag) ==>
          ServerTagKey(client, tag) in db.tags && exists k :: HasServerTag(db, k, client, tag))
    && (forall tag, k, k' ::
          (IsServerTag(tag) && HasServerTag(db, k, client, tag) && HasServerTag(db, k', client, tag)) ==> k == k')
    && (forall tag, k, r ::
          (IsSubfolderTag(tag) && HasServerTag(db, k, client, tag) && HasServerTag(db, r, client, BOOKMARKS_TAG))
          ==> db.rows[k].parentId == Some(r.id))
  }

  ghost predicate AllOrNone(db: DB, client: ClientId) {
    HasNone(db, client) || HasAll(db, client)
  }

  // ---- the batch transaction ----

  ghost function TagsOf(es: seq<Entity>): set<Key> {
    set e | e in es :: ServerTagOf(e)
  }

  /** A batch that goes through adds exactly its entities and their tag rows. */
  lemma {:induction false} BatchEffect(db: DB, es: seq<Entity>)
    requires ServerEntitiesInserted(db, es).Some?
    ensures var after := ServerEntitiesInserted(db, es).value;
            && after.tags == db.tags + TagsOf(es) && after.counts == db.counts
            && TagsOf(es) !! db.tags
            && (forall e :: e in es ==> KeyOf(e) !in db.rows && KeyOf(e) in after.rows && after.rows[KeyOf(e)] == e)
            && (forall k :: k in db.rows ==> k in after.rows && after.rows[k] == db.rows[k])
            && (forall k :: k in after.rows && k !in db.rows ==> after.rows[k] in es && KeyOf(after.rows[k]) == k)
    decreases |es|
  {
    if es != [] {
      var next := db.(rows := db.rows[KeyOf(es[0]) := es[0]], tags := db.tags + {ServerTagOf(es[0])});
      BatchEffect(next, es[1..]);
      assert TagsOf(es) == {ServerTagOf(es[0])} + TagsOf(es[1..]) by {
        assert es == [es[0]] + es[1..];
      }
      assert forall e :: e in es <==> e == es[0] || e in es[1..];
    }
  }

  lemma IndexOfTag(client: ClientId, es: seq<Entity>, tag: string) returns (i: nat)
    requires IsBatch(client, es) && IsServerTag(tag)
    ensures i < 5 && es[i].serverTag == Some(tag)
  {
    if tag == NIGORI_TAG { return 0; }
    if tag == BOOKMARKS_TAG { return 1; }
    if es[2].serverTag == Some(tag) { return 2; }
    if es[3].serverTag == Some(tag) { return 3; }
    return 4;
  }

  lemma BatchHasTag(client: ClientId, es: seq<Entity>, after: DB, tag: string)
    requires IsBatch(client, es) && IsServerTag(tag) && TagsOf(es) <= after.tags
    requires forall e :: e in es ==> KeyOf(e) in after.rows && after.rows[KeyOf(e)] == e
    ensures ServerTagKey(client, tag) in after.tags && exists k :: HasServerTag(after, k, client, tag)
  {
    var i := IndexOfTag(client, es, tag);
    assert ServerTagOf(es[i]) in TagsOf(es);
    assert HasServerTag(after, KeyOf(es[i]), client, tag);
  }

  lemma BatchMembers(client: ClientId, es: seq<Entity>, e: Entity, r: Entity)
    requires IsBatch(client, es) && e in es && r in es
    ensures e.serverTag == r.serverTag ==> e == r
    ensures r.serverTag == Some(BOOKMARKS_TAG) && e.serverTag.Some? && IsSubfolderTag(e.serverTag.value) ==>
              e.parentId == Some(r.id)
  {
  }

  /** In the store, a server tag of the client belongs to an entity of the batch. */
  ghost predicate OnlyBatchTags(after: DB, client: ClientId, es: seq<Entity>) {
    forall k, tag :: (IsServerTag(tag) && HasServerTag(after, k, client, tag)) ==>
      after.rows[k] in es && KeyOf(after.rows[k]) == k
  }

  lemma OneRowPerTag(client: ClientId, es: seq<Entity>, after: DB)
    requires IsBatch(client, es) && OnlyBatchTags(after, client, es)
    requires forall tag :: IsServerTag(tag) ==>
      ServerTagKey(client, tag) in after.tags && exists k :: HasServerTag(after, k, client, tag)
    ensures HasAll(after, client)
  {
    forall tag, k, k' | IsServerTag(tag) && HasServerTag(after, k, client, tag) && HasServerTag(after, k', client, tag)
      ensures k == k'
    {
      BatchMembers(client, es, after.rows[k], after.rows[k']);
    }
    forall tag, k, r | IsSubfolderTag(tag) && HasServerTag(after, k, client, tag)
                       && HasServerTag(after, r, client, BOOKMARKS_TAG)
      ensures after.rows[k].parentId == Some(after.rows[r].id) && after.rows[r].id == r.id
    {
      BatchMembers(client, es, after.rows[k], after.rows[r]);
    }
  }

  lemma BatchBootstraps(db: DB, client: ClientId, es: seq<Entity>)
    requires KeyedRows(db) && HasNone(db, client) && IsBatch(client, es)
    requires ServerEntitiesInserted(db, es).Some?
    ensures HasAll(ServerEntitiesInserted(db, es).value, client)
  {
    var after := ServerEntitiesInserted(db, es).value;
    BatchEffect(db, es);
    forall k, tag | IsServerTag(tag) && HasServerTag(after, k, client, tag)
      ensures after.rows[k] in es && KeyOf(after.rows[k]) == k
    {
      assert !HasServerTag(db, k, client, tag);
    }
    forall tag | IsServerTag(tag)
      ensures ServerTagKey(client, tag) in after.tags && exists k :: HasServerTag(after, k, client, tag)
    {
      BatchHasTag(client, es, after, tag);
    }
    OneRowPerTag(client, es, after);
  }

  /** A client that has the entities gets no second set: the whole batch is rolled back. */
  lemma SecondBatchRollsBack(db: DB, client: ClientId, es: seq<Entity>)
    requires HasAll(db, client) && IsBatch(client, es)
    ensures ServerEntitiesInserted(db, es).None?
  {
  }

  /** Whatever leaves the client's rows with one of the five tags, and those tag rows, alone keeps its
      state. */
  lemma SameFiveView(db: DB, after: DB, client: ClientId)
    requires AllOrNone(db, client)
    requires forall k, tag :: IsServerTag(tag) ==>
               (HasServerTag(after, k, client, tag) <==> HasServerTag(db, k, client, tag))
    requires forall k, tag :: IsServerTag(tag) && HasServerTag(db, k, client, tag) ==>
               k in after.rows
               && (IsSubfolderTag(tag) && HasAll(db, client) ==> after.rows[k].parentId == db.rows[k].parentId)
    requires forall tag :: ServerTagKey(client, tag) in after.tags <==> ServerTagKey(client, tag) in db.tags
    ensures AllOrNone(after, client)
  {
  }

  lemma BatchOfOtherClient(db: DB, client: ClientId, other: ClientId, es: seq<Entity>)
    requires KeyedRows(db) && AllOrNone(db, client) && IsBatch(other, es) && other != client
    requires ServerEntitiesInserted(db, es).Some?
    ensures AllOrNone(ServerEntitiesInserted(db, es).value, client)
  {
    var after := ServerEntitiesInserted(db, es).value;
    BatchEffect(db, es);
    SameFiveView(db, after, client);
  }

  // ---- what keeps a client at all or none ----

  /** The entity has one of the five server tags. */
  ghost predicate ServerTagged(e: Entity) {
    e.serverTag.Some? && IsServerTag(e.serverTag.value)
  }

  /** A client must not insert an entity under one of the five tags, nor move a subfolder of the
      five; and no entity of the five may sit under the id of the disabled marker, which a clear
      leaves behind. */
  ghost predicate KeepsFive(db: DB, t: Txn, client: ClientId) {
    match t
    case Insert(e) => InsertConflicts(db, e) || e.clientId != client || !ServerTagged(e)
    case Update(e, base) =>
      UpdateAccepted(db, e, base) && e.clientId == client && HasAll(db, client) ==>
        var row := db.rows[KeyOf(e)];
        row.serverTag.Some? && IsSubfolderTag(row.serverTag.value) ==> e.parentId.None? || e.parentId == row.parentId
    case Clear(c) =>
      var marker := Key(client, DISABLED_CHAIN_ID);
      c == client && marker in db.rows ==> !ServerTagged(db.rows[marker])
    case _ => true
  }

  /** Server batches have the shape above. */
  ghost predicate BuiltByServer(t: Txn) {
    t.InsertServerEntities? ==> t.es != [] && IsBatch(t.es[0].clientId, t.es)
  }

  lemma InsertLeavesServerTags(db: DB, e: Entity, client: ClientId, tag: string)
    ensures ServerTagKey(client, tag) in Inserted(db, e).tags <==> ServerTagKey(client, tag) in db.tags
  {
    if UsesTag(e) { TagKeysDiffer(e.clientId, e.clientTag.value, client, tag); }
  }

  /** A row with one of the five tags is one too many. */
  lemma OneTooMany(db: DB, after: DB, client: ClientId, k: Key, tag: string)
    requires AllOrNone(db, client) && IsServerTag(tag) && k !in db.rows && HasServerTag(after, k, client, tag)
    requires forall j :: j in db.rows ==> j in after.rows && after.rows[j] == db.rows[j]
    requires ServerTagKey(client, tag) in after.tags <==> ServerTagKey(client, tag) in db.tags
    ensures !AllOrNone(after, client)
  {
    if HasAll(db, client) {
      var other :| HasServerTag(db, other, client, tag);
      assert HasServerTag(after, other, client, tag) && other != k;
    }
  }

  /** Exactly the inserts of other entities keep a client at all or none. */
  lemma InsertKeepsFive(db: DB, e: Entity, client: ClientId)
    requires KeyedRows(db) && AllOrNone(db, client)
    ensures AllOrNone(Inserted(db, e), client) <==> KeepsFive(db, Insert(e), client)
  {
    var after := Inserted(db, e);
    forall tag ensures ServerTagKey(client, tag) in after.tags <==> ServerTagKey(client, tag) in db.tags {
      InsertLeavesServerTags(db, e, client, tag);
    }
    if KeepsFive(db, Insert(e), client) {
      SameFiveView(db, after, client);
    } else {
      OneTooMany(db, after, client, KeyOf(e), e.serverTag.value);
    }
  }

  lemma UpdateLeavesServerTags(db: DB, e: Entity, base: int, client: ClientId, tag: string)
    ensures ServerTagKey(client, tag) in Updated(db, e, base).tags <==> ServerTagKey(client, tag) in db.tags
  {
    if UsesTag(e) { TagKeysDiffer(e.clientId, e.clientTag.value, client, tag); }
  }

  /** A subfolder that no longer points at the root. */
  lemma MovedSubfolder(db: DB, after: DB, client: ClientId, k: Key)
    requires HasAll(db, client) && k in db.rows && k in after.rows && k.client == client
    requires db.rows[k].serverTag.Some? && IsSubfolderTag(db.rows[k].serverTag.value)
    requires after.rows[k].serverTag == db.rows[k].serverTag && after.rows[k].parentId != db.rows[k].parentId
    requires forall j, tag :: HasServerTag(after, j, client, tag) <==> HasServerTag(db, j, client, tag)
    ensures !AllOrNone(after, client)
  {
    var tag := db.rows[k].serverTag.value;
    assert HasServerTag(after, k, client, tag) && HasServerTag(db, k, client, tag);
    assert IsServerTag(BOOKMARKS_TAG);
    var root :| HasServerTag(db, root, client, BOOKMARKS_TAG);
    assert HasServerTag(after, root, client, BOOKMARKS_TAG);
    assert db.rows[k].parentId == Some(root.id);
  }

  /** Exactly the updates that move no subfolder of the five do. */
  lemma UpdateKeepsFive(db: DB, e: Entity, base: int, client: ClientId)
    requires KeyedRows(db) && AllOrNone(db, client)
    ensures AllOrNone(Updated(db, e, base), client) <==> KeepsFive(db, Update(e, base), client)
  {
    var after := Updated(db, e, base);
    forall tag ensures ServerTagKey(client, tag) in after.tags <==> ServerTagKey(client, tag) in db.tags {
      UpdateLeavesServerTags(db, e, base, client, tag);
    }
    forall k, tag ensures HasServerTag(after, k, client, tag) <==> HasServerTag(db, k, client, tag) {
    }
    if KeepsFive(db, Update(e, base), client) {
      SameFiveView(db, after, client);
    } else {
      MovedSubfolder(db, after, client, KeyOf(e));
    }
  }

  /** A clear leaves none of the five, unless one sits under the marker's id. */
  lemma ClearKeepsFive(db: DB, c: ClientId, client: ClientId)
    requires KeyedRows(db) && AllOrNone(db, client)
    ensures AllOrNone(Cleared(db, c), client) <==> KeepsFive(db, Clear(c), client)
  {
    var after, marker := Cleared(db, c), Key(client, DISABLED_CHAIN_ID);
    if c != client {
      SameFiveView(db, after, client);
    } else if marker in db.rows && ServerTagged(db.rows[marker]) {
      assert HasServerTag(after, marker, client, db.rows[marker].serverTag.value);
      assert IsServerTag(NIGORI_TAG) && ServerTagKey(client, NIGORI_TAG) !in after.tags;
    } else {
      assert HasNone(after, client);
    }
  }

  lemma BatchKeepsFive(db: DB, client: ClientId, es: seq<Entity>)
    requires KeyedRows(db) && AllOrNone(db, client) && es != [] && IsBatch(es[0].clientId, es)
    requires ServerEntitiesInserted(db, es).Some?
    ensures AllOrNone(ServerEntitiesInserted(db, es).value, client)
  {
    if es[0].clientId != client {
      BatchOfOtherClient(db, client, es[0].clientId, es);
    } else if HasAll(db, client) {
      SecondBatchRollsBack(db, client, es);
    } else {
      BatchBootstraps(db, client, es);
    }
  }

  lemma StepKeepsFive(db: DB, t: Txn, client: ClientId)
    requires KeyedRows(db) && AllOrNone(db, client) && BuiltByServer(t)
    ensures AllOrNone(Step(db, t), client) <==> KeepsFive(db, t, client)
  {
    match t
    case Insert(e) => InsertKeepsFive(db, e, client);
    case Update(e, base) => UpdateKeepsFive(db, e, base, client);
    case Clear(c) => ClearKeepsFive(db, c, client);
    case InsertServerEntities(es) =>
      if ServerEntitiesInserted(db, es).Some? { BatchKeepsFive(db, client, es); }
    case _ => SameFiveView(db, Step(db, t), client);
  }

  /** Each transaction of the run keeps the five entities of the state it meets. */
  ghost predicate AllKeepFive(txns: seq<Txn>, client: ClientId) {
    txns == [] || (var n := |txns| - 1;
                   AllKeepFive(txns[..n], client) && KeepsFive(After(txns[..n]), txns[n], client))
  }

  ghost predicate AlwaysAllOrNone(txns: seq<Txn>, client: ClientId) {
    AllOrNone(After(txns), client) && (txns == [] || AlwaysAllOrNone(txns[..|txns| - 1], client))
  }

  /** However NEW_CLIENT requests interleave with each other and with the other traffic: in every state
      a client has none of the five entities or all of them, each once, the subfolders below the one
      root, if and only if no transaction inserts another entity under one of the five tags, moves
      one of the subfolders, or clears the chain with one of the five under the marker's id. */
  lemma {:induction false} BootstrapIsAllOrNothing(txns: seq<Txn>, client: ClientId)
    requires forall i :: 0 <= i < |txns| ==> BuiltByServer(txns[i])
    ensures AlwaysAllOrNone(txns, client) <==> AllKeepFive(txns, client)
  {
    if txns != [] {
      var n := |txns| - 1;
      BootstrapIsAllOrNothing(txns[..n], client);
      AfterKeyed(txns[..n]);
      if AlwaysAllOrNone(txns[..n], client) { StepKeepsFive(After(txns[..n]), txns[n], client); }
    } else {
      assert HasNone(EMPTY_DB, client);
    }
  }
}
