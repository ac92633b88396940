/** Sync entities as clients send them, as the store keeps them, and the conversions
    between the two forms (datastore/sync_entity.go). */
module SyncEntities {
  import opened Basics
  import RangeKey

  const HISTORY_TYPE_ID := 963985

  const HISTORY_DELETE_DIRECTIVE_TYPE_ID := 150251

  const HISTORY_EXPIRATION_SECS := 14 * 24 * 60 * 60

  /** A marshalled protobuf message, opaque but for the field number of its variant. */
  datatype Blob = Blob(variant: int, payload: seq<nat>)

  /** The protobuf entity. Optional fields are the ones protobuf leaves as nil pointers. */
  datatype PbEntity = PbEntity(
    idString: Option<string>, parentId: Option<string>, version: Option<int>,
    mtime: Option<int>, ctime: Option<int>, name: Option<string>, nonUniqueName: Option<string>,
    serverTag: Option<string>, clientTagHash: Option<string>, cacheGuid: Option<string>,
    clientItemId: Option<string>, deleted: Option<bool>, folder: Option<bool>,
    specifics: Option<Blob>, uniquePosition: Option<Blob>)

  /** The stored entity, one field per column. */
  datatype Entity = Entity(
    clientId: ClientId, id: string, parentId: Option<string>, version: Option<int>,
    mtime: Option<int>, ctime: Option<int>, name: Option<string>, nonUniqueName: Option<string>,
    serverTag: Option<string>, deleted: Option<bool>, cacheGuid: Option<string>,
    clientItemId: Option<string>, specifics: Option<Blob>, dataType: Option<int>,
    folder: Option<bool>, clientTag: Option<string>, uniquePosition: Option<Blob>,
    dataTypeMtime: Option<string>, expirationTime: Option<int>)

  /** Primary key of every table: a client and an id below it. */
  datatype Key = Key(client: ClientId, id: string)

  function KeyOf(e: Entity): Key {
    Key(e.clientId, e.id)
  }

  predicate IsHistoryRelated(dataType: int) {
    dataType == HISTORY_TYPE_ID || dataType == HISTORY_DELETE_DIRECTIVE_TYPE_ID
  }

  predicate ValidPbEntity(pb: PbEntity) {
    pb.idString.Some? && pb.version.Some? && pb.specifics.Some?
  }

  /** A history entity is addressed by its client tag hash, which the source dereferences
      without a check; a sender must supply it. */
  predicate Addressable(pb: PbEntity) {
    ValidPbEntity(pb) && pb.specifics.value.variant == HISTORY_TYPE_ID ==> pb.clientTagHash.Some?
  }

  /** The id an incoming entity is stored under: its own, a fresh one for a create that
      names its device, or the client tag for history. */
  function StoredId(pb: PbEntity, cacheGuid: Option<string>, uuid: string): string
    requires ValidPbEntity(pb) && Addressable(pb)
  {
    if pb.specifics.value.variant == HISTORY_TYPE_ID then pb.clientTagHash.value
    else if cacheGuid.Some? && pb.version.value == 0 then uuid
    else pb.idString.value
  }

  /** CreateDBSyncEntity: `now` is in milliseconds; None is the validation error. */
  function CreateDBSyncEntity(pb: PbEntity, cacheGuid: Option<string>, client: ClientId,
                              now: int, uuid: string): (r: Option<Entity>)
    requires Addressable(pb)
    ensures r.Some? <==> ValidPbEntity(pb)
    ensures r.Some? ==> r.value.clientId == client && r.value.mtime == Some(now)
                        && r.value.version == pb.version && r.value.dataType.Some?
  {
    if !ValidPbEntity(pb) then None
    else
      var dataType := pb.specifics.value.variant;
      var isCreate := pb.version.value == 0;
      Some(Entity(
             client, StoredId(pb, cacheGuid, uuid), pb.parentId, pb.version, Some(now),
             if pb.ctime.Some? then pb.ctime else Some(now), pb.name, pb.nonUniqueName,
             pb.serverTag,
             if isCreate && pb.deleted.None? then Some(false) else pb.deleted,
             cacheGuid,
             if cacheGuid.Some? then pb.idString else None,
             pb.specifics, Some(dataType),
             if isCreate && pb.folder.None? then Some(false) else pb.folder,
             pb.clientTagHash, pb.uniquePosition,
             Some(RangeKey.DataTypeMtime(dataType, now)),
             if IsHistoryRelated(dataType) then Some(now / 1000 + HISTORY_EXPIRATION_SECS) else None))
  }

  function CreatePBSyncEntity(e: Entity): PbEntity {
    PbEntity(Some(e.id), e.parentId, e.version, e.mtime, e.ctime, e.name, e.nonUniqueName,
             e.serverTag, e.clientTag, e.cacheGuid, e.clientItemId, e.deleted, e.folder,
             e.specifics, e.uniquePosition)
  }

  function ToPb(es: seq<Entity>): (r: seq<PbEntity>)
    ensures |r| == |es|
  {
    seq(|es|, i requires 0 <= i < |es| => CreatePBSyncEntity(es[i]))
  }

  // ---- accepted updates ----

  function OrElse<T>(patch: Option<T>, kept: Option<T>): Option<T> {
    if patch.Some? then patch else kept
  }

  /** The row after an accepted update: version, mtime, specifics and range key are always
      written, the six optional columns only where the update carries a value, and the
      identity, tag, type, creation and expiry columns never. */
  function Overlay(row: Entity, e: Entity): Entity {
    row.(version := e.version, mtime := e.mtime, specifics := e.specifics,
         dataTypeMtime := e.dataTypeMtime,
         uniquePosition := OrElse(e.uniquePosition, row.uniquePosition),
         parentId := OrElse(e.parentId, row.parentId),
         name := OrElse(e.name, row.name),
         nonUniqueName := OrElse(e.nonUniqueName, row.nonUniqueName),
         deleted := OrElse(e.deleted, row.deleted),
         folder := OrElse(e.folder, row.folder))
  }
}
