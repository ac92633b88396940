/** The SQLite row format: how an entity becomes column values, how a row is scanned back,
    and the UPDATE statement that is assembled column by column. */
module RowCodec {
  import opened Basics
  import opened SyncEntities

  datatype SqlValue = Null | Integer(n: int) | Text(s: string) | Bytes(b: Blob)

  /** One row of sync_entities, a field per column. */
  datatype Row = Row(
    clientId: SqlValue, id: SqlValue, parentId: SqlValue, version: SqlValue, mtime: SqlValue,
    ctime: SqlValue, name: SqlValue, nonUniqueName: SqlValue, serverTag: SqlValue,
    deleted: SqlValue, cacheGuid: SqlValue, clientItemId: SqlValue, specifics: SqlValue,
    dataType: SqlValue, folder: SqlValue, clientTag: SqlValue, uniquePosition: SqlValue,
    dataTypeMtime: SqlValue, expirationTime: SqlValue)

  /** The columns an UPDATE may assign. */
  datatype Column =
    | Version | Mtime | Specifics | DataTypeMtime | UniquePosition | ParentId | Name
    | NonUniqueName | Deleted | Folder

  function NullableString(v: Option<string>): SqlValue {
    if v.Some? then Text(v.value) else Null
  }

  function NullableInt(v: Option<int>): SqlValue {
    if v.Some? then Integer(v.value) else Null
  }

  function BoolToInt(v: bool): int {
    if v then 1 else 0
  }

  function NullableBool(v: Option<bool>): SqlValue {
    if v.Some? then Integer(BoolToInt(v.value)) else Null
  }

  function NullableBlob(v: Option<Blob>): SqlValue {
    if v.Some? then Bytes(v.value) else Null
  }

  function StringOrNone(v: SqlValue): Option<string> {
    if v.Text? then Some(v.s) else None
  }

  function IntOrNone(v: SqlValue): Option<int> {
    if v.Integer? then Some(v.n) else None
  }

  function BoolOrNone(v: SqlValue): Option<bool> {
    if v.Integer? then Some(v.n != 0) else None
  }

  /** The driver hands an empty blob back as nil. */
  function BlobOrNone(v: SqlValue): Option<Blob> {
    if v.Bytes? && v.b.payload != [] then Some(v.b) else None
  }

  /** The argument list of the INSERT statement. */
  function Encode(e: Entity): Row {
    Row(Text(e.clientId), Text(e.id), NullableString(e.parentId), NullableInt(e.version),
        NullableInt(e.mtime), NullableInt(e.ctime), NullableString(e.name),
        NullableString(e.nonUniqueName), NullableString(e.serverTag), NullableBool(e.deleted),
        NullableString(e.cacheGuid), NullableString(e.clientItemId), NullableBlob(e.specifics),
        NullableInt(e.dataType), NullableBool(e.folder), NullableString(e.clientTag),
        NullableBlob(e.uniquePosition), NullableString(e.dataTypeMtime),
        NullableInt(e.expirationTime))
  }

  /** scanEntity. The two key columns are NOT NULL text. */
  function Decode(r: Row): Entity {
    Entity(GetOr(StringOrNone(r.clientId), ""), GetOr(StringOrNone(r.id), ""),
           StringOrNone(r.parentId), IntOrNone(r.version), IntOrNone(r.mtime), IntOrNone(r.ctime),
           StringOrNone(r.name), StringOrNone(r.nonUniqueName), StringOrNone(r.serverTag),
           BoolOrNone(r.deleted), StringOrNone(r.cacheGuid), StringOrNone(r.clientItemId),
           BlobOrNone(r.specifics), IntOrNone(r.dataType), BoolOrNone(r.folder),
           StringOrNone(r.clientTag), BlobOrNone(r.uniquePosition), StringOrNone(r.dataTypeMtime),
           IntOrNone(r.expirationTime))
  }

  function NonEmpty(b: Option<Blob>): Option<Blob> {
    if b.Some? && b.value.payload == [] then None else b
  }

  /** An entity with empty blobs replaced by absent ones. */
  function Normalised(e: Entity): Entity {
    e.(specifics := NonEmpty(e.specifics), uniquePosition := NonEmpty(e.uniquePosition))
  }

  /** Reading a stored row gives the entity back, up to empty against absent blobs. */
  lemma RowRoundTrip(e: Entity)
    ensures Decode(Encode(e)) == Normalised(e)
  {
  }

  /** What a client fetches is what was committed: everything the client set, with the
      server's id, version and mtime, its device, and the protocol's defaults. */
  lemma CommitFetchRoundTrip(pb: PbEntity, cacheGuid: Option<string>, client: string, now: int, uuid: string)
    requires ValidPbEntity(pb) && Addressable(pb)
    ensures var e := CreateDBSyncEntity(pb, cacheGuid, client, now, uuid).value;
            CreatePBSyncEntity(Decode(Encode(e)))
            == pb.(idString := Some(StoredId(pb, cacheGuid, uuid)), mtime := Some(now),
                   ctime := OrElse(pb.ctime, Some(now)),
                   cacheGuid := cacheGuid, clientItemId := if cacheGuid.Some? then pb.idString else None,
                   deleted := OrElse(pb.deleted, if pb.version == Some(0) then Some(false) else None),
                   folder := OrElse(pb.folder, if pb.version == Some(0) then Some(false) else None),
                   specifics := NonEmpty(pb.specifics), uniquePosition := NonEmpty(pb.uniquePosition))
  {
    RowRoundTrip(CreateDBSyncEntity(pb, cacheGuid, client, now, uuid).value);
  }

  // ---- UPDATE ----

  datatype Assignment = Assignment(column: Column, value: SqlValue)

  /** The four columns every update writes. */
  function FixedParts(e: Entity): seq<Assignment> {
    [Assignment(Version, NullableInt(e.version)), Assignment(Mtime, NullableInt(e.mtime)),
     Assignment(Specifics, NullableBlob(e.specifics)),
     Assignment(DataTypeMtime, NullableString(e.dataTypeMtime))]
  }

  function OptionalPart(c: Column, v: SqlValue): seq<Assignment> {
    if v.Null? then [] else [Assignment(c, v)]
  }

  /** The SET list in the order the source appends it. */
  function SetParts(e: Entity): seq<Assignment> {
    FixedParts(e)
    + OptionalPart(UniquePosition, NullableBlob(e.uniquePosition))
    + OptionalPart(ParentId, NullableString(e.parentId))
    + OptionalPart(Name, NullableString(e.name))
    + OptionalPart(NonUniqueName, NullableString(e.nonUniqueName))
    + OptionalPart(Deleted, NullableBool(e.deleted))
    + OptionalPart(Folder, NullableBool(e.folder))
  }

  function Assign(row: Row, c: Column, v: SqlValue): Row {
    match c
    case Version => row.(version := v)
    case Mtime => row.(mtime := v)
    case Specifics => row.(specifics := v)
    case DataTypeMtime => row.(dataTypeMtime := v)
    case UniquePosition => row.(uniquePosition := v)
    case ParentId => row.(parentId := v)
    case Name => row.(name := v)
    case NonUniqueName => row.(nonUniqueName := v)
    case Deleted => row.(deleted := v)
    case Folder => row.(folder := v)
  }

  function ExecSet(row: Row, parts: seq<Assignment>): Row
    decreases |parts|
  {
    if parts == [] then row else ExecSet(Assign(row, parts[0].column, parts[0].value), parts[1..])
  }

  lemma {:induction false} ExecSetConcat(row: Row, a: seq<Assignment>, b: seq<Assignment>)
    ensures ExecSet(row, a + b) == ExecSet(ExecSet(row, a), b)
    decreases |a|
  {
    if a == [] {
      assert a + b == b;
    } else {
      assert (a + b)[1..] == a[1..] + b;
      ExecSetConcat(Assign(row, a[0].column, a[0].value), a[1..], b);
    }
  }

  function SetIfPresent(row: Row, c: Column, v: SqlValue): Row {
    if v.Null? then row else Assign(row, c, v)
  }

  lemma ExecOptional(row: Row, parts: seq<Assignment>, c: Column, v: SqlValue)
    ensures ExecSet(row, parts + OptionalPart(c, v)) == SetIfPresent(ExecSet(row, parts), c, v)
  {
    ExecSetConcat(row, parts, OptionalPart(c, v));
  }

  lemma ExecFixed(row: Row, e: Entity)
    ensures ExecSet(row, FixedParts(e))
            == row.(version := NullableInt(e.version), mtime := NullableInt(e.mtime),
                    specifics := NullableBlob(e.specifics),
                    dataTypeMtime := NullableString(e.dataTypeMtime))
  {
    var p := FixedParts(e);
    assert p == p[..1] + p[1..2] + p[2..3] + p[3..4];
    ExecSetConcat(row, p[..1] + p[1..2] + p[2..3], p[3..4]);
    ExecSetConcat(row, p[..1] + p[1..2], p[2..3]);
    ExecSetConcat(row, p[..1], p[1..2]);
  }

  /** The SET list, one optional column at a time. */
  lemma ExecParts(row: Row, e: Entity)
    ensures var r0 := ExecSet(row, FixedParts(e));
            var r1 := SetIfPresent(r0, UniquePosition, NullableBlob(e.uniquePosition));
            var r2 := SetIfPresent(r1, ParentId, NullableString(e.parentId));
            var r3 := SetIfPresent(r2, Name, NullableString(e.name));
            var r4 := SetIfPresent(r3, NonUniqueName, NullableString(e.nonUniqueName));
            var r5 := SetIfPresent(r4, Deleted, NullableBool(e.deleted));
            ExecSet(row, SetParts(e)) == SetIfPresent(r5, Folder, NullableBool(e.folder))
  {
    var p1 := FixedParts(e) + OptionalPart(UniquePosition, NullableBlob(e.uniquePosition));
    var p2 := p1 + OptionalPart(ParentId, NullableString(e.parentId));
    var p3 := p2 + OptionalPart(Name, NullableString(e.name));
    var p4 := p3 + OptionalPart(NonUniqueName, NullableString(e.nonUniqueName));
    var p5 := p4 + OptionalPart(Deleted, NullableBool(e.deleted));
    ExecOptional(row, FixedParts(e), UniquePosition, NullableBlob(e.uniquePosition));
    ExecOptional(row, p1, ParentId, NullableString(e.parentId));
    ExecOptional(row, p2, Name, NullableString(e.name));
    ExecOptional(row, p3, NonUniqueName, NullableString(e.nonUniqueName));
    ExecOptional(row, p4, Deleted, NullableBool(e.deleted));
    ExecOptional(row, p5, Folder, NullableBool(e.folder));
  }

  /** Running the assembled UPDATE on the stored row and scanning it gives the overlay of
      the entity that had been stored. */
  lemma UpdateStatementIsOverlay(stored: Entity, e: Entity)
    ensures Decode(ExecSet(Encode(stored), SetParts(e))) == Normalised(Overlay(stored, e))
  {
    var x0 := stored.(version := e.version, mtime := e.mtime, specifics := e.specifics,
                      dataTypeMtime := e.dataTypeMtime);
    var x1 := x0.(uniquePosition := OrElse(e.uniquePosition, x0.uniquePosition));
    var x2 := x1.(parentId := OrElse(e.parentId, x1.parentId));
    var x3 := x2.(name := OrElse(e.name, x2.name));
    var x4 := x3.(nonUniqueName := OrElse(e.nonUniqueName, x3.nonUniqueName));
    var x5 := x4.(deleted := OrElse(e.deleted, x4.deleted));
    ExecFixed(Encode(stored), e);
    assert ExecSet(Encode(stored), FixedParts(e)) == Encode(x0);
    assert SetIfPresent(Encode(x0), UniquePosition, NullableBlob(e.uniquePosition)) == Encode(x1);
    assert SetIfPresent(Encode(x1), ParentId, NullableString(e.parentId)) == Encode(x2);
    assert SetIfPresent(Encode(x2), Name, NullableString(e.name)) == Encode(x3);
    assert SetIfPresent(Encode(x3), NonUniqueName, NullableString(e.nonUniqueName)) == Encode(x4);
    assert SetIfPresent(Encode(x4), Deleted, NullableBool(e.deleted)) == Encode(x5);
    assert SetIfPresent(Encode(x5), Folder, NullableBool(e.folder)) == Encode(Overlay(stored, e));
    ExecParts(Encode(stored), e);
    RowRoundTrip(Overlay(stored, e));
  }
}
