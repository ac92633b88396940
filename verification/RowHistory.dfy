/** What a row is, over any interleaving of transactions: the fold of the writes accepted for
    its key, each of which was based on the one before. */
module RowHistory {
  import opened Basics
  import opened SyncEntities
  import opened Tables

  /** An accepted write: the insert has no base version, an update names the one it replaces. */
  datatype Write = Write(base: Option<int>, entity: Entity)

  function EntityWithKey(es: seq<Entity>, k: Key): Option<Entity> {
    if es == [] then None
    else if KeyOf(es[0]) == k then Some(es[0])
    else EntityWithKey(es[1..], k)
  }

  /** The writes accepted for a key since its row was last created. */
  function Writes(txns: seq<Txn>, k: Key): seq<Write> {
    if txns == [] then []
    else
      var before, t := txns[..|txns| - 1], txns[|txns| - 1];
      var db := After(before);
      match t
      case Insert(e) =>
        if KeyOf(e) == k && !InsertConflicts(db, e) then [Write(None, e)] else Writes(before, k)
      case Update(e, base) =>
        if KeyOf(e) == k && UpdateAccepted(db, e, base) then Writes(before, k) + [Write(Some(base), e)]
        else Writes(before, k)
      case InsertServerEntities(es) =>
        if ServerEntitiesInserted(db, es).Some? && EntityWithKey(es, k).Some?
        then [Write(None, EntityWithKey(es, k).value)] else Writes(before, k)
      case Clear(c) => if Clearable(k, c) then [] else Writes(before, k)
      case _ => Writes(before, k)
  }

  /** The first entity overlaid by the later ones in order. */
  function Content(ws: seq<Write>): Entity
    requires ws != []
  {
    if |ws| == 1 then ws[0].entity
    else Overlay(Content(ws[..|ws| - 1]), ws[|ws| - 1].entity)
  }

  lemma {:induction false} KeyStaysTaken(db: DB, es: seq<Entity>, k: Key)
    requires ServerEntitiesInserted(db, es).Some? && k in db.rows
    ensures EntityWithKey(es, k).None?
    decreases |es|
  {
    if es != [] {
      KeyStaysTaken(db.(rows := db.rows[KeyOf(es[0]) := es[0]], tags := db.tags + {ServerTagOf(es[0])}), es[1..], k);
    }
  }

  lemma {:induction false} ServerEntityRow(db: DB, es: seq<Entity>, k: Key)
    requires ServerEntitiesInserted(db, es).Some?
    ensures var after := ServerEntitiesInserted(db, es).value;
            if EntityWithKey(es, k).Some? then k in after.rows && after.rows[k] == EntityWithKey(es, k).value
            else (k in after.rows <==> k in db.rows) && (k in db.rows ==> after.rows[k] == db.rows[k])
    decreases |es|
  {
    if es != [] {
      var next := db.(rows := db.rows[KeyOf(es[0]) := es[0]], tags := db.tags + {ServerTagOf(es[0])});
      ServerEntityRow(next, es[1..], k);
      if KeyOf(es[0]) == k { KeyStaysTaken(next, es[1..], k); }
    }
  }

  /** In every reachable state a row exists exactly when a write created it, and it is its
      inserted entity overlaid by the accepted updates in order. */
  lemma {:induction false} RowIsFoldOfWrites(txns: seq<Txn>, k: Key)
    requires k.id != DISABLED_CHAIN_ID
    ensures k in After(txns).rows <==> Writes(txns, k) != []
    ensures k in After(txns).rows ==> After(txns).rows[k] == Content(Writes(txns, k))
  {
    if txns != [] {
      var before, t := txns[..|txns| - 1], txns[|txns| - 1];
      RowIsFoldOfWrites(before, k);
      match t
      case Update(e, base) =>
        var ws := Writes(txns, k);
        if KeyOf(e) == k && UpdateAccepted(After(before), e, base) {
          assert ws[..|ws| - 1] == Writes(before, k);
        }
      case InsertServerEntities(es) =>
        if ServerEntitiesInserted(After(before), es).Some? { ServerEntityRow(After(before), es, k); }
      case _ =>
    }
  }

  // ---- the columns of the fold ----

  /** The value of an optional column in the last write that carries one. */
  function LastCarried<T>(ws: seq<Write>, column: Entity -> Option<T>): Option<T> {
    if ws == [] then None
    else OrElse(column(ws[|ws| - 1].entity), LastCarried(ws[..|ws| - 1], column))
  }

  /** Each optional column holds the last value any write carried for it. */
  lemma {:induction false} OptionalColumns(ws: seq<Write>)
    requires ws != []
    ensures Content(ws).parentId == LastCarried(ws, (e: Entity) => e.parentId)
    ensures Content(ws).name == LastCarried(ws, (e: Entity) => e.name)
    ensures Content(ws).nonUniqueName == LastCarried(ws, (e: Entity) => e.nonUniqueName)
    ensures Content(ws).deleted == LastCarried(ws, (e: Entity) => e.deleted)
    ensures Content(ws).folder == LastCarried(ws, (e: Entity) => e.folder)
    ensures Content(ws).uniquePosition == LastCarried(ws, (e: Entity) => e.uniquePosition)
  {
    if |ws| > 1 {
      OptionalColumns(ws[..|ws| - 1]);
    } else {
      assert ws[..0] == [];
    }
  }

  /** Version, mtime, specifics and range key are those of the last write; identity, type,
      tags, origin, creation and expiry are those of the first. */
  lemma {:induction false} FixedColumns(ws: seq<Write>)
    requires ws != []
    ensures var c, first, last := Content(ws), ws[0].entity, ws[|ws| - 1].entity;
            && c.version == last.version && c.mtime == last.mtime
            && c.specifics == last.specifics && c.dataTypeMtime == last.dataTypeMtime
            && KeyOf(c) == KeyOf(first) && c.dataType == first.dataType && c.clientTag == first.clientTag
            && c.serverTag == first.serverTag && c.cacheGuid == first.cacheGuid
            && c.clientItemId == first.clientItemId && c.ctime == first.ctime
            && c.expirationTime == first.expirationTime
  {
    if |ws| > 1 {
      FixedColumns(ws[..|ws| - 1]);
    }
  }

  // ---- no lost updates ----

  /** Every update request for the key carries a type whose version is checked. */
  predicate VersionChecked(txns: seq<Txn>, k: Key) {
    forall i :: 0 <= i < |txns| && txns[i].Update? && KeyOf(txns[i].e) == k ==>
      txns[i].e.dataType.Some? && txns[i].e.dataType.value != HISTORY_TYPE_ID
  }

  /** Each accepted update names the version that the accepted write before it left. */
  predicate IsChain(ws: seq<Write>) {
    forall j :: 0 < j < |ws| ==> ws[j].base.Some? && ws[j].base == ws[j - 1].entity.version
  }

  lemma {:induction false} AcceptedUpdatesChain(txns: seq<Txn>, k: Key)
    requires k.id != DISABLED_CHAIN_ID && VersionChecked(txns, k)
    ensures IsChain(Writes(txns, k))
  {
    if txns != [] {
      var before, t := txns[..|txns| - 1], txns[|txns| - 1];
      AcceptedUpdatesChain(before, k);
      RowIsFoldOfWrites(before, k);
      if t.Update? && KeyOf(t.e) == k && UpdateAccepted(After(before), t.e, t.base) {
        var ws := Writes(before, k);
        FixedColumns(ws);
        assert t == txns[|txns| - 1];
        assert Writes(txns, k) == ws + [Write(Some(t.base), t.e)];
      }
    }
  }

  /** The accepted writes are stamped by a clock that does not go back. */
  predicate StampsInOrder(ws: seq<Write>) {
    && (forall i :: 0 <= i < |ws| ==> ws[i].entity.version.Some?)
    && (forall i, j :: 0 <= i < j < |ws| ==> ws[i].entity.version.value <= ws[j].entity.version.value)
  }

  /** An accepted update leaves the version it was based on: it met its base in the millisecond
      that stamped it. */
  predicate LeavesItsBase(ws: seq<Write>, i: nat)
    requires i < |ws|
  {
    ws[i].base.Some? && ws[i].entity.version == ws[i].base
  }

  predicate SameBase(ws: seq<Write>, i: nat, j: nat) {
    0 < i < j < |ws| && ws[i].base == ws[j].base
  }

  /** Under any interleaving, of several updates of a row based on one version at most one is
      accepted, unless an accepted update, with another after it, was stamped in the very
      millisecond of its base: then, and only then, one base is accepted twice. */
  lemma NoLostUpdates(txns: seq<Txn>, k: Key)
    requires k.id != DISABLED_CHAIN_ID && VersionChecked(txns, k) && StampsInOrder(Writes(txns, k))
    ensures var ws := Writes(txns, k);
            (exists i: nat, j: nat :: SameBase(ws, i, j))
              <==> (exists i: nat :: 0 < i < |ws| - 1 && LeavesItsBase(ws, i))
  {
    var ws := Writes(txns, k);
    AcceptedUpdatesChain(txns, k);
    if i: nat, j: nat :| SameBase(ws, i, j) {
      assert ws[i].base == ws[i - 1].entity.version && ws[j].base == ws[j - 1].entity.version;
      assert ws[i - 1].entity.version.value <= ws[i].entity.version.value <= ws[j - 1].entity.version.value;
      assert LeavesItsBase(ws, i);
    }
    if i: nat :| 0 < i < |ws| - 1 && LeavesItsBase(ws, i) {
      assert ws[i + 1].base == ws[i].entity.version;
      assert SameBase(ws, i, i + 1);
    }
  }
}
