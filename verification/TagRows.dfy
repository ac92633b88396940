/** Uniqueness of client-defined tags, over any interleaving of transactions. */
module TagRows {
  import opened Basics
  import opened SyncEntities
  import opened Tables

  predicate LiveTagged(e: Entity) {
    UsesTag(e) && !IsDeleted(e)
  }

  /** Every live tagged row owns its tag row, and no two share one. */
  predicate TagsOwned(db: DB) {
    && KeyedRows(db)
    && (forall k :: k in db.rows && LiveTagged(db.rows[k]) ==> OwnTag(db.rows[k]) <= db.tags)
    && (forall k, k' ::
          (k in db.rows && k' in db.rows && LiveTagged(db.rows[k]) && LiveTagged(db.rows[k'])
           && OwnTag(db.rows[k]) == OwnTag(db.rows[k'])) ==> k == k')
  }

  /** An undelete of a tagged row takes back a tag that nobody else took since: its tag row is
      there and no other live row carries the tag. */
  predicate RevivalFits(db: DB, e: Entity)
    requires KeyOf(e) in db.rows
  {
    var row := db.rows[KeyOf(e)];
    (UsesTag(row) && IsDeleted(row) && e.deleted == Some(false)) ==>
      && OwnTag(row) <= db.tags
      && (forall k :: k in db.rows && k != KeyOf(e) && LiveTagged(db.rows[k]) ==> OwnTag(db.rows[k]) != OwnTag(row))
  }

  /** A delete gives up no tag that another live row holds. */
  predicate ReleaseFits(db: DB, e: Entity) {
    forall k :: k in db.rows && k != KeyOf(e) && LiveTagged(db.rows[k]) ==> OwnTag(db.rows[k]) !! ReleasedTag(e)
  }

  /** What a transaction must not do to the tags: an update revives or releases only a tag that
      is free for it, and a clear, which spares the row under the marker's id but no tag row, finds
      no live tagged row there. */
  predicate KeepsTags(db: DB, t: Txn) {
    match t
    case Clear(c) => Key(c, DISABLED_CHAIN_ID) in db.rows ==> !LiveTagged(db.rows[Key(c, DISABLED_CHAIN_ID)])
    case Update(e, base) => UpdateAccepted(db, e, base) ==> RevivalFits(db, e) && ReleaseFits(db, e)
    case _ => true
  }

  /** The server's own entities carry no client tag. */
  predicate PlainBatch(t: Txn) {
    t.InsertServerEntities? ==> forall e :: e in t.es ==> e.clientTag.None?
  }

  lemma InsertOwnsTag(db: DB, e: Entity)
    requires TagsOwned(db)
    ensures TagsOwned(Inserted(db, e))
  {
    if !InsertConflicts(db, e) {
      assert Inserted(db, e).rows[KeyOf(e)] == e;
      forall k | k in db.rows && LiveTagged(db.rows[k]) && UsesTag(e)
        ensures OwnTag(db.rows[k]) != OwnTag(e)
      {
        assert ClientTagKey(e.clientId, e.clientTag.value) in OwnTag(e);
        assert ClientTagKey(db.rows[k].clientId, db.rows[k].clientTag.value) in OwnTag(db.rows[k]);
      }
    }
  }

  /** An update changes neither tag nor type of its row; a row it leaves live was live or is
      revived by it. */
  lemma UpdatedRow(db: DB, e: Entity, base: int)
    requires UpdateAccepted(db, e, base)
    ensures var row, row' := db.rows[KeyOf(e)], Updated(db, e, base).rows[KeyOf(e)];
            && OwnTag(row') == OwnTag(row) && UsesTag(row') == UsesTag(row) && KeyOf(row') == KeyOf(row)
            && (LiveTagged(row') ==> ReleasedTag(e) == {})
            && (LiveTagged(row') && !LiveTagged(row) <==> UsesTag(row) && IsDeleted(row) && e.deleted == Some(false))
  {
    if e.deleted.Some? && !e.deleted.value { assert e.deleted == Some(false); }
  }

  lemma FittingUpdateOwnsTag(db: DB, e: Entity, base: int)
    requires TagsOwned(db) && UpdateAccepted(db, e, base) && RevivalFits(db, e) && ReleaseFits(db, e)
    ensures TagsOwned(Updated(db, e, base))
  {
    UpdatedRow(db, e, base);
    var after := Updated(db, e, base);
    forall k | k in after.rows && LiveTagged(after.rows[k]) ensures OwnTag(after.rows[k]) <= after.tags {
      if k != KeyOf(e) { assert after.rows[k] == db.rows[k]; }
    }
    forall k, k' | k in after.rows && k' in after.rows && LiveTagged(after.rows[k]) && LiveTagged(after.rows[k'])
                   && OwnTag(after.rows[k]) == OwnTag(after.rows[k'])
      ensures k == k'
    {
      assert k != KeyOf(e) ==> after.rows[k] == db.rows[k];
      assert k' != KeyOf(e) ==> after.rows[k'] == db.rows[k'];
    }
  }

  lemma OwnedAfterUpdateFits(db: DB, e: Entity, base: int)
    requires TagsOwned(db) && UpdateAccepted(db, e, base) && TagsOwned(Updated(db, e, base))
    ensures RevivalFits(db, e) && ReleaseFits(db, e)
  {
    UpdatedRow(db, e, base);
    var after := Updated(db, e, base);
    forall k | k in db.rows && k != KeyOf(e) && LiveTagged(db.rows[k])
      ensures OwnTag(db.rows[k]) !! ReleasedTag(e)
      ensures LiveTagged(after.rows[KeyOf(e)]) ==> OwnTag(db.rows[k]) != OwnTag(db.rows[KeyOf(e)])
    {
      assert after.rows[k] == db.rows[k];
      assert OwnTag(after.rows[k]) <= after.tags;
    }
  }

  /** Exactly the updates that revive and release only what is free keep the tags owned. */
  lemma UpdateOwnsTag(db: DB, e: Entity, base: int)
    requires TagsOwned(db)
    ensures TagsOwned(Updated(db, e, base)) <==> KeepsTags(db, Update(e, base))
  {
    if UpdateAccepted(db, e, base) {
      UpdatedRow(db, e, base);
      if RevivalFits(db, e) && ReleaseFits(db, e) { FittingUpdateOwnsTag(db, e, base); }
      if TagsOwned(Updated(db, e, base)) { OwnedAfterUpdateFits(db, e, base); }
    }
  }

  lemma {:induction false} ServerEntitiesOwnTags(db: DB, es: seq<Entity>)
    requires TagsOwned(db) && ServerEntitiesInserted(db, es).Some?
    requires forall e :: e in es ==> e.clientTag.None?
    ensures TagsOwned(ServerEntitiesInserted(db, es).value)
    decreases |es|
  {
    if es != [] {
      var next := db.(rows := db.rows[KeyOf(es[0]) := es[0]], tags := db.tags + {ServerTagOf(es[0])});
      assert !LiveTagged(es[0]);
      assert TagsOwned(next);
      ServerEntitiesOwnTags(next, es[1..]);
    }
  }

  lemma ClearOwnsTags(db: DB, client: ClientId)
    requires TagsOwned(db)
    ensures TagsOwned(Cleared(db, client)) <==> KeepsTags(db, Clear(client))
  {
    var after, marker := Cleared(db, client), Key(client, DISABLED_CHAIN_ID);
    if marker in db.rows && LiveTagged(db.rows[marker]) {
      assert marker in after.rows && after.rows[marker] == db.rows[marker];
      assert ClientTagKey(client, db.rows[marker].clientTag.value) in OwnTag(after.rows[marker]);
    } else {
      forall k | k in after.rows && LiveTagged(after.rows[k]) ensures OwnTag(after.rows[k]) <= after.tags {
        assert k.client != client && OwnTag(db.rows[k]) <= db.tags;
      }
    }
  }

  /** Exactly the transactions that keep the tags leave them owned. */
  lemma StepOwnsTags(db: DB, t: Txn)
    requires TagsOwned(db) && PlainBatch(t)
    ensures TagsOwned(Step(db, t)) <==> KeepsTags(db, t)
  {
    match t
    case Insert(e) => InsertOwnsTag(db, e);
    case Update(e, base) => UpdateOwnsTag(db, e, base);
    case InsertServerEntities(es) =>
      if ServerEntitiesInserted(db, es).Some? { ServerEntitiesOwnTags(db, es); }
    case Clear(c) => ClearOwnsTags(db, c);
    case _ =>
  }

  /** Each transaction of the run keeps the tags of the state it meets. */
  predicate AllKeepTags(txns: seq<Txn>) {
    txns == [] || (AllKeepTags(txns[..|txns| - 1]) && KeepsTags(After(txns[..|txns| - 1]), txns[|txns| - 1]))
  }

  /** The tags are owned in every state of the run. */
  predicate AlwaysOwned(txns: seq<Txn>) {
    TagsOwned(After(txns)) && (txns == [] || AlwaysOwned(txns[..|txns| - 1]))
  }

  /** Over every interleaving: in all its states at most one live row of a client carries a given
      tag, and its tag row is there to keep others out, if and only if every update revives and
      releases only tags that are free for it, and no clear finds a live tagged row under the
      marker's id. */
  lemma {:induction false} TagsStayUnique(txns: seq<Txn>)
    requires forall i :: 0 <= i < |txns| ==> PlainBatch(txns[i])
    ensures AlwaysOwned(txns) <==> AllKeepTags(txns)
  {
    if txns != [] {
      TagsStayUnique(txns[..|txns| - 1]);
      if AlwaysOwned(txns[..|txns| - 1]) {
        StepOwnsTags(After(txns[..|txns| - 1]), txns[|txns| - 1]);
      }
    }
  }

  lemma TagsMeet(a: Entity, b: Entity)
    ensures OwnTag(a) !! OwnTag(b) || (UsesTag(a) && UsesTag(b) && OwnTag(a) == OwnTag(b))
  {
  }

  /** Requests that address live rows and carry the row's type, and its tag or none, always keep
      the tags. */
  lemma UpdateOfLiveRowKeepsTags(db: DB, e: Entity, base: int)
    requires TagsOwned(db) && UpdateAccepted(db, e, base) && !IsDeleted(db.rows[KeyOf(e)])
    requires e.dataType == db.rows[KeyOf(e)].dataType
    requires e.clientTag.None? || e.clientTag == db.rows[KeyOf(e)].clientTag
    ensures KeepsTags(db, Update(e, base))
  {
    var row := db.rows[KeyOf(e)];
    forall k | k in db.rows && k != KeyOf(e) && LiveTagged(db.rows[k])
      ensures OwnTag(db.rows[k]) !! ReleasedTag(e)
    {
      if ReleasedTag(e) != {} {
        assert LiveTagged(row) && ReleasedTag(e) == OwnTag(row);
        TagsMeet(db.rows[k], row);
      }
    }
  }

  /** Only the server's own batch and a clear touch a server tag row. */
  lemma ServerTagsUntouched(db: DB, t: Txn, client: ClientId, tag: string)
    requires !t.InsertServerEntities? && !(t.Clear? && t.client == client)
    ensures ServerTagKey(client, tag) in Step(db, t).tags <==> ServerTagKey(client, tag) in db.tags
  {
    if t.Insert? && UsesTag(t.e) { TagKeysDiffer(t.e.clientId, t.e.clientTag.value, client, tag); }
    if t.Update? && UsesTag(t.e) { TagKeysDiffer(t.e.clientId, t.e.clientTag.value, client, tag); }
  }

  // ---- how uniqueness fails ----

  /** Two live rows of the store carry one tag. */
  ghost predicate TagShared(db: DB, k: Key, k': Key) {
    && k in db.rows && k' in db.rows && k != k'
    && LiveTagged(db.rows[k]) && LiveTagged(db.rows[k']) && OwnTag(db.rows[k]) == OwnTag(db.rows[k'])
  }

  /** The entity is deleted, or undeleted, in its next version. */
  function NextVersion(e: Entity, deleted: bool): Txn
    requires e.version.Some?
  {
    Update(e.(deleted := Some(deleted), version := Some(e.version.value + 1)), e.version.value)
  }

  lemma AfterDelete(e: Entity) returns (dead: DB)
    requires UsesTag(e) && e.deleted == Some(false) && e.version == Some(1)
    ensures dead == After([Insert(e), NextVersion(e, true)])
    ensures dead.rows == map[KeyOf(e) := e.(deleted := Some(true), version := Some(2))] && dead.tags == {}
  {
    var txns := [Insert(e), NextVersion(e, true)];
    assert txns[..1] == [Insert(e)] && txns[..1][..0] == [];
    var live := Step(EMPTY_DB, Insert(e));
    assert After([Insert(e)]) == live && live.rows == map[KeyOf(e) := e] && live.tags == OwnTag(e);
    dead := Step(live, NextVersion(e, true));
    assert ReleasedTag(NextVersion(e, true).e) == OwnTag(e);
  }

  /** A row that is undeleted comes back without its tag row, so a second live row with the same
      tag can be inserted. */
  lemma UndeleteBreaksUniqueness(e: Entity, twin: Entity)
    requires UsesTag(e) && e.deleted == Some(false) && e.version == Some(1)
    requires twin == e.(id := twin.id) && twin.id != e.id
    ensures var deleted := NextVersion(e, true);
            var txns := [Insert(e), deleted, NextVersion(deleted.e, false), Insert(twin)];
            TagShared(After(txns), KeyOf(e), KeyOf(twin))
  {
    var deleted := NextVersion(e, true);
    var txns := [Insert(e), deleted, NextVersion(deleted.e, false), Insert(twin)];
    var dead := AfterDelete(e);
    assert txns[..2] == [Insert(e), deleted] && txns[..3][..2] == txns[..2] && txns[..3] == txns[..4][..3];
    assert txns == txns[..3] + [Insert(twin)] && txns[..3] == txns[..2] + [NextVersion(deleted.e, false)];
    var back := Step(dead, NextVersion(deleted.e, false));
    assert After(txns[..3]) == back;
    assert back.tags == {} && LiveTagged(back.rows[KeyOf(e)]) && KeyOf(twin) !in back.rows;
  }

  /** A row that is deleted a second time takes away the tag row of the live row that has its
      tag by now, so a third row with the tag can be inserted. */
  lemma SecondDeleteBreaksUniqueness(e: Entity, twin: Entity, third: Entity)
    requires UsesTag(e) && e.deleted == Some(false) && e.version == Some(1)
    requires twin == e.(id := twin.id) && twin.id != e.id
    requires third == e.(id := third.id) && third.id != e.id && third.id != twin.id
    ensures var deleted := NextVersion(e, true);
            var txns := [Insert(e), deleted, Insert(twin), NextVersion(deleted.e, true), Insert(third)];
            TagShared(After(txns), KeyOf(twin), KeyOf(third))
  {
    var deleted := NextVersion(e, true);
    var txns := [Insert(e), deleted, Insert(twin), NextVersion(deleted.e, true), Insert(third)];
    var dead := AfterDelete(e);
    assert txns[..2] == [Insert(e), deleted] && txns[..3] == txns[..2] + [Insert(twin)];
    assert txns[..4] == txns[..3] + [NextVersion(deleted.e, true)] && txns == txns[..4] + [Insert(third)];
    assert txns[..3][..2] == txns[..2] && txns[..4][..3] == txns[..3];
    var taken := Step(dead, Insert(twin));
    assert After(txns[..3]) == taken && taken.rows[KeyOf(twin)] == twin;
    var robbed := Step(taken, NextVersion(deleted.e, true));
    assert After(txns[..4]) == robbed && robbed.rows[KeyOf(twin)] == twin && robbed.tags == {};
    assert KeyOf(third) !in robbed.rows;
  }
}
