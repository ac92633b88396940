/** How a get-updates ends, and what a client is given when it joins (command/command.go,
    handleGetUpdatesRequest; server_defined_unique_entity.go). */
module NewClients {
  import opened Basics
  import Decimal
  import opened SyncEntities
  import opened MemoryCache
  import opened Cache
  import opened Tables
  import opened Query
  import opened GetUpdates
  import opened Commit
  import opened Server
  import opened CacheSoundness
  import opened Bootstrap
  import opened Expiry
  import Paging

  // ---- how the loop over the markers ends ----

  predicate IsMalformed(m: InMarker) {
    m.token == Some(Malformed)
  }

  /** The number a token stands for; an absent one stands for 0. */
  function TokenNumber(m: InMarker): int
    requires !IsMalformed(m)
  {
    match m.token
    case None => 0
    case Some(t) => t.value
  }

  /** The loop comes to the marker with the response not yet full. */
  ghost predicate Reached(c: GuContext, kv: KV, visits: seq<Visit>, i: nat)
    requires i < |c.msg.markers| && i < |visits|
  {
    Upto(c, kv, visits, i).rsp.status == Ok && |Upto(c, kv, visits, i).rsp.entries| < 500
  }

  /** A poll whose type is cached with an mtime no newer than its token. */
  ghost predicate CacheAnswers(c: GuContext, kv: KV, visits: seq<Visit>, i: nat)
    requires i < |c.msg.markers| && i < |visits| && !IsMalformed(c.msg.markers[i])
  {
    var cached := CachedAt(Upto(c, kv, visits, i).kv, c.client, c.msg.markers[i].dataType, visits[i].now);
    c.polls && c.msg.origin == Periodic && cached.Some? && cached.value <= TokenNumber(c.msg.markers[i])
  }

  /** The rows the store is asked for at marker i. */
  function AskedFor(c: GuContext, m: InMarker, now: int): Filter
    requires !IsMalformed(m)
  {
    Filter(c.client, m.dataType, TokenNumber(m), c.msg.fetchFolders.None? || c.msg.fetchFolders.value, now / 1000)
  }

  /** The query of marker i fails; or it is a new client's first for the nigori type, and no row matches. */
  ghost predicate Fails(rows: map<Key, Entity>, c: GuContext, kv: KV, visits: seq<Visit>, i: nat)
    requires i < |c.msg.markers| && i < |visits|
  {
    var m := c.msg.markers[i];
    && Reached(c, kv, visits, i) && !IsMalformed(m) && !CacheAnswers(c, kv, visits, i)
    && (|| visits[i].page == QueryFailed
        || (c.msg.origin == NewClient && m.dataType == 47745 && TokenNumber(m) == 0
            && forall k :: k in rows ==> !Matches(rows[k], AskedFor(c, m, visits[i].now))))
  }

  ghost predicate Garbled(c: GuContext, kv: KV, visits: seq<Visit>, i: nat)
    requires i < |c.msg.markers| && i < |visits|
  {
    Reached(c, kv, visits, i) && IsMalformed(c.msg.markers[i])
  }

  lemma CachedMeans(kv: KV, client: ClientId, dataType: int, token: int, now: int)
    ensures !TypeMtimeUpdated(kv, client, dataType, token, now)
            <==> CachedAt(kv, client, dataType, now).Some? && CachedAt(kv, client, dataType, now).value <= token
  {
    assert Decimal.Atoi("").None?;
  }

  lemma StateCacheAnswers(c: GuContext, st: GuState, m: InMarker, now: int)
    requires !IsMalformed(m) && st.rsp.status == Ok && |st.rsp.entries| < 500
    ensures var cached := CachedAt(st.kv, c.client, m.dataType, now);
            CacheSaysCurrent(c, st, m, now)
            <==> c.polls && c.msg.origin == Periodic && cached.Some? && cached.value <= TokenNumber(m)
  {
    CachedMeans(st.kv, c.client, m.dataType, TokenNumber(m), now);
  }

  lemma CacheAnswersMeans(c: GuContext, kv: KV, visits: seq<Visit>, i: nat)
    requires i < |c.msg.markers| && i < |visits| && !IsMalformed(c.msg.markers[i]) && Reached(c, kv, visits, i)
    ensures CacheAnswers(c, kv, visits, i)
            <==> CacheSaysCurrent(c, Upto(c, kv, visits, i), c.msg.markers[i], visits[i].now)
  {
    StateCacheAnswers(c, Upto(c, kv, visits, i), c.msg.markers[i], visits[i].now);
  }

  lemma NotReadyMeans(rows: map<Key, Entity>, c: GuContext, st: GuState, m: InMarker, v: Visit)
    requires LegalVisit(rows, c, st, m, v) && Queries(c, st, m, v.now) && v.page.Page?
    ensures NigoriNotReady(c, m, v.page)
            <==> c.msg.origin == NewClient && m.dataType == 47745 && TokenNumber(m) == 0
                 && forall k :: k in rows ==> !Matches(rows[k], AskedFor(c, m, v.now))
  {
    var f := FilterFor(c, m, v.now);
    assert f == AskedFor(c, m, v.now);
    MatchingIsPending(rows, f);
    if v.page.entities == [] {
      assert |PendingRows(rows, f)| == 0;
    } else {
      assert v.page.entities[0] in PendingRows(rows, f);
      var k :| k in rows && rows[k] == v.page.entities[0];
      assert Matches(rows[k], f);
    }
  }

  /** What the next marker does to the status. */
  lemma NextStatus(rows: map<Key, Entity>, c: GuContext, kv: KV, visits: seq<Visit>, i: nat)
    requires i < |visits| && i < |c.msg.markers| && LegalUpto(rows, c, kv, visits, i + 1)
    ensures var st, after := Upto(c, kv, visits, i), Upto(c, kv, visits, i + 1);
            after.rsp.status == if Garbled(c, kv, visits, i) then InternalError
                                else if Fails(rows, c, kv, visits, i) then Transient
                                else st.rsp.status
  {
    var st, m, v := Upto(c, kv, visits, i), c.msg.markers[i], visits[i];
    if Reached(c, kv, visits, i) && !IsMalformed(m) {
      CacheAnswersMeans(c, kv, visits, i);
      if Queries(c, st, m, v.now) && v.page.Page? { NotReadyMeans(rows, c, st, m, v); }
    }
  }

  /** A request is answered with Transient if and only if a query failed or a new client's first query for
      the nigori folder found none, with an internal error if and only if it came to a malformed token, and
      otherwise with Ok. */
  lemma {:induction false} StatusMeaning(rows: map<Key, Entity>, c: GuContext, kv: KV, visits: seq<Visit>, n: nat)
    requires n <= |visits| && n <= |c.msg.markers| && LegalUpto(rows, c, kv, visits, n)
    ensures var status := Upto(c, kv, visits, n).rsp.status;
            && (status == Transient <==> exists i :: 0 <= i < n && Fails(rows, c, kv, visits, i))
            && (status == InternalError <==> exists i :: 0 <= i < n && Garbled(c, kv, visits, i))
            && status != Throttled
    decreases n
  {
    if n > 0 {
      StatusMeaning(rows, c, kv, visits, n - 1);
      NextStatus(rows, c, kv, visits, n - 1);
    }
  }

  /** A new client that asks for the nigori type is given keys; nobody else is. */
  lemma {:induction false} KeysMeaning(c: GuContext, kv: KV, visits: seq<Visit>, n: nat)
    requires n <= |visits| && n <= |c.msg.markers|
    ensures var rsp := Upto(c, kv, visits, n).rsp;
            rsp.status == Ok ==>
              (rsp.encryptionKeys <==>
                 c.msg.origin == NewClient && exists i :: 0 <= i < n && c.msg.markers[i].dataType == 47745)
    decreases n
  {
    if n > 0 { KeysMeaning(c, kv, visits, n - 1); }
  }

  // ---- the bootstrap of the request ----

  /** No id and no server tag of the batch is in use, and no id comes twice. */
  predicate HasPlace(db: DB, es: seq<Entity>) {
    && (forall i :: 0 <= i < |es| ==> KeyOf(es[i]) !in db.rows && ServerTagOf(es[i]) !in db.tags)
    && (forall i, j :: 0 <= i < j < |es| ==> KeyOf(es[i]) != KeyOf(es[j]) && ServerTagOf(es[i]) != ServerTagOf(es[j]))
  }

  lemma PlaceForAll(db: DB, next: DB, es: seq<Entity>)
    requires es != [] && ServerTagOf(es[0]) !in db.tags && KeyOf(es[0]) !in db.rows
    requires next == db.(rows := db.rows[KeyOf(es[0]) := es[0]], tags := db.tags + {ServerTagOf(es[0])})
    requires HasPlace(next, es[1..])
    ensures HasPlace(db, es)
  {
    forall i | 0 < i < |es|
      ensures KeyOf(es[i]) !in next.rows && ServerTagOf(es[i]) !in next.tags
    {
      assert es[i] == es[1..][i - 1];
    }
    forall i, j | 0 <= i < j < |es|
      ensures KeyOf(es[i]) != KeyOf(es[j]) && ServerTagOf(es[i]) != ServerTagOf(es[j])
    {
      if i > 0 { assert es[i] == es[1..][i - 1] && es[j] == es[1..][j - 1]; }
    }
  }

  lemma PlaceForRest(db: DB, next: DB, es: seq<Entity>)
    requires es != [] && HasPlace(db, es)
    requires next == db.(rows := db.rows[KeyOf(es[0]) := es[0]], tags := db.tags + {ServerTagOf(es[0])})
    ensures HasPlace(next, es[1..])
  {
  }

  lemma {:induction false} BatchGoesIn(db: DB, es: seq<Entity>)
    ensures ServerEntitiesInserted(db, es).Some? <==> HasPlace(db, es)
    decreases |es|
  {
    if es != [] && ServerTagOf(es[0]) !in db.tags && KeyOf(es[0]) !in db.rows {
      var next := db.(rows := db.rows[KeyOf(es[0]) := es[0]], tags := db.tags + {ServerTagOf(es[0])});
      BatchGoesIn(next, es[1..]);
      if HasPlace(next, es[1..]) {
        PlaceForAll(db, next, es);
      } else if HasPlace(db, es) {
        PlaceForRest(db, next, es);
      }
    }
  }

  /** The request bootstraps, and cannot. */
  predicate BootstrapFails(w: World, call: Call)
    requires call.GuCall?
  {
    && call.msg.origin == NewClient && Key(call.client, "Server#google_chrome_nigori") !in w.db.tags
    && !HasPlace(w.db, call.batch)
  }

  /** The rows the markers of a request are answered from. */
  function RowsFor(w: World, call: Call): map<Key, Entity>
    requires call.GuCall?
  {
    GetOr(Bootstrapped(w.db, call), w.db).rows
  }

  lemma NigoriKey(client: ClientId)
    ensures ServerTagKey(client, NIGORI_TAG) == Key(client, "Server#google_chrome_nigori")
  {
  }

  lemma BootstrapMeaning(w: World, call: Call)
    requires call.GuCall?
    ensures BootstrapFails(w, call) <==> Bootstrapped(w.db, call).None?
  {
    BatchGoesIn(w.db, call.batch);
    NigoriKey(call.client);
  }

  lemma ServedStatus(cfg: Config, w: World, call: Call)
    requires call.GuCall? && WellFormed(call) && !IsDisabled(w.db, call.client)
    ensures var answer := Serve(cfg, w, call).answer;
            && answer.Updates?
            && answer.gu.status == (if call.msg.origin == NewClient && call.throttled then Throttled
                                    else if Bootstrapped(w.db, call).None? then Transient
                                    else Upto(GuContextOf(cfg, call), w.kv, call.visits, |call.visits|).rsp.status)
  {
  }

  /** How a get-updates request behind the gate is answered, whoever asks. */
  lemma UpdatesStatus(cfg: Config, w: World, call: Call)
    requires call.GuCall? && LegalCall(cfg, w, call) && !IsDisabled(w.db, call.client)
    ensures var answer, c := Serve(cfg, w, call).answer, GuContextOf(cfg, call);
            var n, rows := |call.visits|, RowsFor(w, call);
            var turnedAway := call.msg.origin == NewClient && call.throttled;
            && answer.Updates?
            && (answer.gu.status == Throttled <==> turnedAway)
            && (answer.gu.status == Transient <==>
                  !turnedAway
                  && (BootstrapFails(w, call) || exists i :: 0 <= i < n && Fails(rows, c, w.kv, call.visits, i)))
            && (answer.gu.status == InternalError <==>
                  !turnedAway && !BootstrapFails(w, call)
                  && exists i :: 0 <= i < n && Garbled(c, w.kv, call.visits, i))
  {
    BootstrapMeaning(w, call);
    ServedStatus(cfg, w, call);
    if !(call.msg.origin.NewClient? && call.throttled) && Bootstrapped(w.db, call).Some? {
      StatusMeaning(RowsFor(w, call), GuContextOf(cfg, call), w.kv, call.visits, |call.visits|);
    }
  }

  // ---- joining ----

  /** A device joins a chain that has nothing stored: it asks with folders, and the five entities get ids
      of their own and are stamped after the epoch. */
  ghost predicate Joins(w: World, call: Call) {
    && call.GuCall? && w.db == EMPTY_DB && call.msg.origin == NewClient && !call.throttled
    && (call.msg.fetchFolders.None? || call.msg.fetchFolders.value)
    && IsBatch(call.client, call.batch) && (forall e :: e in call.batch ==> e.mtime.value > 0)
    && (forall i, j :: 0 <= i < j < 5 ==> call.batch[i].id != call.batch[j].id)
  }

  lemma JoinBootstraps(w: World, call: Call)
    requires Joins(w, call)
    ensures Bootstrapped(w.db, call).Some?
    ensures forall e :: e in call.batch ==> KeyOf(e) in RowsFor(w, call) && RowsFor(w, call)[KeyOf(e)] == e
    ensures forall k :: k in RowsFor(w, call) ==> RowsFor(w, call)[k] in call.batch
  {
    forall i, j | 0 <= i < j < 5 ensures ServerTagOf(call.batch[i]) != ServerTagOf(call.batch[j]) {
      TagKeysDiffer(call.client, call.batch[i].serverTag.value, call.client, call.batch[j].serverTag.value);
    }
    BatchGoesIn(w.db, call.batch);
    BatchEffect(w.db, call.batch);
  }

  /** What the request finds at a marker for the nigori type and at one for bookmarks, from the start. */
  lemma JoinFinds(w: World, call: Call, nowSec: int)
    requires Joins(w, call)
    ensures PendingRows(RowsFor(w, call), Filter(call.client, 47745, 0, true, nowSec)) == {call.batch[0]}
    ensures PendingRows(RowsFor(w, call), Filter(call.client, 32904, 0, true, nowSec))
            == (set i | 1 <= i < 5 :: call.batch[i])
  {
    var rows := RowsFor(w, call);
    var nigori, bookmarks := Filter(call.client, 47745, 0, true, nowSec), Filter(call.client, 32904, 0, true, nowSec);
    JoinBootstraps(w, call);
    forall i | 0 <= i < 5
      ensures call.batch[i] in PendingRows(rows, if i == 0 then nigori else bookmarks)
    {
      assert call.batch[i] in call.batch;
      assert Visible(rows[KeyOf(call.batch[i])], if i == 0 then nigori else bookmarks);
    }
    forall e | e in PendingRows(rows, nigori) ensures e == call.batch[0] {
      var i :| 0 <= i < 5 && call.batch[i] == e;
    }
    forall e | e in PendingRows(rows, bookmarks) ensures exists i :: 1 <= i < 5 && call.batch[i] == e {
      var i :| 0 <= i < 5 && call.batch[i] == e;
    }
  }

  /** If every token is well-formed and no query fails, the first request is answered with Ok, and with
      keys if it asks for the nigori type. */
  lemma JoinSucceeds(cfg: Config, w: World, call: Call)
    requires Joins(w, call) && LegalCall(cfg, w, call)
    requires forall i :: 0 <= i < |call.msg.markers| ==> !IsMalformed(call.msg.markers[i])
    requires forall i :: 0 <= i < |call.visits| ==> call.visits[i].page.Page?
    ensures var answer := Serve(cfg, w, call).answer;
            && answer.Updates? && answer.gu.status == Ok
            && (answer.gu.encryptionKeys
                <==> exists i :: 0 <= i < |call.msg.markers| && call.msg.markers[i].dataType == 47745)
  {
    var c, rows := GuContextOf(cfg, call), RowsFor(w, call);
    JoinBootstraps(w, call);
    BatchGoesIn(w.db, call.batch);
    UpdatesStatus(cfg, w, call);
    forall i | 0 <= i < |call.visits| ensures !Fails(rows, c, w.kv, call.visits, i) {
      assert call.batch[0] in call.batch;
      var k := KeyOf(call.batch[0]);
      assert rows[k] == call.batch[0];
    }
    KeysMeaning(c, w.kv, call.visits, |call.visits|);
  }

  /** A folder of the five as a client receives it. */
  predicate IsServedFolder(pb: PbEntity) {
    && pb.deleted == Some(false) && pb.folder == Some(true) && pb.version == Some(1)
    && pb.serverTag.Some? && pb.name == Some(NameOf(pb.serverTag.value)) && pb.specifics.Some?
    && pb.clientTagHash.None? && pb.cacheGuid.None? && pb.clientItemId.None?
  }

  lemma BatchIsServed(client: ClientId, batch: seq<Entity>)
    requires IsBatch(client, batch)
    ensures forall i :: 0 <= i < 5 ==> IsServedFolder(CreatePBSyncEntity(batch[i]))
    ensures var nigori, root := CreatePBSyncEntity(batch[0]), CreatePBSyncEntity(batch[1]);
            && nigori.serverTag == Some("google_chrome_nigori") && nigori.name == Some("Nigori")
            && nigori.parentId == Some("0") && nigori.specifics.value.variant == 47745
            && root.serverTag == Some("google_chrome_bookmarks") && root.name == Some("Bookmarks")
            && root.parentId == Some("0")
            && forall i :: 1 <= i < 5 ==>
                 var pb := CreatePBSyncEntity(batch[i]);
                 pb.specifics.value.variant == 32904 && (i > 1 ==> pb.parentId == root.idString)
  {
  }

  lemma AllOf(es: seq<Entity>, pending: set<Entity>, size: nat)
    requires IsFirstOf(es, pending, size) && |pending| <= size
    ensures |es| == |pending| && forall e :: e in es <==> e in pending
  {
    Paging.FullPageIsAll(es, pending, size);
  }

  /** A marker whose rows all fit in the response. */
  lemma MarkerServed(rows: map<Key, Entity>, c: GuContext, st: GuState, m: InMarker, v: Visit)
    requires LegalVisit(rows, c, st, m, v) && st.rsp.status == Ok && StartToken(m).Varint? && v.page.Page?
    requires c.msg.origin == NewClient && Room(st) > 0
    requires var pending := PendingRows(rows, FilterFor(c, m, v.now)); pending != {} && |pending| <= Room(st)
    ensures var after := Next(c, st, m, v);
            && (forall e :: e in v.page.entities <==> e in PendingRows(rows, FilterFor(c, m, v.now)))
            && |v.page.entities| == |PendingRows(rows, FilterFor(c, m, v.now))|
            && after.rsp.status == Ok && after.rsp.changesRemaining == st.rsp.changesRemaining
            && after.rsp.entries == st.rsp.entries + ToPb(v.page.entities)
  {
    AllOf(v.page.entities, PendingRows(rows, FilterFor(c, m, v.now)), Room(st));
    assert v.page.entities != [];
    assert Next(c, st, m, v) == WithPage(c, st, m, v);
  }

  function FirstMarkers(): seq<InMarker> {
    [InMarker(47745, None), InMarker(32904, None)]
  }

  lemma FourBookmarks(client: ClientId, batch: seq<Entity>)
    requires IsBatch(client, batch)
    ensures |set i | 1 <= i < 5 :: batch[i]| == 4
  {
    assert (set i | 1 <= i < 5 :: batch[i]) == {batch[1], batch[2], batch[3], batch[4]};
    assert forall i, j :: 0 <= i < j < 5 ==> batch[i] != batch[j];
  }

  lemma ServedAs(es: seq<Entity>, e: Entity)
    requires e in es
    ensures CreatePBSyncEntity(e) in ToPb(es)
  {
    var i :| 0 <= i < |es| && es[i] == e;
    assert ToPb(es)[i] == CreatePBSyncEntity(e);
  }

  /** The first request of a chain, for nigori and bookmarks: Ok, keys, nothing remaining; first the nigori
      folder, then the four bookmark folders, all live, at version 1, named and placed as they should be. */
  lemma FirstRequest(cfg: Config, w: World, call: Call)
    requires Joins(w, call) && LegalCall(cfg, w, call) && call.msg.markers == FirstMarkers()
    requires forall i :: 0 <= i < |call.visits| ==> call.visits[i].page.Page?
    ensures var answer := Serve(cfg, w, call).answer;
            && answer.Updates? && answer.gu.status == Ok && answer.gu.encryptionKeys
            && answer.gu.changesRemaining == 0 && |answer.gu.entries| == 5
            && answer.gu.entries[0] == CreatePBSyncEntity(call.batch[0])
            && (forall i :: 1 <= i < 5 ==> CreatePBSyncEntity(call.batch[i]) in answer.gu.entries)
            && (forall i :: 0 <= i < 5 ==> IsServedFolder(CreatePBSyncEntity(call.batch[i])))
  {
    var c, rows, kv := GuContextOf(cfg, call), RowsFor(w, call), w.kv;
    var v0, v1 := call.visits[0], call.visits[1];
    JoinSucceeds(cfg, w, call);
    JoinBootstraps(w, call);
    JoinFinds(w, call, v0.now / 1000);
    JoinFinds(w, call, v1.now / 1000);
    LegalAt(rows, c, kv, call.visits, 2, 0);
    LegalAt(rows, c, kv, call.visits, 2, 1);
    assert c.msg.markers[0].dataType == 47745;
    MarkerServed(rows, c, Upto(c, kv, call.visits, 0), c.msg.markers[0], v0);
    assert v0.page.entities == [call.batch[0]];
    FourBookmarks(call.client, call.batch);
    MarkerServed(rows, c, Upto(c, kv, call.visits, 1), c.msg.markers[1], v1);
    BatchIsServed(call.client, call.batch);
    forall i | 1 <= i < 5 ensures CreatePBSyncEntity(call.batch[i]) in ToPb(v1.page.entities) {
      ServedAs(v1.page.entities, call.batch[i]);
    }
  }

  /** A new client that does not fetch folders never gets past its first query for the nigori type: the
      nigori folder is a folder. */
  lemma WithoutFoldersNeverReady(rows: map<Key, Entity>, c: GuContext, kv: KV, visits: seq<Visit>, i: nat)
    requires Legal(rows, c, kv, visits) && c.msg.origin == NewClient && c.msg.fetchFolders == Some(false)
    requires i < |visits| && Reached(c, kv, visits, i)
    requires c.msg.markers[i].dataType == 47745 && c.msg.markers[i].token == None
    requires forall k :: k in rows && rows[k].clientId == c.client && rows[k].dataType == Some(47745) ==>
               rows[k].folder == Some(true)
    ensures Result(c, kv, visits).rsp.status == Transient
  {
    assert Fails(rows, c, kv, visits, i);
    StatusMeaning(rows, c, kv, visits, |visits|);
  }
}
