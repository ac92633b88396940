/** When the mtime cache may be believed: no unexpired row of a type is newer than the mtime
    cached for it. */
module CacheSoundness {
  import opened Basics
  import opened Decimal
  import opened SyncEntities
  import opened MemoryCache
  import opened Cache
  import opened Tables
  import opened Query
  import opened GetUpdates
  import opened Paging

  /** The cached mtime of a client's type, if a live one is readable. */
  function CachedAt(kv: KV, client: ClientId, dataType: int, now: int): Option<int> {
    var key := TypeMtimeKey(client, dataType);
    if key in kv && !Expired(kv[key], now) then Atoi(kv[key].value) else None
  }

  /** The row is of a type, stamped, and not expired. */
  predicate Current(e: Entity, now: int) {
    e.dataType.Some? && e.mtime.Some? && NotExpired(e, now / 1000)
  }

  lemma StampIsCached(kv: KV, client: ClientId, dataType: int, mtime: int, now: int, c: ClientId, t: int)
    ensures CachedAt(WithTypeMtime(kv, client, dataType, mtime, now), c, t, now)
            == if c == client && t == dataType then Some(mtime) else CachedAt(kv, c, t, now)
  {
    ItoaRoundTrip(mtime);
    if TypeMtimeKey(c, t) == TypeMtimeKey(client, dataType) { TypeMtimeKeyInjective(c, t, client, dataType); }
  }

  /** A cached mtime is believed for ten minutes and no longer. */
  lemma StampLasts(kv: KV, client: ClientId, dataType: int, mtime: int, now: int, later: int)
    ensures CachedAt(WithTypeMtime(kv, client, dataType, mtime, now), client, dataType, later)
            == if later <= now + 600000 then Some(mtime) else None
  {
    ItoaRoundTrip(mtime);
  }

  /** The row is not newer than the mtime cached for its type, if there is one. */
  predicate Believed(kv: KV, e: Entity, now: int) {
    Current(e, now) ==>
      CachedAt(kv, e.clientId, e.dataType.value, now).Some? ==>
        e.mtime.value <= CachedAt(kv, e.clientId, e.dataType.value, now).value
  }

  ghost predicate Sound(rows: map<Key, Entity>, kv: KV, now: int) {
    forall k :: k in rows ==> Believed(kv, rows[k], now)
  }

  lemma SoundLater(rows: map<Key, Entity>, kv: KV, now: int, later: int)
    requires Sound(rows, kv, now) && now <= later
    ensures Sound(rows, kv, later)
  {
  }

  /** The row is new or changed. */
  predicate Written(rows: map<Key, Entity>, after: map<Key, Entity>, k: Key) {
    k in after && !(k in rows && after[k] == rows[k])
  }

  /** Writing rows keeps a sound cache sound exactly when it believes the rows written. */
  lemma WritesKeepSound(rows: map<Key, Entity>, after: map<Key, Entity>, kv: KV, now: int)
    requires Sound(rows, kv, now)
    ensures Sound(after, kv, now) <==> forall k :: Written(rows, after, k) ==> Believed(kv, after[k], now)
  {
    if forall k :: Written(rows, after, k) ==> Believed(kv, after[k], now) {
      forall k | k in after ensures Believed(kv, after[k], now) {
        if Written(rows, after, k) {}
      }
    }
  }

  lemma DropKeepsSound(rows: map<Key, Entity>, kv: KV, key: string, now: int)
    requires Sound(rows, kv, now)
    ensures Sound(rows, DropIfExpired(kv, key, now), now)
  {
  }

  // ---- get-updates and the cache ----

  /** A row of the marker's type that a query without folders does not return. */
  predicate PassedOver(c: GuContext, e: Entity) {
    !FetchFolders(c.msg) && !(e.folder == Some(false))
  }

  predicate OfMarker(c: GuContext, m: InMarker, e: Entity, now: int) {
    Current(e, now) && e.clientId == c.client && e.dataType == Some(m.dataType)
  }

  /** The rows a stamp of the page's end has to cover: those of the type that were written after the
      query, and those the query passed over. */
  ghost predicate Covers(rows: map<Key, Entity>, after: map<Key, Entity>, c: GuContext, m: InMarker, v: Visit, now: int)
    requires StartToken(m).Varint? && v.page.Page?
  {
    forall k :: (k in after && OfMarker(c, m, after[k], now)
                 && (Written(rows, after, k) || PassedOver(c, after[k]))) ==>
      after[k].mtime.value <= NextToken(StartToken(m).value, v.page.entities)
  }

  /** A page that leaves nothing behind ends at the newest row the query looks at. */
  lemma CompletePageEndsNewest(rows: map<Key, Entity>, c: GuContext, m: InMarker, v: Visit, size: nat, e: Entity)
    requires StartToken(m).Varint? && v.page.Page? && !v.page.more && !PassedOver(c, e)
    requires IsAnswer(rows, FilterFor(c, m, v.now), size, v.page)
    requires e in rows.Values && OfMarker(c, m, e, v.now)
    ensures e.mtime.value <= NextToken(StartToken(m).value, v.page.entities)
  {
    var f := FilterFor(c, m, v.now);
    var pending := PendingRows(rows, f);
    PageIsExact(rows, f, size, v.page);
    if e.mtime.value > f.token {
      assert Visible(e, f) && e in pending;
      FullPageIsAll(v.page.entities, pending, size);
    }
  }

  lemma StampBelieves(kv: KV, c: GuContext, m: InMarker, mtime: int, e: Entity, now: int)
    requires Believed(kv, e, now)
    ensures Believed(WithTypeMtime(kv, c.client, m.dataType, mtime, now), e, now)
            <==> (OfMarker(c, m, e, now) ==> e.mtime.value <= mtime)
  {
    if Current(e, now) { StampIsCached(kv, c.client, m.dataType, mtime, now, e.clientId, e.dataType.value); }
  }

  /** A get-updates caches where a complete page ended. If the page was answered on some rows and is
      cached over later ones, a sound cache stays sound exactly when no row of the type that was written
      in between, or was passed over as a folder, is newer than that end. */
  lemma StampKeepsSound(rows: map<Key, Entity>, after: map<Key, Entity>, c: GuContext, m: InMarker, v: Visit,
                        size: nat, kv: KV, now: int)
    requires StartToken(m).Varint? && v.page.Page? && !v.page.more
    requires IsAnswer(rows, FilterFor(c, m, v.now), size, v.page)
    requires v.now <= now && Sound(after, kv, now)
    ensures Sound(after, WithTypeMtime(kv, c.client, m.dataType, NextToken(StartToken(m).value, v.page.entities), now),
                  now)
            <==> Covers(rows, after, c, m, v, now)
  {
    var end := NextToken(StartToken(m).value, v.page.entities);
    var stamped := WithTypeMtime(kv, c.client, m.dataType, end, now);
    forall k | k in after
      ensures Believed(stamped, after[k], now) <==> (OfMarker(c, m, after[k], now) ==> after[k].mtime.value <= end)
    {
      StampBelieves(kv, c, m, end, after[k], now);
    }
    forall k | k in after && OfMarker(c, m, after[k], now) && !Written(rows, after, k) && !PassedOver(c, after[k])
      ensures after[k].mtime.value <= end
    {
      CompletePageEndsNewest(rows, c, m, v, size, after[k]);
    }
  }

  /** The marker ends with its page's end being cached. */
  predicate Stamps(c: GuContext, st: GuState, m: InMarker, v: Visit) {
    && Queries(c, st, m, v.now) && v.page.Page? && !NigoriNotReady(c, m, v.page)
    && !v.page.more && st.rsp.changesRemaining != 1
  }

  /** What a marker caches covers the folders it passed over. */
  ghost predicate CoversFolders(rows: map<Key, Entity>, c: GuContext, st: GuState, m: InMarker, v: Visit) {
    Stamps(c, st, m, v) ==> Covers(rows, rows, c, m, v, v.now)
  }

  /** Whether the cache answers or the store does, the cache stays sound; the exception is the end of a
      page that passed over a newer folder. */
  lemma VisitKeepsSound(rows: map<Key, Entity>, c: GuContext, st: GuState, m: InMarker, v: Visit)
    requires Sound(rows, st.kv, v.now) && LegalVisit(rows, c, st, m, v)
    ensures Sound(rows, Next(c, st, m, v).kv, v.now) <==> CoversFolders(rows, c, st, m, v)
  {
    DropKeepsSound(rows, st.kv, TypeMtimeKey(c.client, m.dataType), v.now);
    var kv := Checked(c, st, m, v.now);
    assert Sound(rows, kv, v.now);
    if Stamps(c, st, m, v) {
      assert Next(c, st, m, v) == WithPage(c, st, m, v);
      StampKeepsSound(rows, rows, c, m, v, Room(st), kv, v.now);
    } else {
      assert Next(c, st, m, v).kv == st.kv || Next(c, st, m, v).kv == kv;
    }
  }

  predicate VisitsInOrder(since: int, visits: seq<Visit>) {
    && (forall i :: 0 <= i < |visits| ==> since <= visits[i].now)
    && (forall i, j :: 0 <= i < j < |visits| ==> visits[i].now <= visits[j].now)
  }

  function LastVisit(since: int, visits: seq<Visit>, n: nat): int
    requires n <= |visits|
  {
    if n == 0 then since else visits[n - 1].now
  }

  /** The cache is sound before and after each of the first n markers. */
  ghost predicate SoundUpto(rows: map<Key, Entity>, c: GuContext, kv: KV, visits: seq<Visit>, since: int, n: nat)
    requires n <= |c.msg.markers| && n <= |visits|
  {
    && Sound(rows, Upto(c, kv, visits, n).kv, LastVisit(since, visits, n))
    && (n == 0 || SoundUpto(rows, c, kv, visits, since, n - 1))
  }

  ghost predicate CoversFoldersUpto(rows: map<Key, Entity>, c: GuContext, kv: KV, visits: seq<Visit>, n: nat)
    requires n <= |c.msg.markers| && n <= |visits|
  {
    n == 0 || (CoversFoldersUpto(rows, c, kv, visits, n - 1)
               && CoversFolders(rows, c, Upto(c, kv, visits, n - 1), c.msg.markers[n - 1], visits[n - 1]))
  }

  lemma {:induction false} FoldersFetched(rows: map<Key, Entity>, c: GuContext, kv: KV, visits: seq<Visit>, n: nat)
    requires n <= |c.msg.markers| && n <= |visits| && FetchFolders(c.msg)
    ensures CoversFoldersUpto(rows, c, kv, visits, n)
    decreases n
  {
    if n > 0 { FoldersFetched(rows, c, kv, visits, n - 1); }
  }

  /** Over a whole request, from a sound cache: it stays sound throughout exactly when nothing that is
      cached falls short of a folder that was passed over. Requests that fetch folders pass over none. */
  lemma {:induction false} UpdatesKeepSound(rows: map<Key, Entity>, c: GuContext, kv: KV, visits: seq<Visit>,
                                            since: int, n: nat)
    requires Sound(rows, kv, since) && VisitsInOrder(since, visits)
    requires n <= |visits| && n <= |c.msg.markers| && LegalUpto(rows, c, kv, visits, n)
    ensures SoundUpto(rows, c, kv, visits, since, n) <==> CoversFoldersUpto(rows, c, kv, visits, n)
    ensures FetchFolders(c.msg) ==> SoundUpto(rows, c, kv, visits, since, n)
    decreases n
  {
    if FetchFolders(c.msg) { FoldersFetched(rows, c, kv, visits, n); }
    if n > 0 {
      UpdatesKeepSound(rows, c, kv, visits, since, n - 1);
      var st := Upto(c, kv, visits, n - 1);
      if SoundUpto(rows, c, kv, visits, since, n - 1) {
        SoundLater(rows, st.kv, LastVisit(since, visits, n - 1), visits[n - 1].now);
        VisitKeepsSound(rows, c, st, c.msg.markers[n - 1], visits[n - 1]);
      }
    }
  }

  lemma {:induction false} SoundAt(rows: map<Key, Entity>, c: GuContext, kv: KV, visits: seq<Visit>, since: int, n: nat,
                                   i: nat)
    requires i <= n <= |c.msg.markers| && n <= |visits| && SoundUpto(rows, c, kv, visits, since, n)
    ensures SoundUpto(rows, c, kv, visits, since, i)
    decreases n
  {
    if i < n { SoundAt(rows, c, kv, visits, since, n - 1, i); }
  }

  // ---- what one client's requests look at ----

  /** The rows a request with or without folders can return. */
  function LookedAt(rows: map<Key, Entity>, folders: bool): map<Key, Entity> {
    map k | k in rows && (folders || rows[k].folder == Some(false)) :: rows[k]
  }

  lemma SamePending(rows: map<Key, Entity>, f: Filter)
    ensures PendingRows(LookedAt(rows, f.fetchFolders), f) == PendingRows(rows, f)
  {
    var looked := LookedAt(rows, f.fetchFolders);
    forall e | e in PendingRows(rows, f) ensures e in PendingRows(looked, f) {
      var k :| k in rows && Visible(rows[k], f) && e == rows[k];
      assert k in looked && looked[k] == e;
    }
  }

  lemma {:induction false} LegalOnLookedAt(rows: map<Key, Entity>, c: GuContext, kv: KV, visits: seq<Visit>, n: nat)
    requires n <= |c.msg.markers| && n <= |visits| && LegalUpto(rows, c, kv, visits, n)
    ensures LegalUpto(LookedAt(rows, FetchFolders(c.msg)), c, kv, visits, n)
    decreases n
  {
    if n > 0 {
      LegalOnLookedAt(rows, c, kv, visits, n - 1);
      if Queries(c, Upto(c, kv, visits, n - 1), c.msg.markers[n - 1], visits[n - 1].now) {
        SamePending(rows, FilterFor(c, c.msg.markers[n - 1], visits[n - 1].now));
      }
    }
  }

  lemma {:induction false} NoneLookedAtPassedOver(rows: map<Key, Entity>, c: GuContext, kv: KV, visits: seq<Visit>,
                                                  n: nat)
    requires n <= |c.msg.markers| && n <= |visits|
    ensures CoversFoldersUpto(LookedAt(rows, FetchFolders(c.msg)), c, kv, visits, n)
    decreases n
  {
    if n > 0 { NoneLookedAtPassedOver(rows, c, kv, visits, n - 1); }
  }

  /** For the rows a request looks at, with folders or without, its own caching keeps the cache sound. */
  lemma OwnStampsKeepSound(rows: map<Key, Entity>, c: GuContext, kv: KV, visits: seq<Visit>, since: int, i: nat)
    requires Sound(LookedAt(rows, FetchFolders(c.msg)), kv, since) && VisitsInOrder(since, visits)
    requires Legal(rows, c, kv, visits) && i <= |visits|
    ensures Sound(LookedAt(rows, FetchFolders(c.msg)), Upto(c, kv, visits, i).kv, LastVisit(since, visits, i))
  {
    var looked, n := LookedAt(rows, FetchFolders(c.msg)), |visits|;
    LegalOnLookedAt(rows, c, kv, visits, n);
    NoneLookedAtPassedOver(rows, c, kv, visits, n);
    UpdatesKeepSound(looked, c, kv, visits, since, n);
    SoundAt(looked, c, kv, visits, since, n, i);
  }

  /** When a cache that is sound for the rows looked at says the client is up to date, the query finds
      nothing. */
  lemma ShortCutFindsNothing(rows: map<Key, Entity>, c: GuContext, st: GuState, m: InMarker, now: int)
    requires Sound(LookedAt(rows, FetchFolders(c.msg)), st.kv, now) && CacheSaysCurrent(c, st, m, now)
    ensures PendingRows(rows, FilterFor(c, m, now)) == {}
  {
    var f := FilterFor(c, m, now);
    var looked := LookedAt(rows, f.fetchFolders);
    SamePending(rows, f);
    forall k | k in looked ensures !Visible(looked[k], f) {
      assert Believed(st.kv, looked[k], now);
    }
  }

  lemma SoundForLookedAt(rows: map<Key, Entity>, kv: KV, now: int, folders: bool)
    requires Sound(rows, kv, now)
    ensures Sound(LookedAt(rows, folders), kv, now)
  {
  }

  /** The same request with and without the short cut. */
  predicate SameRequest(a: GuContext, b: GuContext) {
    a == b.(polls := a.polls) && !b.polls
  }

  lemma OnlyEmptyAnswer(rows: map<Key, Entity>, f: Filter, size: nat, p: Page)
    requires PendingRows(rows, f) == {} && p.Page?
    ensures IsAnswer(rows, f, size, p) <==> p == EMPTY_PAGE
  {
  }

  lemma SkippedEqualsEmpty(a: GuContext, b: GuContext, stA: GuState, stB: GuState, m: InMarker, v: Visit)
    requires SameRequest(a, b) && stA.rsp == stB.rsp && CacheSaysCurrent(a, stA, m, v.now) && v.page == EMPTY_PAGE
    ensures Next(a, stA, m, v).rsp == Next(b, stB, m, v).rsp
  {
    assert Next(b, stB, m, v) == WithPage(b, stB, m, v);
    assert ToPb([]) == [];
    assert stA.rsp.entries + [] == stA.rsp.entries;
  }

  lemma SameBranch(a: GuContext, b: GuContext, stA: GuState, stB: GuState, m: InMarker, v: Visit)
    requires SameRequest(a, b) && stA.rsp == stB.rsp && !CacheSaysCurrent(a, stA, m, v.now)
    ensures Next(a, stA, m, v).rsp == Next(b, stB, m, v).rsp
  {
    assert Listed(a, stA, m).rsp == Listed(b, stB, m).rsp;
  }

  /** One marker with the short cut and without: what is recorded for one is a legal visit
      of the other, and the responses are the same. */
  lemma VisitIsTransparent(rows: map<Key, Entity>, a: GuContext, b: GuContext, stA: GuState, stB: GuState,
                           m: InMarker, v: Visit)
    requires SameRequest(a, b) && stA.rsp == stB.rsp && Sound(rows, stA.kv, v.now)
    requires LegalVisit(rows, a, stA, m, v) || (LegalVisit(rows, b, stB, m, v) && v.page.Page?)
    ensures LegalVisit(rows, a, stA, m, v) && LegalVisit(rows, b, stB, m, v)
    ensures Next(a, stA, m, v).rsp == Next(b, stB, m, v).rsp
  {
    if CacheSaysCurrent(a, stA, m, v.now) {
      SoundForLookedAt(rows, stA.kv, v.now, FetchFolders(a.msg));
      ShortCutFindsNothing(rows, a, stA, m, v.now);
      assert FilterFor(a, m, v.now) == FilterFor(b, m, v.now);
      if v.page.Page? { OnlyEmptyAnswer(rows, FilterFor(b, m, v.now), Room(stB), v.page); }
      assert v.page == EMPTY_PAGE;
      SkippedEqualsEmpty(a, b, stA, stB, m, v);
    } else {
      assert Queries(a, stA, m, v.now) <==> Queries(b, stB, m, v.now);
      SameBranch(a, b, stA, stB, m, v);
    }
  }
}
