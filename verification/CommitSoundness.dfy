/** When a commit leaves the mtime cache sound: it caches, per type its entries name, the clock
    reading of the last one, and an update may name another type than its row's. */
module CommitSoundness {
  import opened Basics
  import opened Decimal
  import opened SyncEntities
  import opened MemoryCache
  import opened Cache
  import opened Tables
  import opened Commit
  import opened Quota
  import opened CacheSoundness

  ghost predicate Bounded(rows: map<Key, Entity>, now: int) {
    forall k :: k in rows && rows[k].mtime.Some? ==> rows[k].mtime.value <= now
  }

  /** An accepted update carries the row's own type. */
  predicate TypeKept(c: CommitContext, st: CommitState, pb: PbEntity, t: Tick)
    requires Addressable(pb)
  {
    var e := Prepared(c, st, pb, t);
    e.Some? && UpdateAccepted(st.db, e.value, pb.version.value) ==>
      e.value.dataType == st.db.rows[KeyOf(e.value)].dataType
  }

  /** A row the commit has written: of its client and of a type it will stamp at least as new. */
  predicate Covered(e: Entity, client: ClientId, typeMtime: map<int, int>) {
    && e.clientId == client && e.dataType.Some? && e.mtime.Some?
    && e.dataType.value in typeMtime && e.mtime.value <= typeMtime[e.dataType.value]
  }

  /** Since `since` the loop has written only rows of the client, with mtimes no later than `now`, and
      its stamps are that recent. */
  ghost predicate Recent(rows0: map<Key, Entity>, st: CommitState, client: ClientId, since: int, now: int) {
    && (forall k :: Written(rows0, st.db.rows, k) ==>
          st.db.rows[k].clientId == client && st.db.rows[k].mtime.Some? && st.db.rows[k].mtime.value <= now)
    && (forall t :: t in st.typeMtime ==> since <= st.typeMtime[t] <= now)
  }

  ghost predicate AllCovered(rows0: map<Key, Entity>, st: CommitState, client: ClientId) {
    forall k :: Written(rows0, st.db.rows, k) ==> Covered(st.db.rows[k], client, st.typeMtime)
  }

  lemma EntryStamps(c: CommitContext, st: CommitState, pb: PbEntity, t: Tick)
    requires Addressable(pb) && !CommitEntry(c, st, pb, t).failed
    ensures var e, after := Prepared(c, st, pb, t), CommitEntry(c, st, pb, t);
            || (after.typeMtime == st.typeMtime && after.db == st.db)
            || (e.Some? && e.value.dataType.Some?
                && after.typeMtime == st.typeMtime[e.value.dataType.value := t.now])
  {
  }

  lemma EntryKeepsRecent(rows0: map<Key, Entity>, c: CommitContext, st: CommitState, pb: PbEntity, t: Tick, since: int,
                         last: int)
    requires Addressable(pb) && KeyedRows(st.db) && Recent(rows0, st, c.client, since, last)
    requires since <= last <= t.now && !CommitEntry(c, st, pb, t).failed
    ensures Recent(rows0, CommitEntry(c, st, pb, t), c.client, since, t.now)
    ensures KeyedRows(CommitEntry(c, st, pb, t).db)
  {
    EntryWrites(c, st, pb, t);
    EntryStamps(c, st, pb, t);
  }

  lemma RowCovered(st: CommitState, e: Entity, base: int, after: CommitState, client: ClientId, now: int)
    requires KeyedRows(st.db) && e.clientId == client && e.mtime == Some(now) && e.dataType.Some?
    requires after.db == Inserted(st.db, e) || after.db == Updated(st.db, e, base)
    requires after.db != st.db && after.typeMtime == st.typeMtime[e.dataType.value := now]
    requires UpdateAccepted(st.db, e, base) ==> e.dataType == st.db.rows[KeyOf(e)].dataType
    ensures KeyOf(e) in after.db.rows && after.db.rows == st.db.rows[KeyOf(e) := after.db.rows[KeyOf(e)]]
    ensures Covered(after.db.rows[KeyOf(e)], client, after.typeMtime)
  {
  }

  lemma EntryKeepsCovered(rows0: map<Key, Entity>, c: CommitContext, st: CommitState, pb: PbEntity, t: Tick, since: int,
                          last: int)
    requires Addressable(pb) && KeyedRows(st.db) && Recent(rows0, st, c.client, since, last)
    requires since <= last <= t.now && !CommitEntry(c, st, pb, t).failed
    requires AllCovered(rows0, st, c.client) && TypeKept(c, st, pb, t)
    ensures AllCovered(rows0, CommitEntry(c, st, pb, t), c.client)
  {
    var e, after := Prepared(c, st, pb, t), CommitEntry(c, st, pb, t);
    EntryWrites(c, st, pb, t);
    EntryStamps(c, st, pb, t);
    if after.db != st.db {
      assert after.typeMtime == st.typeMtime[e.value.dataType.value := t.now];
      RowCovered(st, e.value, pb.version.value, after, c.client, t.now);
    }
  }

  predicate TicksInOrder(since: int, ticks: seq<Tick>, end: int) {
    && since <= end
    && (forall i :: 0 <= i < |ticks| ==> since <= ticks[i].now <= end)
    && (forall i, j :: 0 <= i < j < |ticks| ==> ticks[i].now <= ticks[j].now)
  }

  predicate TypesKeptUpto(c: CommitContext, st0: CommitState, entries: seq<PbEntity>, ticks: seq<Tick>, n: nat)
    requires n <= |entries| && n <= |ticks| && AllAddressable(entries)
  {
    n == 0 || (TypesKeptUpto(c, st0, entries, ticks, n - 1)
               && TypeKept(c, CommitUpto(c, st0, entries, ticks, n - 1), entries[n - 1], ticks[n - 1]))
  }

  function LastTick(since: int, ticks: seq<Tick>, n: nat): int
    requires n <= |ticks|
  {
    if n == 0 then since else ticks[n - 1].now
  }

  lemma {:induction false} LoopKeepsRecent(c: CommitContext, st0: CommitState, entries: seq<PbEntity>, ticks: seq<Tick>,
                                           n: nat, since: int, end: int)
    requires n <= |entries| && n <= |ticks| && AllAddressable(entries) && TicksInOrder(since, ticks, end)
    requires Tracks(c, st0) && KeyedRows(st0.db) && st0.typeMtime == map[]
    ensures var st := CommitUpto(c, st0, entries, ticks, n);
            Recent(st0.db.rows, st, c.client, since, LastTick(since, ticks, n)) && KeyedRows(st.db)
    decreases n
  {
    if n > 0 {
      LoopKeepsRecent(c, st0, entries, ticks, n - 1, since, end);
      LoopCounts(c, st0, entries, ticks, n);
      EntryKeepsRecent(st0.db.rows, c, CommitUpto(c, st0, entries, ticks, n - 1), entries[n - 1], ticks[n - 1], since,
                       LastTick(since, ticks, n - 1));
    }
  }

  lemma {:induction false} LoopKeepsCovered(c: CommitContext, st0: CommitState, entries: seq<PbEntity>,
                                            ticks: seq<Tick>, n: nat, since: int, end: int)
    requires n <= |entries| && n <= |ticks| && AllAddressable(entries) && TicksInOrder(since, ticks, end)
    requires Tracks(c, st0) && KeyedRows(st0.db) && st0.typeMtime == map[]
    requires TypesKeptUpto(c, st0, entries, ticks, n)
    ensures AllCovered(st0.db.rows, CommitUpto(c, st0, entries, ticks, n), c.client)
    decreases n
  {
    if n > 0 {
      LoopKeepsCovered(c, st0, entries, ticks, n - 1, since, end);
      LoopKeepsRecent(c, st0, entries, ticks, n - 1, since, end);
      LoopCounts(c, st0, entries, ticks, n);
      EntryKeepsCovered(st0.db.rows, c, CommitUpto(c, st0, entries, ticks, n - 1), entries[n - 1], ticks[n - 1], since,
                        LastTick(since, ticks, n - 1));
    }
  }

  // ---- the cache afterwards ----

  /** The mtime half of the cache is the same in both. */
  ghost predicate SameMtimes(a: KV, b: KV) {
    forall key :: IsMtimeKey(key) ==> (key in a <==> key in b) && (key in a ==> a[key] == b[key])
  }

  lemma SameMtimesSameCached(a: KV, b: KV, client: ClientId, dataType: int, now: int)
    requires SameMtimes(a, b)
    ensures CachedAt(a, client, dataType, now) == CachedAt(b, client, dataType, now)
  {
  }

  lemma EntryLeavesMtimes(c: CommitContext, st: CommitState, pb: PbEntity, t: Tick)
    requires Addressable(pb) && Tracks(c, st)
    ensures SameMtimes(st.kv, CommitEntry(c, st, pb, t).kv)
  {
    var e := Prepared(c, st, pb, t);
    if e.Some? {
      var o := OutcomeOf(c, st, e.value, pb.version.value, t);
      OutcomeDelta(c, st, e.value, pb.version.value, t);
      if o.Applied? && o.delta != 0 {
        BumpMeaning(st.kv, c.client, KindOf(e.value), o.delta < 0, t.now);
        KeyFamiliesDisjoint(c.client, 0, c.client, KindOf(e.value));
      }
    }
  }

  lemma {:induction false} LoopLeavesMtimes(c: CommitContext, st0: CommitState, entries: seq<PbEntity>,
                                            ticks: seq<Tick>, n: nat)
    requires n <= |entries| && n <= |ticks| && AllAddressable(entries) && Tracks(c, st0)
    ensures SameMtimes(st0.kv, CommitUpto(c, st0, entries, ticks, n).kv)
    decreases n
  {
    if n > 0 {
      LoopLeavesMtimes(c, st0, entries, ticks, n - 1);
      LoopCounts(c, st0, entries, ticks, n - 1);
      EntryLeavesMtimes(c, CommitUpto(c, st0, entries, ticks, n - 1), entries[n - 1], ticks[n - 1]);
    }
  }

  lemma StampedCached(kv: KV, client: ClientId, mtimes: map<int, int>, now: int, c: ClientId, t: int)
    ensures CachedAt(Stamped(kv, client, mtimes, now), c, t, now)
            == if c == client && t in mtimes then Some(mtimes[t]) else CachedAt(kv, c, t, now)
  {
    TypeMtimeKeysDiffer(client);
    if c == client && t in mtimes {
      ItoaRoundTrip(mtimes[t]);
    } else {
      forall u | u in mtimes ensures TypeMtimeKey(client, u) != TypeMtimeKey(c, t) {
        if TypeMtimeKey(client, u) == TypeMtimeKey(c, t) { TypeMtimeKeyInjective(client, u, c, t); }
      }
    }
  }

  /** The row is not newer than what the commit caches for its type, or than what was cached before if
      the commit caches nothing for it. */
  predicate BelievedAfter(kv: KV, client: ClientId, stamps: map<int, int>, e: Entity, now: int) {
    Current(e, now) ==>
      if e.clientId == client && e.dataType.value in stamps then e.mtime.value <= stamps[e.dataType.value]
      else Believed(kv, e, now)
  }

  lemma MtimesAtTheEnd(w: World, client: ClientId, msg: CommitMsg, env: CommitEnv, backend: Backend, kv: KV)
    requires ReachesLoop(msg, env) && Quiet(w.kv, client)
    requires kv == LoopEnd(w, client, msg, env, backend).kv
                   - {InterimKey(client, Normal)} - {InterimKey(client, History)}
    ensures SameMtimes(w.kv, kv)
  {
    LoopLeavesMtimes(ContextOf(w, client, msg, env, backend), LoopStart(w, 0, 0), msg.entries, env.ticks,
                     |msg.entries|);
    KeyFamiliesDisjoint(client, 0, client, Normal);
    KeyFamiliesDisjoint(client, 0, client, History);
  }

  lemma StampsBelieve(before: KV, kv: KV, client: ClientId, stamps: map<int, int>, e: Entity, now: int)
    requires SameMtimes(before, kv)
    ensures Believed(Stamped(kv, client, stamps, now), e, now) <==> BelievedAfter(before, client, stamps, e, now)
  {
    if Current(e, now) {
      StampedCached(kv, client, stamps, now, e.clientId, e.dataType.value);
      SameMtimesSameCached(before, kv, e.clientId, e.dataType.value, now);
    }
  }

  /** Stamps that are as recent as the rows leave a sound cache sound exactly when they believe the
      rows written. */
  lemma StampedSound(rows: map<Key, Entity>, after: map<Key, Entity>, before: KV, kv: KV, client: ClientId,
                     stamps: map<int, int>, start: int, end: int)
    requires SameMtimes(before, kv) && Sound(rows, before, start) && start <= end && Bounded(rows, start)
    requires forall t :: t in stamps ==> start <= stamps[t]
    ensures Sound(after, Stamped(kv, client, stamps, end), end)
            <==> forall k :: Written(rows, after, k) ==> BelievedAfter(before, client, stamps, after[k], end)
  {
    var stamped := Stamped(kv, client, stamps, end);
    SoundLater(rows, before, start, end);
    forall e ensures Believed(stamped, e, end) <==> BelievedAfter(before, client, stamps, e, end) {
      StampsBelieve(before, kv, client, stamps, e, end);
    }
    forall k | k in rows ensures BelievedAfter(before, client, stamps, rows[k], end) {
      assert Believed(before, rows[k], end);
    }
    WritesKeepSound(rows, after, stamped, end);
  }

  ghost predicate WritesBelieved(w: World, client: ClientId, msg: CommitMsg, env: CommitEnv, backend: Backend)
    requires ReachesLoop(msg, env)
  {
    var st := LoopEnd(w, client, msg, env, backend);
    forall k :: Written(w.db.rows, st.db.rows, k) ==>
      BelievedAfter(w.kv, client, st.typeMtime, st.db.rows[k], env.end)
  }

  lemma CoveredIsBelieved(rows: map<Key, Entity>, st: CommitState, client: ClientId, kv: KV, now: int)
    requires AllCovered(rows, st, client)
    ensures forall k :: Written(rows, st.db.rows, k) ==>
              BelievedAfter(kv, client, st.typeMtime, st.db.rows[k], now)
  {
  }

  /** A sound cache is sound after a commit exactly when no row it wrote is newer than the mtime cached
      for the row's type at the end. Updates that carry their rows' types are always so. */
  lemma CommitKeepsSound(w: World, client: ClientId, msg: CommitMsg, env: CommitEnv, backend: Backend)
    requires ReachesLoop(msg, env) && Quiet(w.kv, client) && KeyedRows(w.db)
    requires TicksInOrder(env.start, env.ticks, env.end) && Bounded(w.db.rows, env.start)
    requires Sound(w.db.rows, w.kv, env.start)
    ensures var after := Committed(w, client, msg, env, backend).0;
            (Sound(after.db.rows, after.kv, env.end) <==> WritesBelieved(w, client, msg, env, backend))
            && Bounded(after.db.rows, env.end) && KeyedRows(after.db)
    ensures TypesKeptUpto(ContextOf(w, client, msg, env, backend), LoopStart(w, 0, 0), msg.entries, env.ticks,
                          |msg.entries|)
            ==> WritesBelieved(w, client, msg, env, backend)
  {
    var c, st0 := ContextOf(w, client, msg, env, backend), LoopStart(w, 0, 0);
    var st := LoopEnd(w, client, msg, env, backend);
    CommitMeaning(w, client, msg, env, backend);
    FinishMeaning(w, st, client, env);
    LoopKeepsRecent(c, st0, msg.entries, env.ticks, |msg.entries|, env.start, env.end);
    assert Recent(w.db.rows, st, client, env.start, env.end);
    var kv := st.kv - {InterimKey(client, Normal)} - {InterimKey(client, History)};
    MtimesAtTheEnd(w, client, msg, env, backend, kv);
    StampedSound(w.db.rows, st.db.rows, w.kv, kv, client, st.typeMtime, env.start, env.end);
    if TypesKeptUpto(c, st0, msg.entries, env.ticks, |msg.entries|) {
      LoopKeepsCovered(c, st0, msg.entries, env.ticks, |msg.entries|, env.start, env.end);
      CoveredIsBelieved(w.db.rows, st, client, w.kv, env.end);
    }
    forall k | k in st.db.rows && st.db.rows[k].mtime.Some? ensures st.db.rows[k].mtime.value <= env.end {
      if Written(w.db.rows, st.db.rows, k) {}
    }
  }

  // ---- commits that overlap ----

  /** A commit caches the mtime of its last write of a type, which no row was newer than at the time,
      over later rows: a sound cache stays sound exactly when no row of the type that was written in
      between, by other commits, is newer. */
  lemma LateStampKeepsSound(rows: map<Key, Entity>, after: map<Key, Entity>, kv: KV, client: ClientId, dataType: int,
                            mtime: int, now: int)
    requires Bounded(rows, mtime) && Sound(after, kv, now)
    ensures Sound(after, WithTypeMtime(kv, client, dataType, mtime, now), now)
            <==> forall k :: (Written(rows, after, k) && Current(after[k], now) && after[k].clientId == client
                              && after[k].dataType == Some(dataType)) ==> after[k].mtime.value <= mtime
  {
    var stamped := WithTypeMtime(kv, client, dataType, mtime, now);
    forall k | k in after && Current(after[k], now)
      ensures Believed(stamped, after[k], now)
              <==> (after[k].clientId == client && after[k].dataType == Some(dataType) ==>
                      after[k].mtime.value <= mtime)
    {
      StampIsCached(kv, client, dataType, mtime, now, after[k].clientId, after[k].dataType.value);
    }
    forall k | k in after && Current(after[k], now) && !Written(rows, after, k)
      ensures after[k].mtime.value <= mtime
    {
    }
  }
}
