/** The mtime cache is transparent: over every sequential run the server answers as it would
    without the cache short cut for polling requests. */
module Transparency {
  import opened Basics
  import opened SyncEntities
  import opened MemoryCache
  import opened Cache
  import opened Tables
  import opened Query
  import opened GetUpdates
  import opened Commit
  import opened Quota
  import opened Server
  import opened CacheSoundness
  import opened CommitSoundness
  import Bootstrap
  import Paging

  // ---- the two servers' caches ----

  /** The interim half of the cache is the same in both. */
  ghost predicate SameInterim(a: KV, b: KV) {
    forall key :: !IsMtimeKey(key) ==> (key in a <==> key in b) && (key in a ==> a[key] == b[key])
  }

  lemma MtimeAccessLeavesInterim(kv: KV, client: ClientId, dataType: int, mtime: int, now: int)
    ensures SameInterim(kv, DropIfExpired(kv, TypeMtimeKey(client, dataType), now))
    ensures SameInterim(kv, WithTypeMtime(kv, client, dataType, mtime, now))
  {
    KeyFamiliesDisjoint(client, dataType, client, Normal);
  }

  lemma VisitLeavesInterim(c: GuContext, st: GuState, m: InMarker, v: Visit)
    ensures SameInterim(st.kv, Next(c, st, m, v).kv)
  {
    var checked := Checked(c, st, m, v.now);
    MtimeAccessLeavesInterim(st.kv, c.client, m.dataType, 0, v.now);
    if StartToken(m).Varint? && v.page.Page? {
      MtimeAccessLeavesInterim(checked, c.client, m.dataType, NextToken(StartToken(m).value, v.page.entities), v.now);
    }
  }

  lemma CountSame(a: KV, b: KV, client: ClientId, k: CountType, clear: bool, now: int)
    requires SameInterim(a, b)
    ensures InterimCount(a, client, k, clear, now).value == InterimCount(b, client, k, clear, now).value
    ensures SameInterim(InterimCount(a, client, k, clear, now).kv, InterimCount(b, client, k, clear, now).kv)
  {
    KeyFamiliesDisjoint(client, 0, client, k);
  }

  lemma BumpSame(a: KV, b: KV, client: ClientId, k: CountType, subtract: bool, now: int)
    requires SameInterim(a, b)
    ensures Bumped(a, client, k, subtract, now).value == Bumped(b, client, k, subtract, now).value
    ensures SameInterim(Bumped(a, client, k, subtract, now).kv, Bumped(b, client, k, subtract, now).kv)
  {
    KeyFamiliesDisjoint(client, 0, client, k);
  }

  /** Two loop states that differ at most in the mtime half of their caches. */
  ghost predicate Alike(a: CommitState, b: CommitState) {
    b == a.(kv := b.kv) && SameInterim(a.kv, b.kv)
  }

  lemma SettledAlike(c: CommitContext, a: CommitState, b: CommitState, e: Entity, o: Outcome, t: Tick)
    requires Alike(a, b)
    ensures Alike(Settled(c, a, e, o, t), Settled(c, b, e, o, t))
  {
    if o.Applied? && o.delta != 0 { BumpSame(a.kv, b.kv, c.client, KindOf(e), o.delta < 0, t.now); }
  }

  lemma EntryAlike(c: CommitContext, a: CommitState, b: CommitState, pb: PbEntity, t: Tick)
    requires Addressable(pb) && Alike(a, b)
    ensures Alike(CommitEntry(c, a, pb, t), CommitEntry(c, b, pb, t))
  {
    var e := Prepared(c, a, pb, t);
    assert Prepared(c, b, pb, t) == e;
    if e.Some? {
      assert OutcomeOf(c, b, e.value, pb.version.value, t) == OutcomeOf(c, a, e.value, pb.version.value, t);
      SettledAlike(c, a, b, e.value, OutcomeOf(c, a, e.value, pb.version.value, t), t);
    }
  }

  lemma {:induction false} LoopAlike(c: CommitContext, a: CommitState, b: CommitState, entries: seq<PbEntity>,
                                     ticks: seq<Tick>, n: nat)
    requires n <= |entries| && n <= |ticks| && AllAddressable(entries) && Alike(a, b)
    ensures Alike(CommitUpto(c, a, entries, ticks, n), CommitUpto(c, b, entries, ticks, n))
    decreases n
  {
    if n > 0 {
      LoopAlike(c, a, b, entries, ticks, n - 1);
      EntryAlike(c, CommitUpto(c, a, entries, ticks, n - 1), CommitUpto(c, b, entries, ticks, n - 1), entries[n - 1],
                 ticks[n - 1]);
    }
  }

  /** The tables are equal and the caches differ at most in their mtime half. */
  ghost predicate Twins(a: World, b: World) {
    a.db == b.db && SameInterim(a.kv, b.kv)
  }

  lemma StampedSame(a: KV, b: KV, client: ClientId, mtimes: map<int, int>, now: int)
    requires SameInterim(a, b)
    ensures SameInterim(Stamped(a, client, mtimes, now), Stamped(b, client, mtimes, now))
  {
  }

  lemma FinishedTwins(a: World, b: World, stA: CommitState, stB: CommitState, client: ClientId, env: CommitEnv)
    requires Twins(a, b) && Alike(stA, stB)
    ensures Finished(a, stA, client, env).1 == Finished(b, stB, client, env).1
    ensures Twins(Finished(a, stA, client, env).0, Finished(b, stB, client, env).0)
  {
    CountSame(stA.kv, stB.kv, client, Normal, true, env.end);
    var nA, nB := InterimCount(stA.kv, client, Normal, true, env.end),
      InterimCount(stB.kv, client, Normal, true, env.end);
    CountSame(nA.kv, nB.kv, client, History, true, env.end);
    var hA, hB := InterimCount(nA.kv, client, History, true, env.end),
      InterimCount(nB.kv, client, History, true, env.end);
    StampedSame(hA.kv, hB.kv, client, stA.typeMtime, env.end);
  }

  lemma CommitTwins(a: World, b: World, client: ClientId, msg: CommitMsg, env: CommitEnv, backend: Backend)
    requires ValidCommit(msg, env) && Twins(a, b)
    ensures Committed(a, client, msg, env, backend).1 == Committed(b, client, msg, env, backend).1
    ensures Twins(Committed(a, client, msg, env, backend).0, Committed(b, client, msg, env, backend).0)
  {
    if msg.entries != [] && !env.countsFail {
      CountSame(a.kv, b.kv, client, Normal, false, env.start);
      var nA, nB := InterimCount(a.kv, client, Normal, false, env.start),
        InterimCount(b.kv, client, Normal, false, env.start);
      CountSame(nA.kv, nB.kv, client, History, false, env.start);
      var hA, hB := InterimCount(nA.kv, client, History, false, env.start),
        InterimCount(nB.kv, client, History, false, env.start);
      if nA.value.Some? && hA.value.Some? {
        var c := ContextOf(a, client, msg, env, backend);
        var sA := LoopStart(a.(kv := hA.kv), nA.value.value, hA.value.value);
        var sB := LoopStart(b.(kv := hB.kv), nB.value.value, hB.value.value);
        LoopAlike(c, sA, sB, msg.entries, env.ticks, |msg.entries|);
        FinishedTwins(a, b, CommitUpto(c, sA, msg.entries, env.ticks, |msg.entries|),
                      CommitUpto(c, sB, msg.entries, env.ticks, |msg.entries|), client, env);
      }
    }
  }

  // ---- one get-updates request ----

  /** No interim counter holds anything, as between sequential requests. */
  ghost predicate AllQuiet(kv: KV) {
    WellTyped(kv) && forall c, k :: Pending(kv, c, k) == 0
  }

  lemma CheckKeepsQuiet(kv: KV, client: ClientId, dataType: int, now: int)
    requires AllQuiet(kv)
    ensures AllQuiet(DropIfExpired(kv, TypeMtimeKey(client, dataType), now))
  {
    CheckKeepsTyping(kv, client, dataType, now);
  }

  lemma StampKeepsQuiet(kv: KV, client: ClientId, dataType: int, mtime: int, now: int)
    requires AllQuiet(kv)
    ensures AllQuiet(WithTypeMtime(kv, client, dataType, mtime, now))
  {
    StampKeepsTyping(kv, client, dataType, mtime, now);
  }

  lemma VisitKeepsQuiet(c: GuContext, st: GuState, m: InMarker, v: Visit)
    requires AllQuiet(st.kv)
    ensures AllQuiet(Next(c, st, m, v).kv)
  {
    var kv, after := Checked(c, st, m, v.now), Next(c, st, m, v).kv;
    CheckKeepsQuiet(st.kv, c.client, m.dataType, v.now);
    if after != st.kv && after != kv {
      assert Next(c, st, m, v) == WithPage(c, st, m, v);
      StampKeepsQuiet(kv, c.client, m.dataType, NextToken(StartToken(m).value, v.page.entities), v.now);
    }
  }

  ghost predicate LegalForOne(rows: map<Key, Entity>, a: GuContext, b: GuContext, kvA: KV, kvB: KV, visits: seq<Visit>,
                              n: nat)
    requires n <= |a.msg.markers| && n <= |b.msg.markers| && n <= |visits|
  {
    LegalUpto(rows, a, kvA, visits, n) || (LegalUpto(rows, b, kvB, visits, n) && Paging.AllAnswered(visits, n))
  }

  ghost predicate LoopsMatch(rows: map<Key, Entity>, stA: GuState, stB: GuState, now: int) {
    stA.rsp == stB.rsp && SameInterim(stA.kv, stB.kv) && AllQuiet(stA.kv) && Sound(rows, stA.kv, now)
  }

  lemma VisitMatches(rows: map<Key, Entity>, a: GuContext, b: GuContext, stA: GuState, stB: GuState, m: InMarker,
                     v: Visit, last: int)
    requires SameRequest(a, b) && LoopsMatch(rows, stA, stB, last) && last <= v.now
    requires LegalVisit(rows, a, stA, m, v) || (LegalVisit(rows, b, stB, m, v) && v.page.Page?)
    ensures LegalVisit(rows, a, stA, m, v) && LegalVisit(rows, b, stB, m, v)
    ensures CoversFolders(rows, a, stA, m, v) ==> LoopsMatch(rows, Next(a, stA, m, v), Next(b, stB, m, v), v.now)
  {
    SoundLater(rows, stA.kv, last, v.now);
    VisitIsTransparent(rows, a, b, stA, stB, m, v);
    VisitKeepsSound(rows, a, stA, m, v);
    VisitKeepsQuiet(a, stA, m, v);
    VisitLeavesInterim(a, stA, m, v);
    VisitLeavesInterim(b, stB, m, v);
  }

  lemma {:induction false} UpdatesMatch(rows: map<Key, Entity>, a: GuContext, b: GuContext, kvA: KV, kvB: KV,
                                        visits: seq<Visit>, since: int, n: nat)
    requires SameRequest(a, b) && n <= |visits| == |a.msg.markers| && CoversFoldersUpto(rows, a, kvA, visits, n)
    requires LoopsMatch(rows, GuState(NO_UPDATES, kvA), GuState(NO_UPDATES, kvB), since)
    requires VisitsInOrder(since, visits) && LegalForOne(rows, a, b, kvA, kvB, visits, n)
    ensures LegalUpto(rows, a, kvA, visits, n) && LegalUpto(rows, b, kvB, visits, n)
    ensures LoopsMatch(rows, Upto(a, kvA, visits, n), Upto(b, kvB, visits, n), LastVisit(since, visits, n))
    decreases n
  {
    if n > 0 {
      UpdatesMatch(rows, a, b, kvA, kvB, visits, since, n - 1);
      VisitMatches(rows, a, b, Upto(a, kvA, visits, n - 1), Upto(b, kvB, visits, n - 1),
                   a.msg.markers[n - 1], visits[n - 1], LastVisit(since, visits, n - 1));
    }
  }

  // ---- runs ----

  /** What holds of the server's world between requests: rows under their keys, no newer than the clock,
      and no count in flight. */
  ghost predicate Tidy(w: World, now: int) {
    KeyedRows(w.db) && Bounded(w.db.rows, now) && AllQuiet(w.kv)
  }

  /** And a sound cache. */
  ghost predicate Trusted(w: World, now: int) {
    Tidy(w, now) && Sound(w.db.rows, w.kv, now)
  }

  lemma TrustedLater(w: World, now: int, later: int)
    requires Trusted(w, now) && now <= later
    ensures Trusted(w, later)
  {
  }

  /** The request's clock readings follow `since` and do not go back. */
  predicate InClock(since: int, call: Call) {
    match call
    case GuCall(_, _, _, _, at, visits) => since <= at && VisitsInOrder(at, visits)
    case CommitCall(_, _, env) => since <= env.start && TicksInOrder(env.start, env.ticks, env.end)
    case ClearCall(_, now) => since <= now
  }

  function EndOf(call: Call): int {
    match call
    case GuCall(_, _, _, _, at, visits) => LastVisit(at, visits, |visits|)
    case CommitCall(_, _, env) => env.end
    case ClearCall(_, now) => now
  }

  /** The entities a request would bootstrap are the server's five, created during the request. */
  ghost predicate RealBatch(w: World, since: int, call: Call) {
    call.GuCall? && WillBootstrap(w.db, call) ==>
      && Bootstrap.IsBatch(call.client, call.batch)
      && (forall e :: e in call.batch ==> since <= e.mtime.value <= call.at)
  }

  /** The request passes the gate and the device limit, and any bootstrap succeeds. */
  predicate ReachesMarkers(w: World, call: Call) {
    && call.GuCall? && !IsDisabled(w.db, call.client) && !(call.msg.origin.NewClient? && call.throttled)
    && Bootstrapped(w.db, call).Some?
  }

  /** What the cache says when a request is bootstrapped or commits. Get-updates: no entity it creates is
      newer than the mtime cached for its type, and nothing it caches falls short of a folder it passed
      over. Commits: no row written is newer than the mtime cached for the row's type in the end. */
  ghost predicate Careful(cfg: Config, w: World, call: Call)
    requires WellFormed(call)
  {
    match call
    case GuCall(_, _, _, batch, at, visits) =>
      ReachesMarkers(w, call) ==>
        && (WillBootstrap(w.db, call) ==> forall e :: e in batch ==> Believed(w.kv, e, at))
        && CoversFoldersUpto(Bootstrapped(w.db, call).value.rows, GuContextOf(cfg, call), w.kv, visits, |visits|)
    case CommitCall(client, msg, env) =>
      !IsDisabled(w.db, client) && ReachesLoop(msg, env) ==> WritesBelieved(w, client, msg, env, cfg.backend)
    case ClearCall(_, _) => true
  }

  lemma BootstrapWrites(w: World, call: Call)
    requires call.GuCall? && WillBootstrap(w.db, call) && Bootstrapped(w.db, call).Some?
    ensures var rows := Bootstrapped(w.db, call).value.rows;
            && (forall k :: Written(w.db.rows, rows, k) ==> rows[k] in call.batch)
            && (forall e :: e in call.batch ==> Written(w.db.rows, rows, KeyOf(e)) && rows[KeyOf(e)] == e)
  {
    Bootstrap.BatchEffect(w.db, call.batch);
  }

  /** A bootstrap keeps a sound cache sound exactly when no entity it creates is newer than the mtime
      cached for its type. */
  lemma BootstrapKeepsSound(w: World, since: int, call: Call)
    requires call.GuCall? && Trusted(w, since) && since <= call.at && RealBatch(w, since, call)
    requires Bootstrapped(w.db, call).Some?
    ensures var w' := World(Bootstrapped(w.db, call).value, w.kv);
            && Tidy(w', call.at)
            && (Sound(w'.db.rows, w'.kv, call.at)
                <==> (WillBootstrap(w.db, call) ==> forall e :: e in call.batch ==> Believed(w.kv, e, call.at)))
  {
    TrustedLater(w, since, call.at);
    if WillBootstrap(w.db, call) {
      var rows := Bootstrapped(w.db, call).value.rows;
      ServerEntitiesKeyed(w.db, call.batch);
      BootstrapWrites(w, call);
      WritesKeepSound(w.db.rows, rows, w.kv, call.at);
      forall k | k in rows && rows[k].mtime.Some? ensures rows[k].mtime.value <= call.at {
        if Written(w.db.rows, rows, k) {}
      }
    }
  }

  lemma QuietWhenForgotten(kv: KV, keys: set<string>)
    requires AllQuiet(kv) && (forall key :: key in keys ==> IsMtimeKey(key))
    ensures AllQuiet(kv - keys)
  {
    ForgetKeepsTyping(kv, keys);
  }

  lemma RowTypeKeysAreMtimeKeys(db: DB, client: ClientId)
    ensures forall key :: key in RowTypeKeys(db, client) ==> IsMtimeKey(key)
  {
  }

  lemma ClearKeepsTrust(w: World, client: ClientId, since: int, now: int)
    requires Trusted(w, since) && since <= now && !IsDisabled(w.db, client)
    ensures Trusted(ServeClear(w, client, now), now)
  {
    TrustedLater(w, since, now);
    RowTypeKeysAreMtimeKeys(Disabled(w.db, client, now), client);
    QuietWhenForgotten(w.kv, RowTypeKeys(Disabled(w.db, client, now), client));
    var after := ServeClear(w, client, now);
    forall k | k in after.db.rows && Current(after.db.rows[k], now)
      ensures k in w.db.rows && after.db.rows[k] == w.db.rows[k]
    {
    }
  }

  lemma CommitKeepsQuiet(w: World, client: ClientId, msg: CommitMsg, env: CommitEnv, backend: Backend)
    requires ReachesLoop(msg, env) && AllQuiet(w.kv)
    ensures AllQuiet(Committed(w, client, msg, env, backend).0.kv)
  {
    var st := LoopEnd(w, client, msg, env, backend);
    CommitMeaning(w, client, msg, env, backend);
    FinishMeaning(w, st, client, env);
    LoopCounts(ContextOf(w, client, msg, env, backend), LoopStart(w, 0, 0), msg.entries, env.ticks, |msg.entries|);
    var kv := Committed(w, client, msg, env, backend).0.kv;
    forall c, k ensures Pending(kv, c, k) == 0 {
      if c == client { assert k == Normal || k == History; }
    }
  }

  lemma CommitKeepsTrust(cfg: Config, w: World, since: int, call: Call)
    requires call.CommitCall? && WellFormed(call) && Trusted(w, since) && InClock(since, call)
    requires !IsDisabled(w.db, call.client)
    ensures var after := Committed(w, call.client, call.commit, call.env, cfg.backend).0;
            && Tidy(after, call.env.end)
            && (Sound(after.db.rows, after.kv, call.env.end) <==> Careful(cfg, w, call))
  {
    TrustedLater(w, since, call.env.start);
    if ReachesLoop(call.commit, call.env) {
      CommitKeepsSound(w, call.client, call.commit, call.env, cfg.backend);
      CommitKeepsQuiet(w, call.client, call.commit, call.env, cfg.backend);
    } else {
      TrustedLater(w, call.env.start, call.env.end);
    }
  }

  predicate ErrorFree(call: Call) {
    call.GuCall? ==> forall i :: 0 <= i < |call.visits| ==> call.visits[i].page.Page?
  }

  lemma UpdatesServedAlike(a: Config, b: Config, wA: World, wB: World, since: int, call: Call)
    requires b == a.(polls := false) && Twins(wA, wB) && Trusted(wA, since)
    requires WellFormed(call) && InClock(since, call) && RealBatch(wA, since, call)
    requires ReachesMarkers(wA, call) && Careful(a, wA, call)
    requires LegalCall(a, wA, call) || (LegalCall(b, wB, call) && ErrorFree(call))
    ensures LegalCall(a, wA, call) && LegalCall(b, wB, call)
    ensures Serve(a, wA, call).answer == Serve(b, wB, call).answer
    ensures Twins(Serve(a, wA, call).world, Serve(b, wB, call).world)
    ensures Trusted(Serve(a, wA, call).world, EndOf(call))
  {
    BootstrapKeepsSound(wA, since, call);
    var db := Bootstrapped(wA.db, call).value;
    var n := |call.visits|;
    UpdatesMatch(db.rows, GuContextOf(a, call), GuContextOf(b, call), wA.kv, wB.kv, call.visits, call.at, n);
    assert forall k :: k in db.rows && db.rows[k].mtime.Some? ==> db.rows[k].mtime.value <= call.at <= EndOf(call);
  }

  /** One request served with and without the short cut. */
  lemma ServeMatches(a: Config, b: Config, wA: World, wB: World, since: int, call: Call)
    requires b == a.(polls := false) && Twins(wA, wB) && Trusted(wA, since)
    requires WellFormed(call) && InClock(since, call) && RealBatch(wA, since, call) && Careful(a, wA, call)
    requires LegalCall(a, wA, call) || (LegalCall(b, wB, call) && ErrorFree(call))
    ensures LegalCall(a, wA, call) && LegalCall(b, wB, call)
    ensures Serve(a, wA, call).answer == Serve(b, wB, call).answer
    ensures Twins(Serve(a, wA, call).world, Serve(b, wB, call).world)
    ensures Trusted(Serve(a, wA, call).world, EndOf(call))
  {
    TrustedLater(wA, since, if call.GuCall? then EndOf(call) else since);
    if !IsDisabled(wA.db, call.client) {
      match call
      case GuCall(_, msg, throttled, _, at, visits) =>
        if ReachesMarkers(wA, call) {
          UpdatesServedAlike(a, b, wA, wB, since, call);
        }
      case CommitCall(client, msg, env) =>
        CommitTwins(wA, wB, client, msg, env, a.backend);
        CommitKeepsTrust(a, wA, since, call);
      case ClearCall(client, now) =>
        RowTypeKeysAreMtimeKeys(Disabled(wA.db, client, now), client);
        ClearKeepsTrust(wA, client, since, now);
    } else {
      TrustedLater(wA, since, EndOf(call));
    }
  }

  function ClockAt(since: int, calls: seq<Call>, n: nat): int
    requires n <= |calls|
  {
    if n == 0 then since else EndOf(calls[n - 1])
  }

  ghost predicate RunUpto(a: Config, b: Config, w0: World, since: int, calls: seq<Call>, n: nat)
    requires n <= |calls| && AllWellFormed(calls)
  {
    n == 0 ||
    (var wA, wB, t := WorldAfter(a, w0, calls, n - 1), WorldAfter(b, w0, calls, n - 1), ClockAt(since, calls, n - 1);
     && RunUpto(a, b, w0, since, calls, n - 1)
     && InClock(t, calls[n - 1]) && RealBatch(wA, t, calls[n - 1]) && Careful(a, wA, calls[n - 1])
     && (LegalCall(a, wA, calls[n - 1]) || (LegalCall(b, wB, calls[n - 1]) && ErrorFree(calls[n - 1]))))
  }

  lemma {:induction false} RunsMatch(a: Config, b: Config, w0: World, since: int, calls: seq<Call>, n: nat)
    requires b == a.(polls := false) && AllWellFormed(calls) && n <= |calls|
    requires Trusted(w0, since) && RunUpto(a, b, w0, since, calls, n)
    ensures Twins(WorldAfter(a, w0, calls, n), WorldAfter(b, w0, calls, n))
    ensures Trusted(WorldAfter(a, w0, calls, n), ClockAt(since, calls, n))
    decreases n
  {
    if n > 0 {
      RunsMatch(a, b, w0, since, calls, n - 1);
      ServeMatches(a, b, WorldAfter(a, w0, calls, n - 1), WorldAfter(b, w0, calls, n - 1), ClockAt(since, calls, n - 1),
                   calls[n - 1]);
    }
  }

  /** Transparency: along every run whose answers either server may give, the server with
      the short cut and the one without give the same answer to every request, and either
      may give it. */
  lemma CacheIsTransparent(a: Config, b: Config, w0: World, since: int, calls: seq<Call>, i: nat)
    requires b == a.(polls := false) && AllWellFormed(calls) && i < |calls|
    requires Trusted(w0, since) && RunUpto(a, b, w0, since, calls, i + 1)
    ensures AnswerTo(a, w0, calls, i) == AnswerTo(b, w0, calls, i)
    ensures WorldAfter(a, w0, calls, i + 1).db == WorldAfter(b, w0, calls, i + 1).db
    ensures LegalCall(a, WorldAfter(a, w0, calls, i), calls[i]) && LegalCall(b, WorldAfter(b, w0, calls, i), calls[i])
  {
    RunsMatch(a, b, w0, since, calls, i);
    ServeMatches(a, b, WorldAfter(a, w0, calls, i), WorldAfter(b, w0, calls, i), ClockAt(since, calls, i), calls[i]);
  }

  lemma FreshWorldIsTrusted(since: int)
    ensures Trusted(FRESH_WORLD, since)
  {
  }

  /** A server that has stored nothing is trusted, so in every run from the start, at any time, the
      cache is sound and the short cut cannot be told. */
  lemma TransparentFromTheStart(a: Config, b: Config, since: int, calls: seq<Call>, i: nat)
    requires b == a.(polls := false) && AllWellFormed(calls) && i < |calls|
    requires RunUpto(a, b, FRESH_WORLD, since, calls, i + 1)
    ensures AnswerTo(a, FRESH_WORLD, calls, i) == AnswerTo(b, FRESH_WORLD, calls, i)
    ensures Trusted(WorldAfter(a, FRESH_WORLD, calls, i + 1), ClockAt(since, calls, i + 1))
  {
    FreshWorldIsTrusted(since);
    CacheIsTransparent(a, b, FRESH_WORLD, since, calls, i);
    RunsMatch(a, b, FRESH_WORLD, since, calls, i + 1);
  }

  // ---- exactly when the cache stays sound ----

  /** The cache is sound after the request and, where it goes over its markers, before and after each. */
  ghost predicate SoundDuring(cfg: Config, w: World, call: Call)
    requires WellFormed(call)
  {
    if ReachesMarkers(w, call) then
      var rows := Bootstrapped(w.db, call).value.rows;
      Sound(rows, w.kv, call.at)
      && SoundUpto(rows, GuContextOf(cfg, call), w.kv, call.visits, call.at, |call.visits|)
    else
      var after := Serve(cfg, w, call).world;
      Sound(after.db.rows, after.kv, EndOf(call))
  }

  lemma {:induction false} UpdatesKeepQuiet(c: GuContext, kv: KV, visits: seq<Visit>, n: nat)
    requires n <= |visits| && n <= |c.msg.markers| && AllQuiet(kv)
    ensures AllQuiet(Upto(c, kv, visits, n).kv)
    decreases n
  {
    if n > 0 {
      UpdatesKeepQuiet(c, kv, visits, n - 1);
      VisitKeepsQuiet(c, Upto(c, kv, visits, n - 1), c.msg.markers[n - 1], visits[n - 1]);
    }
  }

  lemma UpdatesStaySound(cfg: Config, w: World, since: int, call: Call)
    requires Trusted(w, since) && WellFormed(call) && InClock(since, call) && RealBatch(w, since, call)
    requires ReachesMarkers(w, call) && LegalCall(cfg, w, call)
    ensures var after := Serve(cfg, w, call).world;
            && Tidy(after, EndOf(call)) && (SoundDuring(cfg, w, call) <==> Careful(cfg, w, call))
            && (SoundDuring(cfg, w, call) ==> Trusted(after, EndOf(call)))
  {
    var c, db, n := GuContextOf(cfg, call), Bootstrapped(w.db, call).value, |call.visits|;
    BootstrapKeepsSound(w, since, call);
    UpdatesKeepQuiet(c, w.kv, call.visits, n);
    assert forall k :: k in db.rows && db.rows[k].mtime.Some? ==> db.rows[k].mtime.value <= call.at <= EndOf(call);
    if Sound(db.rows, w.kv, call.at) { UpdatesKeepSound(db.rows, c, w.kv, call.visits, call.at, n); }
  }

  /** Each request, from a sound cache. */
  lemma ServeKeepsSound(cfg: Config, w: World, since: int, call: Call)
    requires Trusted(w, since) && WellFormed(call) && InClock(since, call) && RealBatch(w, since, call)
    requires LegalCall(cfg, w, call)
    ensures var after := Serve(cfg, w, call).world;
            && Tidy(after, EndOf(call)) && (SoundDuring(cfg, w, call) <==> Careful(cfg, w, call))
            && (SoundDuring(cfg, w, call) ==> Trusted(after, EndOf(call)))
  {
    if ReachesMarkers(w, call) {
      UpdatesStaySound(cfg, w, since, call);
    } else if IsDisabled(w.db, call.client) || call.GuCall? {
      TrustedLater(w, since, EndOf(call));
    } else if call.ClearCall? {
      ClearKeepsTrust(w, call.client, since, call.now);
    } else {
      CommitKeepsTrust(cfg, w, since, call);
    }
  }

  /** A run whose clock does not go back and whose answers are the store's. */
  ghost predicate TimelyUpto(cfg: Config, w0: World, since: int, calls: seq<Call>, n: nat)
    requires n <= |calls| && AllWellFormed(calls)
  {
    n == 0 ||
    (var w, t := WorldAfter(cfg, w0, calls, n - 1), ClockAt(since, calls, n - 1);
     && TimelyUpto(cfg, w0, since, calls, n - 1)
     && InClock(t, calls[n - 1]) && RealBatch(w, t, calls[n - 1]) && LegalCall(cfg, w, calls[n - 1]))
  }

  ghost predicate AlwaysSound(cfg: Config, w0: World, calls: seq<Call>, n: nat)
    requires n <= |calls| && AllWellFormed(calls)
  {
    n == 0 || (AlwaysSound(cfg, w0, calls, n - 1)
               && SoundDuring(cfg, WorldAfter(cfg, w0, calls, n - 1), calls[n - 1]))
  }

  ghost predicate CarefulUpto(cfg: Config, w0: World, calls: seq<Call>, n: nat)
    requires n <= |calls| && AllWellFormed(calls)
  {
    n == 0 || (CarefulUpto(cfg, w0, calls, n - 1)
               && Careful(cfg, WorldAfter(cfg, w0, calls, n - 1), calls[n - 1]))
  }

  /** The cache is sound throughout a run, of requests handled one at a time, exactly when every
      request is careful. */
  lemma {:induction false} CacheStaysSound(cfg: Config, w0: World, since: int, calls: seq<Call>, n: nat)
    requires n <= |calls| && AllWellFormed(calls) && Trusted(w0, since) && TimelyUpto(cfg, w0, since, calls, n)
    ensures AlwaysSound(cfg, w0, calls, n) <==> CarefulUpto(cfg, w0, calls, n)
    ensures AlwaysSound(cfg, w0, calls, n) ==> Trusted(WorldAfter(cfg, w0, calls, n), ClockAt(since, calls, n))
    decreases n
  {
    if n > 0 {
      CacheStaysSound(cfg, w0, since, calls, n - 1);
      if AlwaysSound(cfg, w0, calls, n - 1) {
        ServeKeepsSound(cfg, WorldAfter(cfg, w0, calls, n - 1), ClockAt(since, calls, n - 1), calls[n - 1]);
      }
    }
  }
}
