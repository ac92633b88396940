/** Quotas and counts over every sequential run of the server from nothing stored. */
module Runs {
  import opened Basics
  import opened SyncEntities
  import opened ItemCounts
  import opened Tables
  import opened Commit
  import opened Quota
  import opened Agreement
  import opened Server
  import opened Isolation
  import opened Transparency
  import Bootstrap

  // ---- the world between requests ----

  /** Rows are keyed, and nothing waits to be drained. */
  ghost predicate AtRest(w: World) {
    KeyedRows(w.db) && AllQuiet(w.kv)
  }

  /** And stored counts are of the current format. */
  ghost predicate Calm(w: World) {
    AtRest(w) && forall c :: c in w.db.counts ==> w.db.counts[c].version == COUNT_VERSION
  }

  lemma {:induction false} LoopKeepsTables(c: CommitContext, st0: CommitState, entries: seq<PbEntity>, ticks: seq<Tick>,
                                           n: nat)
    requires n <= |entries| && n <= |ticks| && AllAddressable(entries) && KeyedRows(st0.db)
    ensures var db := CommitUpto(c, st0, entries, ticks, n).db;
            KeyedRows(db) && db.counts == st0.db.counts
    decreases n
  {
    if n > 0 {
      LoopKeepsTables(c, st0, entries, ticks, n - 1);
      EntryKeyed(c, CommitUpto(c, st0, entries, ticks, n - 1), entries[n - 1], ticks[n - 1]);
      EntryWrites(c, CommitUpto(c, st0, entries, ticks, n - 1), entries[n - 1], ticks[n - 1]);
    }
  }

  /** The client's record is from before the current format and will be recounted. */
  predicate InOldFormat(db: DB, client: ClientId) {
    client in db.counts && db.counts[client].version < COUNT_VERSION
  }

  /** Loading a record of the current format, or none, only rotates it. */
  lemma LoadedIsRotated(db: DB, client: ClientId, nowSec: int)
    requires !InOldFormat(db, client)
    ensures var c := LoadedCounts(db, client, nowSec);
            && c.items == StoredCounts(db, client).items
            && (client in db.counts ==> c == Rotated(db.counts[client], nowSec))
            && (client !in db.counts ==> c == Counts(0, 0, 0, 0, 0, nowSec, COUNT_VERSION))
  {
    if client in db.counts { RotatedSum(db.counts[client], nowSec); }
  }

  lemma LoadedIsCurrent(db: DB, client: ClientId, nowSec: int)
    requires client in db.counts ==> db.counts[client].version == COUNT_VERSION
    ensures LoadedCounts(db, client, nowSec).version == COUNT_VERSION
    ensures LoadedCounts(db, client, nowSec).items == StoredCounts(db, client).items
  {
    LoadedIsRotated(db, client, nowSec);
    if client in db.counts { RotatedSum(db.counts[client], nowSec); }
  }

  /** The counts after a commit that ran, and the rows it left. */
  lemma CommitSaves(w: World, client: ClientId, msg: CommitMsg, env: CommitEnv, backend: Backend)
    requires AtRest(w) && ReachesLoop(msg, env)
    ensures var after, st := Committed(w, client, msg, env, backend).0, LoopEnd(w, client, msg, env, backend);
            && AtRest(after) && after.db.rows == st.db.rows && after.db.tags == st.db.tags
            && after.db.counts == (if env.saveFails then w.db.counts
                                   else w.db.counts[client := Added(LoadedCounts(w.db, client, env.start / 1000),
                                                                    st.newNormal, st.newHistory)])
  {
    CommitMeaning(w, client, msg, env, backend);
    FinishMeaning(w, LoopEnd(w, client, msg, env, backend), client, env);
    LoopKeepsTables(ContextOf(w, client, msg, env, backend), LoopStart(w, 0, 0), msg.entries, env.ticks, |msg.entries|);
    CommitKeepsQuiet(w, client, msg, env, backend);
  }

  lemma CommitKeepsCalm(w: World, client: ClientId, msg: CommitMsg, env: CommitEnv, backend: Backend)
    requires Calm(w) && ReachesLoop(msg, env)
    ensures Calm(Committed(w, client, msg, env, backend).0)
  {
    CommitSaves(w, client, msg, env, backend);
    LoadedIsCurrent(w.db, client, env.start / 1000);
  }

  lemma BootstrapKeepsTables(db: DB, call: Call)
    requires call.GuCall? && KeyedRows(db) && Bootstrapped(db, call).Some?
    ensures KeyedRows(Bootstrapped(db, call).value) && Bootstrapped(db, call).value.counts == db.counts
  {
    if WillBootstrap(db, call) {
      ServerEntitiesKeyed(db, call.batch);
      Bootstrap.BatchEffect(db, call.batch);
    }
  }

  lemma ServeKeepsRest(cfg: Config, w: World, call: Call)
    requires WellFormed(call) && AtRest(w)
    ensures AtRest(Serve(cfg, w, call).world)
  {
    if !IsDisabled(w.db, call.client) {
      match call
      case GuCall(_, _, _, _, _, visits) =>
        UpdatesKeepQuiet(GuContextOf(cfg, call), w.kv, visits, |visits|);
        if Bootstrapped(w.db, call).Some? { BootstrapKeepsTables(w.db, call); }
      case CommitCall(client, msg, env) =>
        if ReachesLoop(msg, env) { CommitSaves(w, client, msg, env, cfg.backend); }
      case ClearCall(client, now) =>
        RowTypeKeysAreMtimeKeys(Disabled(w.db, client, now), client);
        QuietWhenForgotten(w.kv, RowTypeKeys(Disabled(w.db, client, now), client));
    }
  }

  lemma ServeKeepsCalm(cfg: Config, w: World, call: Call)
    requires WellFormed(call) && Calm(w)
    ensures Calm(Serve(cfg, w, call).world)
  {
    ServeKeepsRest(cfg, w, call);
    if !IsDisabled(w.db, call.client) {
      match call
      case GuCall(_, _, _, _, _, _) =>
        if Bootstrapped(w.db, call).Some? { BootstrapKeepsTables(w.db, call); }
      case CommitCall(client, msg, env) =>
        if ReachesLoop(msg, env) { CommitKeepsCalm(w, client, msg, env, cfg.backend); }
      case ClearCall(_, _) =>
    }
  }

  // ---- what a request saves ----

  /** The request is a commit of the client that gets to save its counts. */
  predicate SavesCounts(w: World, call: Call, client: ClientId)
    requires WellFormed(call)
  {
    && call.client == client && !IsDisabled(w.db, client) && call.CommitCall?
    && ReachesLoop(call.commit, call.env) && !call.env.saveFails
  }

  /** The loaded counts and what the commit's loop counted. */
  function SavedBy(cfg: Config, w: World, call: Call, client: ClientId): Counts
    requires WellFormed(call) && SavesCounts(w, call, client)
  {
    var st := LoopEnd(w, client, call.commit, call.env, cfg.backend);
    Added(LoadedCounts(w.db, client, call.env.start / 1000), st.newNormal, st.newHistory)
  }

  /** A request of any client saves the client's counts, leaves them, or clears them. */
  lemma ServeCounts(cfg: Config, w: World, call: Call, client: ClientId)
    requires WellFormed(call) && OwnBatch(call) && AtRest(w)
    ensures var db := Serve(cfg, w, call).world.db;
            && (SavesCounts(w, call, client) ==>
                  client in db.counts && db.counts[client] == SavedBy(cfg, w, call, client))
            && (!SavesCounts(w, call, client) ==>
                  || client !in db.counts
                  || (client in w.db.counts && db.counts[client] == w.db.counts[client]))
            && (client in w.db.counts && client !in db.counts ==> call.ClearCall? && call.client == client)
  {
    if call.client != client {
      OtherClientsUntouched(cfg, w, call, client);
    } else if !IsDisabled(w.db, client) {
      match call
      case GuCall(_, _, _, _, _, _) =>
        if Bootstrapped(w.db, call).Some? { BootstrapKeepsTables(w.db, call); }
      case CommitCall(_, msg, env) =>
        if ReachesLoop(msg, env) { CommitSaves(w, client, msg, env, cfg.backend); }
      case ClearCall(_, _) =>
    }
  }

  // ---- quotas ----

  /** The stored counts of the client are within the quotas and no bucket is negative. */
  ghost predicate WithinQuotas(db: DB, client: ClientId) {
    var c := StoredCounts(db, client);
    NonNegative(c) && TotalOf(c) <= MAX_CLIENT_OBJECT_QUOTA && HistorySum(c) <= MAX_CLIENT_HISTORY_OBJECT_QUOTA
  }

  /** Loading the counts at any time stays within the quotas. */
  lemma LoadedWithinQuotas(db: DB, client: ClientId, nowSec: int)
    requires WithinQuotas(db, client) && (client in db.counts ==> db.counts[client].version == COUNT_VERSION)
    ensures var c := LoadedCounts(db, client, nowSec);
            NonNegative(c) && TotalOf(c) <= MAX_CLIENT_OBJECT_QUOTA && HistorySum(c) <= MAX_CLIENT_HISTORY_OBJECT_QUOTA
  {
  }

  predicate SparesHistory(call: Call) {
    call.CommitCall? ==> DeletesNoHistory(call.commit.entries)
  }

  lemma CommitStaysWithin(w: World, client: ClientId, msg: CommitMsg, env: CommitEnv, backend: Backend)
    requires Calm(w) && ReachesLoop(msg, env) && DeletesNoHistory(msg.entries) && WithinQuotas(w.db, client)
    ensures WithinQuotas(Committed(w, client, msg, env, backend).0.db, client)
  {
    CommitSaves(w, client, msg, env, backend);
    LoadedWithinQuotas(w.db, client, env.start / 1000);
    if !env.saveFails {
      CommitWithinQuota(w, client, msg, env, backend);
      CommitKeepsBoostedQuota(w, client, msg, env, backend);
    }
  }

  lemma ServeKeepsQuotas(cfg: Config, w: World, call: Call, client: ClientId)
    requires WellFormed(call) && OwnBatch(call) && Calm(w) && WithinQuotas(w.db, client)
    requires call.client == client ==> SparesHistory(call)
    ensures WithinQuotas(Serve(cfg, w, call).world.db, client)
  {
    if call.client != client {
      OtherClientsUntouched(cfg, w, call, client);
    } else if !IsDisabled(w.db, client) {
      match call
      case GuCall(_, _, _, _, _, _) =>
        if Bootstrapped(w.db, call).Some? { BootstrapKeepsTables(w.db, call); }
      case CommitCall(_, msg, env) =>
        if ReachesLoop(msg, env) { CommitStaysWithin(w, client, msg, env, cfg.backend); }
      case ClearCall(_, _) =>
    }
  }

  lemma ServeKeepsCalmAndQuotas(cfg: Config, w: World, call: Call, client: ClientId)
    requires WellFormed(call) && OwnBatch(call) && Calm(w) && WithinQuotas(w.db, client)
    requires call.client == client ==> SparesHistory(call)
    ensures var after := Serve(cfg, w, call).world;
            Calm(after) && WithinQuotas(after.db, client)
  {
    ServeKeepsCalm(cfg, w, call);
    ServeKeepsQuotas(cfg, w, call, client);
  }

  lemma NothingStoredIsWithin(client: ClientId)
    ensures Calm(FRESH_WORLD) && WithinQuotas(FRESH_WORLD.db, client)
  {
  }

  /** From nothing stored, or from any state within the quotas: in every run in which the client
      deletes no history, its counts never exceed 50000 items in all or 30000 of history,
      whatever other clients do and whichever saves fail. */
  lemma {:induction false} QuotasHoldInEveryRun(cfg: Config, w0: World, calls: seq<Call>, n: nat, client: ClientId)
    requires n <= |calls| && AllWellFormed(calls)
    requires w0 == FRESH_WORLD || (Calm(w0) && WithinQuotas(w0.db, client))
    requires forall i :: 0 <= i < n ==> OwnBatch(calls[i]) && (calls[i].client == client ==> SparesHistory(calls[i]))
    ensures Calm(WorldAfter(cfg, w0, calls, n)) && WithinQuotas(WorldAfter(cfg, w0, calls, n).db, client)
    decreases n
  {
    if n == 0 {
      NothingStoredIsWithin(client);
    } else {
      QuotasHoldInEveryRun(cfg, w0, calls, n - 1, client);
      ServeKeepsCalmAndQuotas(cfg, WorldAfter(cfg, w0, calls, n - 1), calls[n - 1], client);
    }
  }

  // ---- the boosted quota, from any state ----

  /** No bucket is negative and the total is within the quota the history boosts. */
  predicate WithinBoost(c: Counts) {
    NonNegative(c) && WithinBoostedQuota(c)
  }

  lemma RotatedWithinBoost(c: Counts, nowSec: int)
    requires WithinBoost(c)
    ensures WithinBoost(Rotated(c, nowSec))
  {
    RotationKeepsQuota(c, nowSec);
  }

  lemma LoadedWithinBoost(db: DB, client: ClientId, nowSec: int)
    requires WithinBoost(StoredCounts(db, client)) && !InOldFormat(db, client)
    ensures WithinBoost(LoadedCounts(db, client, nowSec))
  {
    LoadedIsRotated(db, client, nowSec);
    if client in db.counts { RotatedWithinBoost(db.counts[client], nowSec); }
  }

  lemma CommitStaysWithinBoost(w: World, client: ClientId, msg: CommitMsg, env: CommitEnv, backend: Backend)
    requires AtRest(w) && ReachesLoop(msg, env) && DeletesNoHistory(msg.entries) && !env.saveFails
    requires WithinBoost(LoadedCounts(w.db, client, env.start / 1000))
    ensures WithinBoost(StoredCounts(Committed(w, client, msg, env, backend).0.db, client))
  {
    CommitKeepsBoostedQuota(w, client, msg, env, backend);
  }

  /** The record is still of the old format, or it is within the boosted quota. */
  predicate OldOrWithinBoost(db: DB, client: ClientId) {
    InOldFormat(db, client) || WithinBoost(StoredCounts(db, client))
  }

  /** A recount that a commit of the client loads is within the boosted quota. */
  predicate RecountsWithinBoost(w: World, call: Call, client: ClientId)
    requires WellFormed(call)
  {
    SavesCounts(w, call, client) && InOldFormat(w.db, client) ==>
      WithinBoost(LoadedCounts(w.db, client, call.env.start / 1000))
  }

  lemma LoadedIsNotOld(db: DB, client: ClientId, nowSec: int)
    ensures LoadedCounts(db, client, nowSec).version >= COUNT_VERSION
  {
    RotatedSum(StoredCounts(db, client), nowSec);
  }

  lemma ServeKeepsBoost(cfg: Config, w: World, call: Call, client: ClientId)
    requires WellFormed(call) && OwnBatch(call) && AtRest(w) && OldOrWithinBoost(w.db, client)
    requires call.client == client ==> SparesHistory(call)
    requires RecountsWithinBoost(w, call, client)
    ensures OldOrWithinBoost(Serve(cfg, w, call).world.db, client)
  {
    ServeCounts(cfg, w, call, client);
    if SavesCounts(w, call, client) {
      if !InOldFormat(w.db, client) { LoadedWithinBoost(w.db, client, call.env.start / 1000); }
      CommitStaysWithinBoost(w, client, call.commit, call.env, cfg.backend);
    }
  }

  predicate AllRecountsWithinBoost(cfg: Config, w0: World, calls: seq<Call>, n: nat, client: ClientId)
    requires n <= |calls| && AllWellFormed(calls)
  {
    n == 0 || (AllRecountsWithinBoost(cfg, w0, calls, n - 1, client)
               && RecountsWithinBoost(WorldAfter(cfg, w0, calls, n - 1), calls[n - 1], client))
  }

  /** A chain found over the history quota keeps the boost it gives. From any state in which the
      client's total is within the boosted quota, or its record is of the old format and recounts
      to within it when a commit first saves, in every run in which it deletes no history: the
      stored total, once it is of the current format, and the total loaded from it at any time
      stay within the boosted quota, while rotation shrinks the boost. */
  lemma {:induction false} BoostedQuotaHoldsInEveryRun(cfg: Config, w0: World, calls: seq<Call>, n: nat,
                                                       client: ClientId, nowSec: int)
    requires n <= |calls| && AllWellFormed(calls)
    requires AtRest(w0) && OldOrWithinBoost(w0.db, client)
    requires AllRecountsWithinBoost(cfg, w0, calls, n, client)
    requires forall i :: 0 <= i < n ==> OwnBatch(calls[i]) && (calls[i].client == client ==> SparesHistory(calls[i]))
    ensures var w := WorldAfter(cfg, w0, calls, n);
            && AtRest(w) && OldOrWithinBoost(w.db, client)
            && (!InOldFormat(w.db, client) ==>
                  WithinBoost(StoredCounts(w.db, client)) && WithinBoost(LoadedCounts(w.db, client, nowSec)))
    decreases n
  {
    if n > 0 {
      BoostedQuotaHoldsInEveryRun(cfg, w0, calls, n - 1, client, nowSec);
      ServeKeepsRest(cfg, WorldAfter(cfg, w0, calls, n - 1), calls[n - 1]);
      ServeKeepsBoost(cfg, WorldAfter(cfg, w0, calls, n - 1), calls[n - 1], client);
    }
    var w := WorldAfter(cfg, w0, calls, n);
    if !InOldFormat(w.db, client) { LoadedWithinBoost(w.db, client, nowSec); }
  }

  // ---- exactly when a quota is passed ----

  /** The history count, and the count of all items. */
  datatype Measure = HistoryItems | AllItems

  function Level(c: Counts, m: Measure): int {
    if m.AllItems? then TotalOf(c) else HistorySum(c)
  }

  /** The highest a record's level gets as its buckets rotate out. */
  function PeakLevel(c: Counts, m: Measure): int {
    (if m.AllItems? then c.items else 0) + Peak(c)
  }

  /** Whenever the client's counts are loaded they are within the bound. */
  ghost predicate LoadsWithin(db: DB, client: ClientId, m: Measure, q: int) {
    forall t :: Level(LoadedCounts(db, client, t), m) <= q
  }

  lemma LoadedLevel(db: DB, client: ClientId, m: Measure, t: int)
    requires !InOldFormat(db, client)
    ensures var c := StoredCounts(db, client);
            Level(LoadedCounts(db, client, t), m)
            == (if m.AllItems? then c.items else 0) + HistorySum(Rotated(c, t))
  {
    LoadedIsRotated(db, client, t);
    if client !in db.counts { NothingRotates(t); }
  }

  lemma LoadsAreRotations(db: DB, client: ClientId, m: Measure, q: int)
    requires !InOldFormat(db, client)
    ensures var c := StoredCounts(db, client);
            var base := if m.AllItems? then c.items else 0;
            LoadsWithin(db, client, m, q) <==> forall t :: HistorySum(Rotated(c, t)) <= q - base
  {
    var c := StoredCounts(db, client);
    var base := if m.AllItems? then c.items else 0;
    forall t ensures Level(LoadedCounts(db, client, t), m) == base + HistorySum(Rotated(c, t)) {
      LoadedLevel(db, client, m, t);
    }
    if LoadsWithin(db, client, m, q) {
      forall t ensures HistorySum(Rotated(c, t)) <= q - base {
        assert Level(LoadedCounts(db, client, t), m) <= q;
      }
    }
  }

  /** Every load is within the bound if and only if the record's peak is. */
  lemma LoadsWithinIffPeak(db: DB, client: ClientId, m: Measure, q: int)
    requires !InOldFormat(db, client) && q >= 0
    ensures LoadsWithin(db, client, m, q) <==> PeakLevel(StoredCounts(db, client), m) <= q
  {
    var c := StoredCounts(db, client);
    var base := if m.AllItems? then c.items else 0;
    PeakIsHighest(c, q - base);
    LoadsAreRotations(db, client, m, q);
  }

  /** The suffix sums of the loaded buckets with what the commit counted added to the newest. */
  predicate SumsWithin(before: Counts, normal: int, history: int, m: Measure, q: int) {
    var base := if m.AllItems? then before.items + normal else 0;
    && base <= q
    && base + before.h4 + history <= q
    && base + before.h3 + before.h4 + history <= q
    && base + before.h2 + before.h3 + before.h4 + history <= q
    && base + HistorySum(before) + history <= q
  }

  lemma SumsArePeak(before: Counts, normal: int, history: int, m: Measure, q: int)
    ensures SumsWithin(before, normal, history, m, q) <==> PeakLevel(Added(before, normal, history), m) <= q
  {
  }

  /** After a commit that saves its counts, every later load is within the bound if and only if every
      sum of the newest loaded buckets is, with what the commit's loop counted. */
  lemma CommitLoadsWithin(w: World, client: ClientId, msg: CommitMsg, env: CommitEnv, backend: Backend,
                          m: Measure, q: int)
    requires ReachesLoop(msg, env) && Quiet(w.kv, client) && !env.saveFails && q >= 0
    ensures var before, st := LoadedCounts(w.db, client, env.start / 1000), LoopEnd(w, client, msg, env, backend);
            LoadsWithin(Committed(w, client, msg, env, backend).0.db, client, m, q)
            <==> SumsWithin(before, st.newNormal, st.newHistory, m, q)
  {
    var before, st := LoadedCounts(w.db, client, env.start / 1000), LoopEnd(w, client, msg, env, backend);
    var after := Committed(w, client, msg, env, backend).0.db;
    SavedCounts(w, client, msg, env, backend);
    LoadedIsNotOld(w.db, client, env.start / 1000);
    LoadsWithinIffPeak(after, client, m, q);
    SumsArePeak(before, st.newNormal, st.newHistory, m, q);
  }

  /** The request keeps every later load within the bound: it does not save the client's counts, or
      the sums it saves are within it. */
  predicate SavesWithin(cfg: Config, w: World, call: Call, client: ClientId, m: Measure, q: int)
    requires WellFormed(call)
  {
    SavesCounts(w, call, client) ==>
      var st := LoopEnd(w, client, call.commit, call.env, cfg.backend);
      SumsWithin(LoadedCounts(w.db, client, call.env.start / 1000), st.newNormal, st.newHistory, m, q)
  }

  /** Counts that are left alone, or dropped, stay within the bound. */
  lemma UnsavedLoadsWithin(db: DB, after: DB, client: ClientId, m: Measure, q: int)
    requires !InOldFormat(db, client) && q >= 0 && LoadsWithin(db, client, m, q)
    requires client !in after.counts || (client in db.counts && after.counts[client] == db.counts[client])
    ensures !InOldFormat(after, client) && LoadsWithin(after, client, m, q)
  {
    forall t ensures Level(LoadedCounts(after, client, t), m) <= q {
      LoadedLevel(db, client, m, t);
      LoadedLevel(after, client, m, t);
    }
  }

  lemma ServeLoadsWithin(cfg: Config, w: World, call: Call, client: ClientId, m: Measure, q: int)
    requires WellFormed(call) && OwnBatch(call) && AtRest(w) && !InOldFormat(w.db, client) && q >= 0
    requires LoadsWithin(w.db, client, m, q)
    ensures LoadsWithin(Serve(cfg, w, call).world.db, client, m, q) <==> SavesWithin(cfg, w, call, client, m, q)
    ensures !InOldFormat(Serve(cfg, w, call).world.db, client)
  {
    var after := Serve(cfg, w, call).world.db;
    ServeCounts(cfg, w, call, client);
    if SavesCounts(w, call, client) {
      LoadedIsNotOld(w.db, client, call.env.start / 1000);
      CommitLoadsWithin(w, client, call.commit, call.env, cfg.backend, m, q);
    } else {
      UnsavedLoadsWithin(w.db, after, client, m, q);
    }
  }

  ghost predicate AlwaysLoadsWithin(cfg: Config, w0: World, calls: seq<Call>, n: nat, client: ClientId,
                                    m: Measure, q: int)
    requires n <= |calls| && AllWellFormed(calls)
  {
    && LoadsWithin(WorldAfter(cfg, w0, calls, n).db, client, m, q)
    && (n == 0 || AlwaysLoadsWithin(cfg, w0, calls, n - 1, client, m, q))
  }

  predicate AllSavesWithin(cfg: Config, w0: World, calls: seq<Call>, n: nat, client: ClientId, m: Measure, q: int)
    requires n <= |calls| && AllWellFormed(calls)
  {
    n == 0 || (AllSavesWithin(cfg, w0, calls, n - 1, client, m, q)
               && SavesWithin(cfg, WorldAfter(cfg, w0, calls, n - 1), calls[n - 1], client, m, q))
  }

  /** In every run, history deletes or not: whenever the counts are loaded, from whichever state of
      the run, they are within the bound, if and only if they are at the start and every saved
      commit leaves the sums of its newest buckets within it. With the bound 30000 for history and
      50000 for all items this is exactly when the quotas hold. */
  lemma {:induction false} QuotaHoldsExactly(cfg: Config, w0: World, calls: seq<Call>, n: nat, client: ClientId,
                                             m: Measure, q: int)
    requires n <= |calls| && AllWellFormed(calls) && AtRest(w0) && !InOldFormat(w0.db, client) && q >= 0
    requires forall i :: 0 <= i < n ==> OwnBatch(calls[i])
    ensures AtRest(WorldAfter(cfg, w0, calls, n))
    ensures AlwaysLoadsWithin(cfg, w0, calls, n, client, m, q)
            <==> LoadsWithin(w0.db, client, m, q) && AllSavesWithin(cfg, w0, calls, n, client, m, q)
    ensures AlwaysLoadsWithin(cfg, w0, calls, n, client, m, q) ==>
              !InOldFormat(WorldAfter(cfg, w0, calls, n).db, client)
    decreases n
  {
    if n > 0 {
      QuotaHoldsExactly(cfg, w0, calls, n - 1, client, m, q);
      ServeKeepsRest(cfg, WorldAfter(cfg, w0, calls, n - 1), calls[n - 1]);
      if AlwaysLoadsWithin(cfg, w0, calls, n - 1, client, m, q) {
        ServeLoadsWithin(cfg, WorldAfter(cfg, w0, calls, n - 1), calls[n - 1], client, m, q);
      }
    }
  }

  // ---- the history window ----

  /** A client's count when its first commit loads it. */
  function FirstCounts(nowSec: int): Counts {
    Counts(0, 0, 0, 0, 0, nowSec, COUNT_VERSION)
  }

  function EventsAfter(cfg: Config, w: World, call: Call, client: ClientId, before: seq<CountEvent>): seq<CountEvent>
    requires WellFormed(call)
  {
    if call.client != client || IsDisabled(w.db, client) || call.GuCall? then before
    else if call.ClearCall? then []
    else if ReachesLoop(call.commit, call.env) && !call.env.saveFails then
      var st := LoopEnd(w, client, call.commit, call.env, cfg.backend);
      before + [CountEvent(call.env.start / 1000, st.newNormal, st.newHistory)]
    else before
  }

  /** The saved commits of the client since its last clear: when each loaded the counts, and
      the counted creates less deletes it drained. */
  function EventsOf(cfg: Config, calls: seq<Call>, n: nat, client: ClientId): seq<CountEvent>
    requires n <= |calls| && AllWellFormed(calls)
  {
    if n == 0 then []
    else
      EventsAfter(cfg, WorldAfter(cfg, FRESH_WORLD, calls, n - 1), calls[n - 1], client,
                  EventsOf(cfg, calls, n - 1, client))
  }

  ghost predicate CountsFollow(db: DB, client: ClientId, events: seq<CountEvent>) {
    if events == [] then client !in db.counts
    else client in db.counts && db.counts[client] == CountsAfter(FirstCounts(events[0].time), events)
  }

  lemma OneMoreEvent(c0: Counts, events: seq<CountEvent>, e: CountEvent)
    ensures CountsAfter(c0, events + [e]) == Added(Rotated(CountsAfter(c0, events), e.time), e.normal, e.history)
  {
  }

  lemma FirstRotatesToItself(nowSec: int)
    ensures Rotated(FirstCounts(nowSec), nowSec) == FirstCounts(nowSec)
  {
    RotatedAt(FirstCounts(nowSec), 0);
  }

  /** A record saved from counts that were loaded from one that follows the events. */
  lemma FollowsMore(db: DB, after: DB, client: ClientId, events: seq<CountEvent>, e: CountEvent, loaded: Counts)
    requires CountsFollow(db, client, events)
    requires events == [] ==> loaded == FirstCounts(e.time)
    requires events != [] ==> loaded == Rotated(db.counts[client], e.time)
    requires client in after.counts && after.counts[client] == Added(loaded, e.normal, e.history)
    ensures CountsFollow(after, client, events + [e])
  {
    OneMoreEvent(FirstCounts((events + [e])[0].time), events, e);
    if events == [] { FirstRotatesToItself(e.time); }
  }

  lemma SavedCommitFollows(w: World, client: ClientId, msg: CommitMsg, env: CommitEnv, backend: Backend,
                           events: seq<CountEvent>)
    requires Calm(w) && ReachesLoop(msg, env) && !env.saveFails && CountsFollow(w.db, client, events)
    ensures var st := LoopEnd(w, client, msg, env, backend);
            CountsFollow(Committed(w, client, msg, env, backend).0.db, client,
                         events + [CountEvent(env.start / 1000, st.newNormal, st.newHistory)])
  {
    var st := LoopEnd(w, client, msg, env, backend);
    CommitSaves(w, client, msg, env, backend);
    LoadedIsRotated(w.db, client, env.start / 1000);
    FollowsMore(w.db, Committed(w, client, msg, env, backend).0.db, client, events,
                CountEvent(env.start / 1000, st.newNormal, st.newHistory),
                LoadedCounts(w.db, client, env.start / 1000));
  }

  lemma ServeFollows(cfg: Config, w: World, call: Call, client: ClientId, events: seq<CountEvent>)
    requires WellFormed(call) && OwnBatch(call) && Calm(w) && CountsFollow(w.db, client, events)
    requires call.client != client || IsDisabled(w.db, client) || call.GuCall?
             || (call.CommitCall? && (!ReachesLoop(call.commit, call.env) || call.env.saveFails))
    ensures CountsFollow(Serve(cfg, w, call).world.db, client, events)
  {
    if call.client != client {
      OtherClientsUntouched(cfg, w, call, client);
    } else if !IsDisabled(w.db, client) {
      if call.GuCall? && Bootstrapped(w.db, call).Some? { BootstrapKeepsTables(w.db, call); }
      if call.CommitCall? && ReachesLoop(call.commit, call.env) {
        CommitSaves(w, client, call.commit, call.env, cfg.backend);
      }
    }
  }

  lemma CallFollows(cfg: Config, w: World, call: Call, client: ClientId, events: seq<CountEvent>)
    requires WellFormed(call) && OwnBatch(call) && Calm(w) && CountsFollow(w.db, client, events)
    ensures CountsFollow(Serve(cfg, w, call).world.db, client, EventsAfter(cfg, w, call, client, events))
  {
    if call.client != client || IsDisabled(w.db, client) || call.GuCall? {
      ServeFollows(cfg, w, call, client, events);
    } else if call.CommitCall? {
      if ReachesLoop(call.commit, call.env) && !call.env.saveFails {
        SavedCommitFollows(w, client, call.commit, call.env, cfg.backend, events);
      } else {
        ServeFollows(cfg, w, call, client, events);
      }
    }
  }

  lemma OneMoreFollows(cfg: Config, calls: seq<Call>, n: nat, client: ClientId)
    requires n < |calls| && AllWellFormed(calls) && OwnBatch(calls[n])
    requires Calm(WorldAfter(cfg, FRESH_WORLD, calls, n))
    requires CountsFollow(WorldAfter(cfg, FRESH_WORLD, calls, n).db, client, EventsOf(cfg, calls, n, client))
    ensures Calm(WorldAfter(cfg, FRESH_WORLD, calls, n + 1))
    ensures CountsFollow(WorldAfter(cfg, FRESH_WORLD, calls, n + 1).db, client, EventsOf(cfg, calls, n + 1, client))
  {
    ServeKeepsCalm(cfg, WorldAfter(cfg, FRESH_WORLD, calls, n), calls[n]);
    CallFollows(cfg, WorldAfter(cfg, FRESH_WORLD, calls, n), calls[n], client, EventsOf(cfg, calls, n, client));
  }

  lemma {:induction false} StoredCountsFollowEvents(cfg: Config, calls: seq<Call>, n: nat, client: ClientId)
    requires n <= |calls| && AllWellFormed(calls) && forall i :: 0 <= i < n ==> OwnBatch(calls[i])
    ensures Calm(WorldAfter(cfg, FRESH_WORLD, calls, n))
    ensures CountsFollow(WorldAfter(cfg, FRESH_WORLD, calls, n).db, client, EventsOf(cfg, calls, n, client))
    decreases n
  {
    if n > 0 {
      StoredCountsFollowEvents(cfg, calls, n - 1, client);
      OneMoreFollows(cfg, calls, n - 1, client);
    }
  }

  /** In every run, the history count the server loads at `now` is the net of the history the
      client's saved commits counted inside the sliding window. */
  lemma HistoryCountIsWindow(cfg: Config, calls: seq<Call>, client: ClientId, now: int)
    requires AllWellFormed(calls) && forall i :: 0 <= i < |calls| ==> OwnBatch(calls[i])
    requires var events := EventsOf(cfg, calls, |calls|, client);
             events != [] && InTimeOrder(events[0].time, events, now)
    ensures var events := EventsOf(cfg, calls, |calls|, client);
            HistorySum(LoadedCounts(WorldAfter(cfg, FRESH_WORLD, calls, |calls|).db, client, now))
            == NetInWindow(events[0].time, events, now)
  {
    var events := EventsOf(cfg, calls, |calls|, client);
    StoredCountsFollowEvents(cfg, calls, |calls|, client);
    SlidingWindow(FirstCounts(events[0].time), events, now);
  }

  // ---- counts against rows ----

  /** The swallowed conflicts of the client's commits so far; a clear starts over. */
  function SwallowedIn(cfg: Config, calls: seq<Call>, n: nat, client: ClientId): nat
    requires n <= |calls| && AllWellFormed(calls)
  {
    if n == 0 then 0
    else
      var w, call := WorldAfter(cfg, FRESH_WORLD, calls, n - 1), calls[n - 1];
      if call.client != client || IsDisabled(w.db, client) then SwallowedIn(cfg, calls, n - 1, client)
      else
        match call
        case GuCall(_, _, _, _, _, _) => SwallowedIn(cfg, calls, n - 1, client)
        case CommitCall(_, msg, env) =>
          SwallowedIn(cfg, calls, n - 1, client)
          + (if ReachesLoop(msg, env) then
               SwallowedUpto(ContextOf(w, client, msg, env, cfg.backend), LoopStart(w, 0, 0), msg.entries, env.ticks,
                             |msg.entries|)
             else 0)
        case ClearCall(_, _) => 0
  }

  /** The repeated deletes of the client's commits so far; a clear starts over. */
  function RepeatedIn(cfg: Config, calls: seq<Call>, n: nat, client: ClientId): nat
    requires n <= |calls| && AllWellFormed(calls)
  {
    if n == 0 then 0
    else
      var w, call := WorldAfter(cfg, FRESH_WORLD, calls, n - 1), calls[n - 1];
      if call.client != client || IsDisabled(w.db, client) then RepeatedIn(cfg, calls, n - 1, client)
      else
        match call
        case GuCall(_, _, _, _, _, _) => RepeatedIn(cfg, calls, n - 1, client)
        case CommitCall(_, msg, env) =>
          RepeatedIn(cfg, calls, n - 1, client)
          + (if ReachesLoop(msg, env) then
               RepeatedUpto(ContextOf(w, client, msg, env, cfg.backend), LoopStart(w, 0, 0), msg.entries, env.ticks,
                            |msg.entries|)
             else 0)
        case ClearCall(_, _) => 0
  }

  /** The client's own commits are orderly, and their counts are saved. */
  predicate OrderlyCall(cfg: Config, w: World, call: Call)
    requires WellFormed(call)
  {
    match call
    case GuCall(_, _, _, _, _, _) => true
    case CommitCall(client, msg, env) =>
      ReachesLoop(msg, env) ==>
        && !env.saveFails
        && OrderlyUpto(ContextOf(w, client, msg, env, cfg.backend), LoopStart(w, 0, 0), msg.entries, env.ticks,
                       |msg.entries|)
    case ClearCall(_, _) => true
  }

  /** What a request bootstraps is its client's, and carries server tags. */
  predicate TaggedBatch(call: Call) {
    call.GuCall? ==> forall e :: e in call.batch ==> e.clientId == call.client && e.serverTag.Some?
  }

  predicate OrderlyRunUpto(cfg: Config, calls: seq<Call>, n: nat, client: ClientId)
    requires n <= |calls| && AllWellFormed(calls)
  {
    n == 0 || (OrderlyRunUpto(cfg, calls, n - 1, client) && TaggedBatch(calls[n - 1])
               && (calls[n - 1].client == client ==>
                     OrderlyCall(cfg, WorldAfter(cfg, FRESH_WORLD, calls, n - 1), calls[n - 1])))
  }

  lemma SameForSameCountable(a: DB, b: DB, client: ClientId)
    requires SameFor(client, a, b) && KeyedRows(a) && KeyedRows(b)
    ensures CountableKeys(a, client) == CountableKeys(b, client)
  {
  }

  lemma BootstrapAddsNoCountable(db: DB, call: Call)
    requires call.GuCall? && KeyedRows(db) && Bootstrapped(db, call).Some?
    requires forall e :: e in call.batch ==> e.serverTag.Some?
    ensures CountableKeys(Bootstrapped(db, call).value, call.client) == CountableKeys(db, call.client)
  {
    if WillBootstrap(db, call) { Bootstrap.BatchEffect(db, call.batch); }
  }

  lemma ClearedAgrees(w: World, client: ClientId, now: int)
    requires Calm(w) && !IsDisabled(w.db, client)
    ensures StoredCounts(ServeClear(w, client, now).db, client).items == 0
    ensures CountableKeys(ServeClear(w, client, now).db, client) == {}
  {
  }

  /** By how much a commit leaves the stored count above the rows: the errors of its entries, less what
      its loop counted if that was not saved. */
  function CommitError(cfg: Config, w: World, client: ClientId, msg: CommitMsg, env: CommitEnv): int
    requires ReachesLoop(msg, env)
  {
    ErrorUpto(ContextOf(w, client, msg, env, cfg.backend), LoopStart(w, 0, 0), msg.entries, env.ticks, |msg.entries|)
    - (if env.saveFails then LoopEnd(w, client, msg, env, cfg.backend).newNormal else 0)
  }

  lemma CommitErrs(cfg: Config, w: World, client: ClientId, msg: CommitMsg, env: CommitEnv)
    requires Calm(w) && ReachesLoop(msg, env)
    ensures var after := Committed(w, client, msg, env, cfg.backend).0;
            StoredCounts(after.db, client).items - |CountableKeys(after.db, client)|
            == StoredCounts(w.db, client).items - |CountableKeys(w.db, client)| + CommitError(cfg, w, client, msg, env)
  {
    var c, st0 := ContextOf(w, client, msg, env, cfg.backend), LoopStart(w, 0, 0);
    CommitSaves(w, client, msg, env, cfg.backend);
    LoadedIsCurrent(w.db, client, env.start / 1000);
    LoopErrs(c, st0, msg.entries, env.ticks, |msg.entries|);
    LoopCounts(c, st0, msg.entries, env.ticks, |msg.entries|);
    assert CountableKeys(Committed(w, client, msg, env, cfg.backend).0.db, client)
        == CountableKeys(LoopEnd(w, client, msg, env, cfg.backend).db, client);
  }

  /** The errors of the client's commits so far; a clear starts over. */
  function ErrorIn(cfg: Config, calls: seq<Call>, n: nat, client: ClientId): int
    requires n <= |calls| && AllWellFormed(calls)
  {
    if n == 0 then 0
    else
      var w, call := WorldAfter(cfg, FRESH_WORLD, calls, n - 1), calls[n - 1];
      if call.client != client || IsDisabled(w.db, client) then ErrorIn(cfg, calls, n - 1, client)
      else
        match call
        case GuCall(_, _, _, _, _, _) => ErrorIn(cfg, calls, n - 1, client)
        case CommitCall(_, msg, env) =>
          ErrorIn(cfg, calls, n - 1, client)
          + (if ReachesLoop(msg, env) then CommitError(cfg, w, client, msg, env) else 0)
        case ClearCall(_, _) => 0
  }

  ghost predicate CountErrsBy(db: DB, client: ClientId, error: int) {
    StoredCounts(db, client).items == |CountableKeys(db, client)| + error
  }

  /** The client's own request moves the count and its rows apart by the errors of its commit. */
  lemma OwnCallErrs(cfg: Config, w: World, call: Call, client: ClientId, error: int)
    requires WellFormed(call) && TaggedBatch(call) && call.client == client && !IsDisabled(w.db, client)
    requires Calm(w) && CountErrsBy(w.db, client, error)
    ensures CountErrsBy(Serve(cfg, w, call).world.db, client,
                        match call
                        case GuCall(_, _, _, _, _, _) => error
                        case CommitCall(_, msg, env) =>
                          error + (if ReachesLoop(msg, env) then CommitError(cfg, w, client, msg, env) else 0)
                        case ClearCall(_, _) => 0)
  {
    match call
    case GuCall(_, _, _, _, _, _) =>
      if Bootstrapped(w.db, call).Some? {
        BootstrapKeepsTables(w.db, call);
        BootstrapAddsNoCountable(w.db, call);
      }
    case CommitCall(_, msg, env) =>
      if ReachesLoop(msg, env) { CommitErrs(cfg, w, client, msg, env); }
    case ClearCall(_, now) => ClearedAgrees(w, client, now);
  }

  lemma OneMoreErrs(cfg: Config, calls: seq<Call>, n: nat, client: ClientId)
    requires n < |calls| && AllWellFormed(calls) && TaggedBatch(calls[n])
    requires Calm(WorldAfter(cfg, FRESH_WORLD, calls, n))
    requires CountErrsBy(WorldAfter(cfg, FRESH_WORLD, calls, n).db, client, ErrorIn(cfg, calls, n, client))
    ensures Calm(WorldAfter(cfg, FRESH_WORLD, calls, n + 1))
    ensures CountErrsBy(WorldAfter(cfg, FRESH_WORLD, calls, n + 1).db, client, ErrorIn(cfg, calls, n + 1, client))
  {
    var w, call := WorldAfter(cfg, FRESH_WORLD, calls, n), calls[n];
    assert OwnBatch(call);
    ServeKeepsCalm(cfg, w, call);
    if call.client != client {
      OtherClientsUntouched(cfg, w, call, client);
      SameForSameCountable(w.db, Serve(cfg, w, call).world.db, client);
    } else if !IsDisabled(w.db, client) {
      OwnCallErrs(cfg, w, call, client, ErrorIn(cfg, calls, n, client));
    }
  }

  /** In every run, whatever the clients send and whichever saves fail, the stored normal count is the
      live rows it is about plus the errors so far. So it is exact if and only if these cancel out. */
  lemma {:induction false} CountErrsInEveryRun(cfg: Config, calls: seq<Call>, n: nat, client: ClientId)
    requires n <= |calls| && AllWellFormed(calls) && forall i :: 0 <= i < n ==> TaggedBatch(calls[i])
    ensures var w := WorldAfter(cfg, FRESH_WORLD, calls, n);
            Calm(w)
            && StoredCounts(w.db, client).items == |CountableKeys(w.db, client)| + ErrorIn(cfg, calls, n, client)
    decreases n
  {
    if n > 0 {
      CountErrsInEveryRun(cfg, calls, n - 1, client);
      OneMoreErrs(cfg, calls, n - 1, client);
    } else {
      assert CountableKeys(EMPTY_DB, client) == {};
    }
  }

  lemma OrderlyCommitErrors(cfg: Config, w: World, client: ClientId, msg: CommitMsg, env: CommitEnv)
    requires Calm(w) && ReachesLoop(msg, env) && OrderlyCall(cfg, w, CommitCall(client, msg, env))
    ensures var c, st0, n := ContextOf(w, client, msg, env, cfg.backend), LoopStart(w, 0, 0), |msg.entries|;
            CommitError(cfg, w, client, msg, env)
            == SwallowedUpto(c, st0, msg.entries, env.ticks, n) - RepeatedUpto(c, st0, msg.entries, env.ticks, n)
  {
    OrderlyLoopErrors(ContextOf(w, client, msg, env, cfg.backend), LoopStart(w, 0, 0), msg.entries, env.ticks,
                      |msg.entries|);
  }

  /** With orderly commits of the client the errors are its swallowed conflicts less its repeated
      deletes. */
  lemma {:induction false} OrderlyErrorIn(cfg: Config, calls: seq<Call>, n: nat, client: ClientId)
    requires n <= |calls| && AllWellFormed(calls) && OrderlyRunUpto(cfg, calls, n, client)
    requires forall i :: 0 <= i < n ==> TaggedBatch(calls[i])
    ensures ErrorIn(cfg, calls, n, client) == SwallowedIn(cfg, calls, n, client) - RepeatedIn(cfg, calls, n, client)
    decreases n
  {
    if n > 0 {
      OrderlyErrorIn(cfg, calls, n - 1, client);
      CountErrsInEveryRun(cfg, calls, n - 1, client);
      var w, call := WorldAfter(cfg, FRESH_WORLD, calls, n - 1), calls[n - 1];
      if call.client == client && !IsDisabled(w.db, client) && call.CommitCall?
         && ReachesLoop(call.commit, call.env) {
        OrderlyCommitErrors(cfg, w, client, call.commit, call.env);
      }
    }
  }

  lemma {:induction false} OrderlyRunIsTagged(cfg: Config, calls: seq<Call>, n: nat, client: ClientId, i: nat)
    requires i < n <= |calls| && AllWellFormed(calls) && OrderlyRunUpto(cfg, calls, n, client)
    ensures TaggedBatch(calls[i])
    decreases n
  {
    if i < n - 1 { OrderlyRunIsTagged(cfg, calls, n - 1, client, i); }
  }

  /** In every orderly run the stored normal count is the live rows it is about, plus the insert
      conflicts that were answered without an error, less the repeated deletes. */
  lemma CountsAgreeInEveryRun(cfg: Config, calls: seq<Call>, n: nat, client: ClientId)
    requires n <= |calls| && AllWellFormed(calls) && OrderlyRunUpto(cfg, calls, n, client)
    ensures var w := WorldAfter(cfg, FRESH_WORLD, calls, n);
            Calm(w) && StoredCounts(w.db, client).items
                       == |CountableKeys(w.db, client)|
                         + SwallowedIn(cfg, calls, n, client) - RepeatedIn(cfg, calls, n, client)
  {
    forall i | 0 <= i < n ensures TaggedBatch(calls[i]) {
      OrderlyRunIsTagged(cfg, calls, n, client, i);
    }
    CountErrsInEveryRun(cfg, calls, n, client);
    OrderlyErrorIn(cfg, calls, n, client);
  }

  /** Each store makes only one of the errors, so its count is exact if and only if that one
      did not happen. */
  lemma {:induction false} OnlyOneErrorTerm(cfg: Config, calls: seq<Call>, n: nat, client: ClientId)
    requires n <= |calls| && AllWellFormed(calls)
    ensures cfg.backend.SQLite? ==> RepeatedIn(cfg, calls, n, client) == 0
    ensures cfg.backend.DynamoDB? ==> SwallowedIn(cfg, calls, n, client) == 0
    decreases n
  {
    if n > 0 {
      OnlyOneErrorTerm(cfg, calls, n - 1, client);
      var w, call := WorldAfter(cfg, FRESH_WORLD, calls, n - 1), calls[n - 1];
      if call.CommitCall? && ReachesLoop(call.commit, call.env) {
        OneErrorPerStore(ContextOf(w, client, call.commit, call.env, cfg.backend), LoopStart(w, 0, 0),
                         call.commit.entries, call.env.ticks, |call.commit.entries|);
      }
    }
  }

  lemma CountExactWhen(cfg: Config, calls: seq<Call>, n: nat, client: ClientId)
    requires n <= |calls| && AllWellFormed(calls) && OrderlyRunUpto(cfg, calls, n, client)
    ensures var db := WorldAfter(cfg, FRESH_WORLD, calls, n).db;
            StoredCounts(db, client).items == |CountableKeys(db, client)|
            <==> (if cfg.backend.SQLite? then SwallowedIn(cfg, calls, n, client) == 0
                  else RepeatedIn(cfg, calls, n, client) == 0)
  {
    CountsAgreeInEveryRun(cfg, calls, n, client);
    OnlyOneErrorTerm(cfg, calls, n, client);
  }
}
