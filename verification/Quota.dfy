/** The item quotas: what one commit may add to the counts, and what stays true of them over
    every later moment. */
module Quota {
  import opened Basics
  import Decimal
  import opened SyncEntities
  import opened ItemCounts
  import opened MemoryCache
  import opened Cache
  import opened Tables
  import opened Commit

  // ---- the loop's counters are the cache's ----

  /** The two running counts are the client's interim counters. */
  ghost predicate Tracks(c: CommitContext, st: CommitState) {
    && WellTyped(st.kv) && !st.failed
    && st.newNormal == Pending(st.kv, c.client, Normal)
    && st.newHistory == Pending(st.kv, c.client, History)
  }

  /** The item difference one entry makes: +1 for a counted create, -1 for a delete. */
  function EntryDelta(c: CommitContext, st: CommitState, pb: PbEntity, t: Tick, kind: CountType): int
    requires Addressable(pb)
  {
    var e := Prepared(c, st, pb, t);
    if e.None? || KindOf(e.value) != kind then 0
    else
      match OutcomeOf(c, st, e.value, pb.version.value, t)
      case Refused(_) => 0
      case Applied(_, delta, _) => delta
  }

  function RunningCount(st: CommitState, kind: CountType): int {
    if kind.History? then st.newHistory else st.newNormal
  }

  lemma BumpOwn(kv: KV, client: ClientId, kind: CountType, subtract: bool, now: int)
    requires WellTyped(kv)
    ensures var n, delta := Bumped(kv, client, kind, subtract, now), if subtract then -1 else 1;
            && WellTyped(n.kv) && n.value == Some(Pending(kv, client, kind) + delta)
            && Pending(n.kv, client, Normal) == Pending(kv, client, Normal) + (if kind.Normal? then delta else 0)
            && Pending(n.kv, client, History) == Pending(kv, client, History) + (if kind.History? then delta else 0)
            && (forall c', k :: c' != client ==> Pending(n.kv, c', k) == Pending(kv, c', k))
  {
    BumpMeaning(kv, client, kind, subtract, now);
    assert (client, Normal) != (client, History);
    var n := Bumped(kv, client, kind, subtract, now);
    forall c', k | c' != client ensures Pending(n.kv, c', k) == Pending(kv, c', k) {
      assert (c', k) != (client, kind);
    }
  }

  lemma TracksEither(c: CommitContext, st: CommitState, kind: CountType)
    requires Tracks(c, st)
    ensures Pending(st.kv, c.client, kind) == RunningCount(st, kind)
  {
    match kind
    case Normal =>
    case History =>
  }

  lemma BumpTracked(c: CommitContext, st: CommitState, kind: CountType, subtract: bool, now: int)
    requires Tracks(c, st)
    ensures var n, delta := Bumped(st.kv, c.client, kind, subtract, now), if subtract then -1 else 1;
            && WellTyped(n.kv) && n.value == Some(RunningCount(st, kind) + delta)
            && Pending(n.kv, c.client, Normal) == st.newNormal + (if kind.Normal? then delta else 0)
            && Pending(n.kv, c.client, History) == st.newHistory + (if kind.History? then delta else 0)
            && (forall c', k :: c' != c.client ==> Pending(n.kv, c', k) == Pending(st.kv, c', k))
  {
    TracksEither(c, st, kind);
    BumpOwn(st.kv, c.client, kind, subtract, now);
  }

  lemma CountedTracked(c: CommitContext, st: CommitState, kind: CountType, delta: int, now: int, n: Counted)
    requires Tracks(c, st) && -1 <= delta <= 1
    requires n == if delta == 0 then Counted(st.kv, Some(RunningCount(st, kind)))
                  else Bumped(st.kv, c.client, kind, delta < 0, now)
    ensures && WellTyped(n.kv) && n.value == Some(RunningCount(st, kind) + delta)
            && Pending(n.kv, c.client, Normal) == st.newNormal + (if kind.Normal? then delta else 0)
            && Pending(n.kv, c.client, History) == st.newHistory + (if kind.History? then delta else 0)
            && (forall c', k :: c' != c.client ==> Pending(n.kv, c', k) == Pending(st.kv, c', k))
  {
    if delta == 1 {
      BumpTracked(c, st, kind, false, now);
    } else if delta == -1 {
      BumpTracked(c, st, kind, true, now);
    }
  }

  lemma CountingMeaning(c: CommitContext, st: CommitState, e: Entity, delta: int, t: Tick)
    requires Tracks(c, st) && -1 <= delta <= 1
    ensures var n := CountedIn(c, st, e, delta, t);
            && WellTyped(n.kv) && n.value == Some(RunningCount(st, KindOf(e)) + delta)
            && Pending(n.kv, c.client, Normal) == st.newNormal + (if KindOf(e).Normal? then delta else 0)
            && Pending(n.kv, c.client, History) == st.newHistory + (if KindOf(e).History? then delta else 0)
            && (forall c', k :: c' != c.client ==> Pending(n.kv, c', k) == Pending(st.kv, c', k))
  {
    CountedTracked(c, st, KindOf(e), delta, t.now, CountedIn(c, st, e, delta, t));
  }

  lemma OutcomeDelta(c: CommitContext, st: CommitState, e: Entity, base: int, t: Tick)
    ensures var o := OutcomeOf(c, st, e, base, t);
            o.Applied? ==> (-1 <= o.delta <= 1
                            && (o.delta == 1 ==> !OverTotalQuota(c, st)
                                                 && (KindOf(e).History? ==> WithinHistoryQuota(c, st))))
  {
  }

  lemma SettledCounts(c: CommitContext, st: CommitState, e: Entity, o: Outcome, t: Tick)
    requires Tracks(c, st) && (o.Applied? ==> -1 <= o.delta <= 1)
    ensures var after, delta := Settled(c, st, e, o, t), if o.Applied? then o.delta else 0;
            && Tracks(c, after)
            && after.newNormal == st.newNormal + (if KindOf(e).Normal? then delta else 0)
            && after.newHistory == st.newHistory + (if KindOf(e).History? then delta else 0)
            && (forall c', k :: c' != c.client ==> Pending(after.kv, c', k) == Pending(st.kv, c', k))
  {
    if o.Applied? { CountingMeaning(c, st, e, o.delta, t); }
  }

  /** One entry moves the running counts by its difference and never fails on the cache. */
  lemma EntryCounts(c: CommitContext, st: CommitState, pb: PbEntity, t: Tick)
    requires Addressable(pb) && Tracks(c, st)
    ensures var after := CommitEntry(c, st, pb, t);
            && Tracks(c, after)
            && after.newNormal == st.newNormal + EntryDelta(c, st, pb, t, Normal)
            && after.newHistory == st.newHistory + EntryDelta(c, st, pb, t, History)
            && (forall c', k :: c' != c.client ==> Pending(after.kv, c', k) == Pending(st.kv, c', k))
  {
    var e := Prepared(c, st, pb, t);
    if e.Some? {
      OutcomeDelta(c, st, e.value, pb.version.value, t);
      SettledCounts(c, st, e.value, OutcomeOf(c, st, e.value, pb.version.value, t), t);
    }
  }

  function NetDelta(c: CommitContext, st0: CommitState, entries: seq<PbEntity>, ticks: seq<Tick>, n: nat,
                    kind: CountType): int
    requires n <= |entries| && n <= |ticks| && AllAddressable(entries)
  {
    if n == 0 then 0
    else NetDelta(c, st0, entries, ticks, n - 1, kind)
         + EntryDelta(c, CommitUpto(c, st0, entries, ticks, n - 1), entries[n - 1], ticks[n - 1], kind)
  }

  /** Through the whole loop the interim counters hold what they started with plus the
      counted creates less the reported deletes, and no other client's are touched. */
  lemma {:induction false} LoopCounts(c: CommitContext, st0: CommitState, entries: seq<PbEntity>, ticks: seq<Tick>,
                                      n: nat)
    requires n <= |entries| && n <= |ticks| && AllAddressable(entries) && Tracks(c, st0)
    ensures var st := CommitUpto(c, st0, entries, ticks, n);
            && Tracks(c, st)
            && st.newNormal == st0.newNormal + NetDelta(c, st0, entries, ticks, n, Normal)
            && st.newHistory == st0.newHistory + NetDelta(c, st0, entries, ticks, n, History)
            && (forall c', k :: c' != c.client ==> Pending(st.kv, c', k) == Pending(st0.kv, c', k))
    decreases n
  {
    if n > 0 {
      LoopCounts(c, st0, entries, ticks, n - 1);
      EntryCounts(c, CommitUpto(c, st0, entries, ticks, n - 1), entries[n - 1], ticks[n - 1]);
    }
  }

  // ---- one commit ----

  ghost predicate WithinLimits(c: CommitContext, st0: CommitState, st: CommitState) {
    && c.items + c.history + st.newNormal + st.newHistory
       <= Max(c.items + c.history + st0.newNormal + st0.newHistory, MAX_CLIENT_OBJECT_QUOTA + Boost(c.history))
    && c.history + st.newHistory <= Max(c.history + st0.newHistory, MAX_CLIENT_HISTORY_OBJECT_QUOTA)
  }

  lemma EntryKeepsLimits(c: CommitContext, st0: CommitState, st: CommitState, pb: PbEntity, t: Tick)
    requires Addressable(pb) && Tracks(c, st) && WithinLimits(c, st0, st)
    ensures WithinLimits(c, st0, CommitEntry(c, st, pb, t))
  {
    EntryCounts(c, st, pb, t);
    var e := Prepared(c, st, pb, t);
    if e.Some? { OutcomeDelta(c, st, e.value, pb.version.value, t); }
  }

  lemma StartWithinLimits(c: CommitContext, st0: CommitState)
    ensures WithinLimits(c, st0, st0)
  {
  }

  lemma LoopKeepsLimits(c: CommitContext, st0: CommitState, entries: seq<PbEntity>, ticks: seq<Tick>, n: nat)
    requires n <= |entries| && n <= |ticks| && AllAddressable(entries) && Tracks(c, st0)
    ensures WithinLimits(c, st0, CommitUpto(c, st0, entries, ticks, n))
  {
    StartWithinLimits(c, st0);
    for k := 0 to n
      invariant WithinLimits(c, st0, CommitUpto(c, st0, entries, ticks, k))
    {
      LoopCounts(c, st0, entries, ticks, k);
      EntryKeepsLimits(c, st0, CommitUpto(c, st0, entries, ticks, k), entries[k], ticks[k]);
    }
  }

  /** No other commit of the client is in flight: nothing is waiting to be drained. */
  ghost predicate Quiet(kv: KV, client: ClientId) {
    WellTyped(kv) && Pending(kv, client, Normal) == 0 && Pending(kv, client, History) == 0
  }

  function TotalOf(c: Counts): int {
    c.items + HistorySum(c)
  }

  lemma StampsKeepTyping(kv: KV, client: ClientId, mtimes: map<int, int>, now: int)
    requires WellTyped(kv)
    ensures WellTyped(Stamped(kv, client, mtimes, now))
    ensures forall c, k :: Pending(Stamped(kv, client, mtimes, now), c, k) == Pending(kv, c, k)
  {
    var after := Stamped(kv, client, mtimes, now);
    TypeMtimeKeysDiffer(client);
    forall key | key in after
      ensures Decimal.Atoi(after[key].value).Some? && (IsMtimeKey(key) <==> after[key].expiresAt.Some?)
    {
      if t :| t in mtimes && TypeMtimeKey(client, t) == key {
        Decimal.ItoaRoundTrip(mtimes[t]);
        KeyFamiliesDisjoint(client, t, client, Normal);
      }
    }
    forall c, k ensures Pending(after, c, k) == Pending(kv, c, k) {
      forall t | t in mtimes ensures TypeMtimeKey(client, t) != InterimKey(c, k) {
        KeyFamiliesDisjoint(client, t, c, k);
      }
    }
  }

  /** The loop's final state when the commit starts with nothing waiting to be drained. */
  function LoopEnd(w: World, client: ClientId, msg: CommitMsg, env: CommitEnv, backend: Backend): CommitState
    requires ValidCommit(msg, env)
  {
    CommitUpto(ContextOf(w, client, msg, env, backend), LoopStart(w, 0, 0), msg.entries, env.ticks,
               |msg.entries|)
  }

  /** The commit reaches its loop. */
  predicate ReachesLoop(msg: CommitMsg, env: CommitEnv) {
    ValidCommit(msg, env) && msg.entries != [] && !env.countsFail
  }

  lemma FinishMeaning(w: World, st: CommitState, client: ClientId, env: CommitEnv)
    requires WellTyped(st.kv)
    ensures var r := Finished(w, st, client, env);
            var added := Added(LoadedCounts(w.db, client, env.start / 1000),
                               Pending(st.kv, client, Normal), Pending(st.kv, client, History));
            && r.1.status.Ok? && Quiet(r.0.kv, client)
            && r.0.kv == Stamped(st.kv - {InterimKey(client, Normal)} - {InterimKey(client, History)},
                                 client, st.typeMtime, env.end)
            && r.0.db == (if env.saveFails then st.db else st.db.(counts := st.db.counts[client := added]))
            && (forall c', k :: c' != client ==> Pending(r.0.kv, c', k) == Pending(st.kv, c', k))
  {
    ReadMeaning(st.kv, client, Normal, true, env.end);
    var normal := InterimCount(st.kv, client, Normal, true, env.end);
    ReadMeaning(normal.kv, client, History, true, env.end);
    assert (client, History) != (client, Normal);
    var history := InterimCount(normal.kv, client, History, true, env.end);
    StampsKeepTyping(history.kv, client, st.typeMtime, env.end);
    forall c', k | c' != client
      ensures Pending(Finished(w, st, client, env).0.kv, c', k) == Pending(st.kv, c', k)
    {
      assert (c', k) != (client, Normal) && (c', k) != (client, History);
    }
  }

  /** A commit with no other in flight: the loop runs from zero interim counts, always ends
      without a cache failure, and what it counted is what gets saved. */
  lemma CommitMeaning(w: World, client: ClientId, msg: CommitMsg, env: CommitEnv, backend: Backend)
    requires ReachesLoop(msg, env) && Quiet(w.kv, client)
    ensures var st := LoopEnd(w, client, msg, env, backend);
            && WellTyped(st.kv) && !st.failed
            && Committed(w, client, msg, env, backend) == Finished(w, st, client, env)
            && st.newNormal == Pending(st.kv, client, Normal)
            && st.newHistory == Pending(st.kv, client, History)
  {
    ReadMeaning(w.kv, client, Normal, false, env.start);
    ReadMeaning(w.kv, client, History, false, env.start);
    var c := ContextOf(w, client, msg, env, backend);
    LoopCounts(c, LoopStart(w, 0, 0), msg.entries, env.ticks, |msg.entries|);
  }

  /** Where the loop of a commit starts, with the counts of others in flight. */
  ghost function StartOf(w: World, client: ClientId): CommitState {
    LoopStart(w, Pending(w.kv, client, Normal), Pending(w.kv, client, History))
  }

  ghost function EndOfLoop(w: World, client: ClientId, msg: CommitMsg, env: CommitEnv, backend: Backend): CommitState
    requires ValidCommit(msg, env)
  {
    CommitUpto(ContextOf(w, client, msg, env, backend), StartOf(w, client), msg.entries, env.ticks, |msg.entries|)
  }

  lemma LoopInFlight(w: World, client: ClientId, msg: CommitMsg, env: CommitEnv, backend: Backend)
    requires ReachesLoop(msg, env) && WellTyped(w.kv)
    ensures var c, st := ContextOf(w, client, msg, env, backend), EndOfLoop(w, client, msg, env, backend);
            && Tracks(c, StartOf(w, client)) && Tracks(c, st)
            && Committed(w, client, msg, env, backend) == Finished(w, st, client, env)
  {
    ReadMeaning(w.kv, client, Normal, false, env.start);
    ReadMeaning(w.kv, client, History, false, env.start);
    LoopCounts(ContextOf(w, client, msg, env, backend), StartOf(w, client), msg.entries, env.ticks, |msg.entries|);
  }

  /** With or without others in flight: what the client saves is the loaded counts, those in flight and
      what the loop counted; nothing is lost or counted twice. */
  lemma CommitInFlight(w: World, client: ClientId, msg: CommitMsg, env: CommitEnv, backend: Backend)
    requires ReachesLoop(msg, env) && WellTyped(w.kv)
    ensures var st, r := EndOfLoop(w, client, msg, env, backend), Committed(w, client, msg, env, backend);
            var c, st0, n := ContextOf(w, client, msg, env, backend), StartOf(w, client), |msg.entries|;
            var loaded := LoadedCounts(w.db, client, env.start / 1000);
            && Tracks(c, st0) && r.1.status.Ok? && r.1.replies == st.replies
            && st.newNormal == Pending(w.kv, client, Normal) + NetDelta(c, st0, msg.entries, env.ticks, n, Normal)
            && st.newHistory == Pending(w.kv, client, History) + NetDelta(c, st0, msg.entries, env.ticks, n, History)
            && r.0.db == (if env.saveFails then st.db
                          else st.db.(counts := st.db.counts[client := Added(loaded, st.newNormal, st.newHistory)]))
            && Quiet(r.0.kv, client)
  {
    LoopInFlight(w, client, msg, env, backend);
    LoopCounts(ContextOf(w, client, msg, env, backend), StartOf(w, client), msg.entries, env.ticks, |msg.entries|);
    FinishMeaning(w, EndOfLoop(w, client, msg, env, backend), client, env);
  }

  /** What a commit saves: the loaded counts and what its loop counted. */
  lemma SavedCounts(w: World, client: ClientId, msg: CommitMsg, env: CommitEnv, backend: Backend)
    requires ReachesLoop(msg, env) && Quiet(w.kv, client) && !env.saveFails
    ensures var st := LoopEnd(w, client, msg, env, backend);
            StoredCounts(Committed(w, client, msg, env, backend).0.db, client)
            == Added(LoadedCounts(w.db, client, env.start / 1000), st.newNormal, st.newHistory)
  {
    CommitMeaning(w, client, msg, env, backend);
    FinishMeaning(w, LoopEnd(w, client, msg, env, backend), client, env);
  }

  /** The loop's limits, said of the counts it saves. */
  lemma LimitsOnSums(before: Counts, c: CommitContext, st0: CommitState, st: CommitState)
    requires c.items == before.items && c.history == HistorySum(before) && st0.newNormal == 0 == st0.newHistory
    requires WithinLimits(c, st0, st)
    ensures var after := Added(before, st.newNormal, st.newHistory);
            && TotalOf(after) <= Max(TotalOf(before), MAX_CLIENT_OBJECT_QUOTA + Boost(HistorySum(before)))
            && HistorySum(after) <= Max(HistorySum(before), MAX_CLIENT_HISTORY_OBJECT_QUOTA)
  {
  }

  /** One commit ends with a total of at most the larger of what it started with and the
      boosted quota, and a history count of at most the larger of the start and its quota. */
  lemma CommitWithinQuota(w: World, client: ClientId, msg: CommitMsg, env: CommitEnv, backend: Backend)
    requires ReachesLoop(msg, env) && Quiet(w.kv, client) && !env.saveFails
    ensures var before := LoadedCounts(w.db, client, env.start / 1000);
            var after := StoredCounts(Committed(w, client, msg, env, backend).0.db, client);
            && TotalOf(after) <= Max(TotalOf(before), MAX_CLIENT_OBJECT_QUOTA + Boost(HistorySum(before)))
            && HistorySum(after) <= Max(HistorySum(before), MAX_CLIENT_HISTORY_OBJECT_QUOTA)
  {
    var c, st := ContextOf(w, client, msg, env, backend), LoopEnd(w, client, msg, env, backend);
    SavedCounts(w, client, msg, env, backend);
    LoopKeepsLimits(c, LoopStart(w, 0, 0), msg.entries, env.ticks, |msg.entries|);
    LimitsOnSums(LoadedCounts(w.db, client, env.start / 1000), c, LoopStart(w, 0, 0), st);
  }

  // ---- later moments ----

  predicate NonNegative(c: Counts) {
    c.h1 >= 0 && c.h2 >= 0 && c.h3 >= 0 && c.h4 >= 0
  }

  /** The total stays within the quota, boosted by the history there is. */
  predicate WithinBoostedQuota(c: Counts) {
    TotalOf(c) <= MAX_CLIENT_OBJECT_QUOTA + Boost(HistorySum(c))
  }

  lemma BoostShrinksSlowly(h: int, discarded: int)
    requires discarded >= 0
    ensures Boost(h) - discarded <= Boost(h - discarded) <= Boost(h)
  {
  }

  /** Without negative buckets the history count only falls as they rotate out, and the shrinking
      boost never leaves a total outside the quota. */
  lemma RotationKeepsQuota(c: Counts, now: int)
    requires NonNegative(c)
    ensures WithinBoostedQuota(c) ==> WithinBoostedQuota(Rotated(c, now))
    ensures NonNegative(Rotated(c, now)) && HistorySum(Rotated(c, now)) <= HistorySum(c)
  {
  }

  /** No entry of the commit deletes history. */
  predicate DeletesNoHistory(entries: seq<PbEntity>) {
    forall i :: 0 <= i < |entries| ==>
      (entries[i].specifics.Some? && IsHistoryRelated(entries[i].specifics.value.variant) ==>
         entries[i].deleted != Some(true))
  }

  lemma EntryGrowsHistory(c: CommitContext, st: CommitState, pb: PbEntity, t: Tick)
    requires Addressable(pb)
    requires pb.specifics.Some? && IsHistoryRelated(pb.specifics.value.variant) ==> pb.deleted != Some(true)
    ensures EntryDelta(c, st, pb, t, History) >= 0
  {
  }

  lemma {:induction false} HistoryOnlyGrows(c: CommitContext, st0: CommitState, entries: seq<PbEntity>,
                                            ticks: seq<Tick>, n: nat)
    requires n <= |entries| && n <= |ticks| && AllAddressable(entries) && DeletesNoHistory(entries)
    ensures NetDelta(c, st0, entries, ticks, n, History) >= 0
    decreases n
  {
    if n > 0 {
      HistoryOnlyGrows(c, st0, entries, ticks, n - 1);
      EntryGrowsHistory(c, CommitUpto(c, st0, entries, ticks, n - 1), entries[n - 1], ticks[n - 1]);
    }
  }

  lemma LoopCountsFromZero(w: World, client: ClientId, msg: CommitMsg, env: CommitEnv, backend: Backend)
    requires ReachesLoop(msg, env) && Quiet(w.kv, client)
    ensures LoopEnd(w, client, msg, env, backend).newHistory
            == NetDelta(ContextOf(w, client, msg, env, backend), LoopStart(w, 0, 0), msg.entries, env.ticks,
                        |msg.entries|, History)
  {
    LoopCounts(ContextOf(w, client, msg, env, backend), LoopStart(w, 0, 0), msg.entries, env.ticks, |msg.entries|);
  }

  /** A commit that deletes no history keeps a total within the boosted quota there. */
  lemma CommitKeepsBoostedQuota(w: World, client: ClientId, msg: CommitMsg, env: CommitEnv, backend: Backend)
    requires ReachesLoop(msg, env) && Quiet(w.kv, client) && !env.saveFails && DeletesNoHistory(msg.entries)
    requires NonNegative(LoadedCounts(w.db, client, env.start / 1000))
    ensures var before := LoadedCounts(w.db, client, env.start / 1000);
            var after := StoredCounts(Committed(w, client, msg, env, backend).0.db, client);
            && NonNegative(after) && HistorySum(before) <= HistorySum(after)
            && (WithinBoostedQuota(before) ==> WithinBoostedQuota(after))
            && after.version == before.version
  {
    var c, st0 := ContextOf(w, client, msg, env, backend), LoopStart(w, 0, 0);
    CommitWithinQuota(w, client, msg, env, backend);
    SavedCounts(w, client, msg, env, backend);
    HistoryOnlyGrows(c, st0, msg.entries, env.ticks, |msg.entries|);
    LoopCountsFromZero(w, client, msg, env, backend);
    var before := LoadedCounts(w.db, client, env.start / 1000);
    var after := StoredCounts(Committed(w, client, msg, env, backend).0.db, client);
    BoostShrinksSlowly(HistorySum(after), HistorySum(after) - HistorySum(before));
  }
}
