/** Requests as transactions: whatever a sequential run of the server does to the tables is a
    run of the store's atomic transactions, so what holds of all of those holds of it. */
module Transactions {
  import opened Basics
  import opened SyncEntities
  import opened Cache
  import opened Tables
  import opened Commit
  import opened Server

  lemma OneMoreTxn(past: seq<Txn>, t: Txn)
    ensures After(past + [t]) == Step(After(past), t)
  {
  }

  lemma MoreTxns(past: seq<Txn>, before: seq<Txn>, last: seq<Txn>)
    ensures After(past + (before + last)) == After((past + before) + last)
  {
    assert past + (before + last) == (past + before) + last;
  }

  lemma EntryIsTxn(c: CommitContext, st: CommitState, pb: PbEntity, t: Tick, past: seq<Txn>) returns (more: seq<Txn>)
    requires Addressable(pb) && After(past) == st.db
    ensures |more| <= 1 && After(past + more) == CommitEntry(c, st, pb, t).db
    ensures forall x :: x in more ==>
              var e := Prepared(c, st, pb, t);
              e.Some? && (x == Insert(e.value) || x == Update(e.value, pb.version.value))
  {
    EntryWrites(c, st, pb, t);
    var e, db := Prepared(c, st, pb, t), CommitEntry(c, st, pb, t).db;
    if db == st.db {
      more := [];
      assert past + [] == past;
    } else if db == Inserted(st.db, e.value) {
      more := [Insert(e.value)];
      OneMoreTxn(past, Insert(e.value));
    } else {
      more := [Update(e.value, pb.version.value)];
      OneMoreTxn(past, Update(e.value, pb.version.value));
    }
  }

  /** A commit's loop is a run of at most one insert or update per entry. */
  lemma {:induction false} LoopIsTxns(c: CommitContext, st0: CommitState, entries: seq<PbEntity>, ticks: seq<Tick>,
                                      n: nat, past: seq<Txn>)
    returns (more: seq<Txn>)
    requires n <= |entries| && n <= |ticks| && AllAddressable(entries) && After(past) == st0.db
    ensures |more| <= n && After(past + more) == CommitUpto(c, st0, entries, ticks, n).db
    ensures forall x :: x in more ==> x.Insert? || x.Update?
    decreases n
  {
    if n == 0 {
      more := [];
      assert past + [] == past;
    } else {
      var before := LoopIsTxns(c, st0, entries, ticks, n - 1, past);
      var last := EntryIsTxn(c, CommitUpto(c, st0, entries, ticks, n - 1), entries[n - 1], ticks[n - 1], past + before);
      more := before + last;
      MoreTxns(past, before, last);
    }
  }

  /** The tables a commit leaves when its loop ended in `st`. */
  function EndTables(w: World, st: CommitState, client: ClientId, env: CommitEnv): DB {
    if st.failed then st.db else Finished(w, st, client, env).0.db
  }

  lemma SaveIsTxn(start: DB, end: DB, client: ClientId, past: seq<Txn>) returns (more: seq<Txn>)
    requires After(past) == start
    requires end == start
            || (client in end.counts && end == start.(counts := start.counts[client := end.counts[client]]))
    ensures After(past + more) == end
  {
    if end == start {
      more := [];
      assert past + [] == past;
    } else {
      more := [SaveCounts(client, end.counts[client])];
      OneMoreTxn(past, SaveCounts(client, end.counts[client]));
    }
  }

  lemma EndIsTxns(w: World, st: CommitState, client: ClientId, env: CommitEnv, past: seq<Txn>) returns (more: seq<Txn>)
    requires After(past) == st.db
    ensures After(past + more) == EndTables(w, st, client, env)
  {
    FinishWrites(w, st, client, env);
    more := SaveIsTxn(st.db, EndTables(w, st, client, env), client, past);
  }

  lemma Appended(past: seq<Txn>, a: seq<Txn>, b: seq<Txn>)
    ensures past + (a + b) == (past + a) + b
  {
  }

  lemma CommittedIsTxns(w: World, read: World, client: ClientId, msg: CommitMsg, env: CommitEnv, backend: Backend,
                        newNormal: int, newHistory: int, past: seq<Txn>) returns (more: seq<Txn>)
    requires ValidCommit(msg, env) && After(past) == w.db == read.db
    ensures var st := CommitUpto(ContextOf(w, client, msg, env, backend), LoopStart(read, newNormal, newHistory),
                                 msg.entries, env.ticks, |msg.entries|);
            After(past + more) == EndTables(w, st, client, env)
  {
    var c, st0 := ContextOf(w, client, msg, env, backend), LoopStart(read, newNormal, newHistory);
    var loop := LoopIsTxns(c, st0, msg.entries, env.ticks, |msg.entries|, past);
    var st := CommitUpto(c, st0, msg.entries, env.ticks, |msg.entries|);
    assert After(past + loop) == st.db;
    var end := EndIsTxns(w, st, client, env, past + loop);
    Appended(past, loop, end);
    more := loop + end;
  }

  lemma CommitIsTxns(w: World, client: ClientId, msg: CommitMsg, env: CommitEnv, backend: Backend, past: seq<Txn>)
    returns (more: seq<Txn>)
    requires ValidCommit(msg, env) && After(past) == w.db
    ensures After(past + more) == Committed(w, client, msg, env, backend).0.db
  {
    var normal := InterimCount(w.kv, client, Normal, false, env.start);
    var history := InterimCount(normal.kv, client, History, false, env.start);
    if msg.entries == [] || env.countsFail || normal.value.None? || history.value.None? {
      more := [];
      assert past + [] == past;
    } else {
      more := CommittedIsTxns(w, World(w.db, history.kv), client, msg, env, backend,
                              normal.value.value, history.value.value, past);
    }
  }

  lemma ServeIsTxns(cfg: Config, w: World, call: Call, past: seq<Txn>) returns (more: seq<Txn>)
    requires WellFormed(call) && After(past) == w.db
    ensures After(past + more) == Serve(cfg, w, call).world.db
  {
    more := [];
    assert past + [] == past;
    if !IsDisabled(w.db, call.client) {
      match call
      case GuCall(_, msg, throttled, batch, _, _) =>
        if !(msg.origin.NewClient? && throttled) && WillBootstrap(w.db, call) {
          more := [InsertServerEntities(batch)];
          OneMoreTxn(past, InsertServerEntities(batch));
        }
      case CommitCall(client, msg, env) => more := CommitIsTxns(w, client, msg, env, cfg.backend, past);
      case ClearCall(client, now) =>
        more := [Disable(client, now), Clear(client)];
        OneMoreTxn(past, Disable(client, now));
        OneMoreTxn(past + [Disable(client, now)], Clear(client));
        assert past + more == (past + [Disable(client, now)]) + [Clear(client)];
    }
  }

  /** The tables of every run of the server from nothing stored are those of a run of
      transactions. */
  lemma {:induction false} RunIsTxns(cfg: Config, calls: seq<Call>, n: nat) returns (txns: seq<Txn>)
    requires n <= |calls| && AllWellFormed(calls)
    ensures After(txns) == WorldAfter(cfg, FRESH_WORLD, calls, n).db
    decreases n
  {
    if n == 0 {
      txns := [];
    } else {
      var before := RunIsTxns(cfg, calls, n - 1);
      var more := ServeIsTxns(cfg, WorldAfter(cfg, FRESH_WORLD, calls, n - 1), calls[n - 1], before);
      txns := before + more;
    }
  }
}
