/** Requests of one client never reach another client's tables, and a disabled chain stays
    as it is for good. */
module Isolation {
  import opened Basics
  import opened Decimal
  import opened SyncEntities
  import opened Cache
  import opened Tables
  import opened Commit
  import opened Server

  /** The client's rows, tags and counts are the same in both. */
  ghost predicate SameFor(client: ClientId, a: DB, b: DB) {
    && (forall k: Key :: k.client == client ==>
          ((k in a.rows <==> k in b.rows) && (k in a.rows ==> a.rows[k] == b.rows[k]))
          && (k in a.tags <==> k in b.tags))
    && (client in a.counts <==> client in b.counts)
    && (client in a.counts ==> a.counts[client] == b.counts[client])
  }

  lemma WritesStayHome(db: DB, e: Entity, base: int, client: ClientId)
    requires e.clientId != client
    ensures SameFor(client, db, Inserted(db, e)) && SameFor(client, db, Updated(db, e, base))
  {
  }

  lemma EntryStaysHome(c: CommitContext, st: CommitState, pb: PbEntity, t: Tick, client: ClientId)
    requires Addressable(pb) && c.client != client
    ensures SameFor(client, st.db, CommitEntry(c, st, pb, t).db)
  {
    var e := Prepared(c, st, pb, t);
    EntryWrites(c, st, pb, t);
    if e.Some? { WritesStayHome(st.db, e.value, pb.version.value, client); }
  }

  lemma {:induction false} LoopStaysHome(c: CommitContext, st0: CommitState, entries: seq<PbEntity>, ticks: seq<Tick>,
                                         n: nat, client: ClientId)
    requires n <= |entries| && n <= |ticks| && AllAddressable(entries) && c.client != client
    ensures SameFor(client, st0.db, CommitUpto(c, st0, entries, ticks, n).db)
    decreases n
  {
    if n > 0 {
      LoopStaysHome(c, st0, entries, ticks, n - 1, client);
      EntryStaysHome(c, CommitUpto(c, st0, entries, ticks, n - 1), entries[n - 1], ticks[n - 1], client);
    }
  }

  lemma {:induction false} BatchStaysHome(db: DB, es: seq<Entity>, client: ClientId)
    requires ServerEntitiesInserted(db, es).Some? && forall e :: e in es ==> e.clientId != client
    ensures SameFor(client, db, ServerEntitiesInserted(db, es).value)
    decreases |es|
  {
    if es != [] {
      var next := db.(rows := db.rows[KeyOf(es[0]) := es[0]], tags := db.tags + {ServerTagOf(es[0])});
      BatchStaysHome(next, es[1..], client);
    }
  }

  /** The entities a request would bootstrap are its own client's. */
  predicate OwnBatch(call: Call) {
    call.GuCall? ==> forall e :: e in call.batch ==> e.clientId == call.client
  }

  lemma FinishStaysHome(w: World, st: CommitState, client: ClientId, env: CommitEnv, other: ClientId)
    requires client != other && SameFor(other, w.db, st.db)
    ensures SameFor(other, w.db, Finished(w, st, client, env).0.db)
  {
    FinishWrites(w, st, client, env);
  }

  lemma CommitStaysHome(w: World, client: ClientId, msg: CommitMsg, env: CommitEnv, backend: Backend, other: ClientId)
    requires ValidCommit(msg, env) && client != other
    ensures SameFor(other, w.db, Committed(w, client, msg, env, backend).0.db)
  {
    if msg.entries != [] && !env.countsFail {
      var normal := InterimCount(w.kv, client, Normal, false, env.start);
      var history := InterimCount(normal.kv, client, History, false, env.start);
      if normal.value.Some? && history.value.Some? {
        var c, st0 := ContextOf(w, client, msg, env, backend),
                      LoopStart(w.(kv := history.kv), normal.value.value, history.value.value);
        LoopStaysHome(c, st0, msg.entries, env.ticks, |msg.entries|, other);
        FinishStaysHome(w, CommitUpto(c, st0, msg.entries, env.ticks, |msg.entries|), client, env, other);
      }
    }
  }

  /** Whatever a client asks for, the tables of every other client are untouched. */
  lemma OtherClientsUntouched(cfg: Config, w: World, call: Call, other: ClientId)
    requires WellFormed(call) && OwnBatch(call) && call.client != other
    ensures SameFor(other, w.db, Serve(cfg, w, call).world.db)
  {
    match call
    case GuCall(_, msg, _, batch, _, _) =>
      if Bootstrapped(w.db, call).Some? && ServerEntitiesInserted(w.db, batch).Some? {
        BatchStaysHome(w.db, batch, other);
      }
    case CommitCall(client, msg, env) => CommitStaysHome(w, client, msg, env, cfg.backend, other);
    case ClearCall(_, _) =>
  }

  /** Once a chain is disabled, every later run leaves it disabled and its tables as they
      were, whoever sends what. */
  lemma {:induction false} DisabledForGood(cfg: Config, w0: World, calls: seq<Call>, n: nat, client: ClientId)
    requires n <= |calls| && AllWellFormed(calls) && IsDisabled(w0.db, client)
    requires forall i :: 0 <= i < n ==> OwnBatch(calls[i])
    ensures IsDisabled(WorldAfter(cfg, w0, calls, n).db, client)
    ensures SameFor(client, w0.db, WorldAfter(cfg, w0, calls, n).db)
    decreases n
  {
    if n > 0 {
      DisabledForGood(cfg, w0, calls, n - 1, client);
      if calls[n - 1].client != client {
        OtherClientsUntouched(cfg, WorldAfter(cfg, w0, calls, n - 1), calls[n - 1], client);
      }
    }
  }

  /** A clear that is let through disables the chain, leaves of the client's rows only the
      marker, and none of its tags and counts. */
  lemma ClearLeavesOnlyMarker(cfg: Config, w: World, client: ClientId, now: int)
    requires !IsDisabled(w.db, client)
    ensures var db := Serve(cfg, w, ClearCall(client, now)).world.db;
            && IsDisabled(db, client) && client !in db.counts
            && (forall k: Key :: k.client == client ==>
                  k !in db.tags && (k in db.rows <==> k.id == DISABLED_CHAIN_ID))
            && var marker := db.rows[Key(client, DISABLED_CHAIN_ID)];
               && marker.clientId == client && marker.mtime == Some(now) && marker.ctime == Some(now)
               && marker.name == Some("deleted") && marker.dataType.None? && marker.specifics.None?
               && marker.serverTag.None? && marker.clientTag.None? && marker.deleted.None? && marker.version.None?
  {
  }

  /** It forgets the mtimes cached for the types the client had rows of, and nothing else of the cache; the
      interim counters, and what is cached for other clients, stay. */
  lemma ClearForgetsMtimes(cfg: Config, w: World, client: ClientId, now: int)
    requires !IsDisabled(w.db, client)
    ensures var served := Serve(cfg, w, ClearCall(client, now));
            && served.answer == ClearDone
            && (forall k :: k in w.db.rows && w.db.rows[k].clientId == client && w.db.rows[k].dataType.Some? ==>
                  client + "#" + Itoa(w.db.rows[k].dataType.value) !in served.world.kv)
            && (forall key :: key in served.world.kv ==> key in w.kv && served.world.kv[key] == w.kv[key])
            && (forall key :: key in w.kv && key !in served.world.kv ==>
                  exists k :: k in w.db.rows && w.db.rows[k].clientId == client && w.db.rows[k].dataType.Some?
                              && key == client + "#" + Itoa(w.db.rows[k].dataType.value))
  {
    var disabled := Disabled(w.db, client, now);
    var marker := Key(client, DISABLED_CHAIN_ID);
    assert disabled.rows[marker].dataType.None?;
    forall k | k in w.db.rows && w.db.rows[k].clientId == client && w.db.rows[k].dataType.Some?
      ensures TypeMtimeKey(client, w.db.rows[k].dataType.value) in RowTypeKeys(disabled, client)
    {
      assert k != marker && disabled.rows[k] == w.db.rows[k];
    }
    forall key | key in RowTypeKeys(disabled, client)
      ensures exists k :: k in w.db.rows && w.db.rows[k].clientId == client && w.db.rows[k].dataType.Some?
                          && key == client + "#" + Itoa(w.db.rows[k].dataType.value)
    {
      var k :| k in disabled.rows && disabled.rows[k].clientId == client && disabled.rows[k].dataType.Some?
               && key == TypeMtimeKey(client, disabled.rows[k].dataType.value);
      assert k != marker && disabled.rows[k] == w.db.rows[k];
    }
  }

  /** A disabled chain is answered so, whatever it asks, and nothing changes. */
  lemma DisabledIsTurnedAway(cfg: Config, w: World, call: Call)
    requires WellFormed(call)
    ensures var served := Serve(cfg, w, call);
            && (served.answer == DisabledByAdmin <==> Key(call.client, "disabled_chain") in w.db.rows)
            && (served.answer == DisabledByAdmin ==> served.world == w)
  {
  }
}
