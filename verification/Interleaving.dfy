/** Commits of many requests in flight at once. Each store transaction and each cache access
    is atomic, and any order of them may happen. Between writing a row and counting it a
    handler owes the cache one increment or decrement. */
module Interleaving {
  import opened Basics
  import opened SyncEntities
  import opened MemoryCache
  import opened Cache
  import opened Tables
  import opened Commit
  import opened Quota
  import opened Agreement

  /** What a handler still has to count. */
  datatype Owed = Owed(client: ClientId, kind: CountType, delta: int)

  datatype Sys = Sys(db: DB, kv: KV, owed: seq<Option<Owed>>)

  /** One atomic step of handler p. A handler counts what it owes before it writes again. */
  datatype Action =
    | Create(p: nat, e: Entity, fails: bool)
    | Change(p: nat, e: Entity, base: int, fails: bool)
    | Count(p: nat, now: int)
    | CacheAccess(access: TimedAccess)

  predicate MayWrite(s: Sys, p: nat) {
    p < |s.owed| && s.owed[p].None?
  }

  function Owing(s: Sys, p: nat, o: Owed): seq<Option<Owed>>
    requires p < |s.owed|
  {
    s.owed[p := Some(o)]
  }

  /** An action that is not possible changes nothing. Counting accesses belong to Count. */
  function Act(s: Sys, a: Action, backend: Backend): Sys {
    match a
    case Create(p, e, fails) =>
      if !MayWrite(s, p) || InsertAnswer(s.db, e, fails, backend).1 then s
      else s.(db := Inserted(s.db, e), owed := Owing(s, p, Owed(e.clientId, KindOf(e), 1)))
    case Change(p, e, base, fails) =>
      if !MayWrite(s, p) || fails || !UpdateAccepted(s.db, e, base) then s
      else if ReportsDelete(s.db, e, backend) then
        s.(db := Updated(s.db, e, base), owed := Owing(s, p, Owed(e.clientId, KindOf(e), -1)))
      else s.(db := Updated(s.db, e, base))
    case Count(p, now) =>
      if p >= |s.owed| || s.owed[p].None? then s
      else
        var o := s.owed[p].value;
        s.(kv := Bumped(s.kv, o.client, o.kind, o.delta < 0, now).kv, owed := s.owed[p := None])
    case CacheAccess(access) => if access.access.Bump? then s else s.(kv := AccessStep(s.kv, access))
  }

  function Run(s: Sys, actions: seq<Action>, backend: Backend): Sys {
    if actions == [] then s
    else Act(Run(s, actions[..|actions| - 1], backend), actions[|actions| - 1], backend)
  }

  // ---- books ----

  /** What all handlers together still owe one counter. */
  function TotalOwed(owed: seq<Option<Owed>>, client: ClientId, kind: CountType): int {
    if owed == [] then 0
    else
      var last := owed[|owed| - 1];
      TotalOwed(owed[..|owed| - 1], client, kind)
      + (if last.Some? && last.value.client == client && last.value.kind == kind then last.value.delta else 0)
  }

  function DrainedNow(s: Sys, a: Action, client: ClientId, kind: CountType): int {
    if a.CacheAccess? && a.access.access == Drain(client, kind) then Pending(s.kv, client, kind) else 0
  }

  /** The sum of what the drains of a run returned. */
  function DrainedIn(s: Sys, actions: seq<Action>, backend: Backend, client: ClientId, kind: CountType): int {
    if actions == [] then 0
    else
      var before := actions[..|actions| - 1];
      DrainedIn(s, before, backend, client, kind)
      + DrainedNow(Run(s, before, backend), actions[|actions| - 1], client, kind)
  }

  /** What the counter should show after the action: a create that was not refused adds one,
      a reported delete takes one away. */
  function Booked(s: Sys, a: Action, backend: Backend, client: ClientId, kind: CountType): int {
    match a
    case Create(p, e, fails) =>
      if MayWrite(s, p) && !InsertAnswer(s.db, e, fails, backend).1
         && e.clientId == client && KindOf(e) == kind then 1 else 0
    case Change(p, e, base, fails) =>
      if MayWrite(s, p) && !fails && UpdateAccepted(s.db, e, base) && ReportsDelete(s.db, e, backend)
         && e.clientId == client && KindOf(e) == kind then -1 else 0
    case _ => 0
  }

  function BookedIn(s: Sys, actions: seq<Action>, backend: Backend, client: ClientId, kind: CountType): int {
    if actions == [] then 0
    else
      var before := actions[..|actions| - 1];
      BookedIn(s, before, backend, client, kind)
      + Booked(Run(s, before, backend), actions[|actions| - 1], backend, client, kind)
  }

  ghost predicate Consistent(s: Sys) {
    && KeyedRows(s.db) && WellTyped(s.kv)
    && (forall p :: 0 <= p < |s.owed| && s.owed[p].Some? ==> s.owed[p].value.delta == 1 || s.owed[p].value.delta == -1)
  }

  function OwedAt(o: Option<Owed>, client: ClientId, kind: CountType): int {
    if o.Some? && o.value.client == client && o.value.kind == kind then o.value.delta else 0
  }

  lemma {:induction false} OwedUpdate(owed: seq<Option<Owed>>, p: nat, o: Option<Owed>, client: ClientId,
                                      kind: CountType)
    requires p < |owed|
    ensures TotalOwed(owed[p := o], client, kind)
            == TotalOwed(owed, client, kind) - OwedAt(owed[p], client, kind) + OwedAt(o, client, kind)
    decreases |owed|
  {
    var n := |owed| - 1;
    if p < n {
      assert owed[p := o][..n] == owed[..n][p := o];
      OwedUpdate(owed[..n], p, o, client, kind);
    } else {
      assert owed[p := o][..n] == owed[..n];
    }
  }

  lemma BumpShifts(kv: KV, o: Owed, now: int, client: ClientId, kind: CountType)
    requires WellTyped(kv) && (o.delta == 1 || o.delta == -1)
    ensures var b := Bumped(kv, o.client, o.kind, o.delta < 0, now);
            && WellTyped(b.kv)
            && Pending(b.kv, client, kind) == Pending(kv, client, kind) + OwedAt(Some(o), client, kind)
  {
    BumpMeaning(kv, o.client, o.kind, o.delta < 0, now);
    if (client, kind) != (o.client, o.kind) {
      assert Pending(Bumped(kv, o.client, o.kind, o.delta < 0, now).kv, client, kind) == Pending(kv, client, kind);
    }
  }

  lemma CountSettlesDebt(s: Sys, p: nat, now: int, backend: Backend, client: ClientId, kind: CountType)
    requires Consistent(s) && p < |s.owed| && s.owed[p].Some?
    ensures var s' := Act(s, Count(p, now), backend);
            && Consistent(s')
            && Pending(s'.kv, client, kind) + TotalOwed(s'.owed, client, kind)
               == Pending(s.kv, client, kind) + TotalOwed(s.owed, client, kind)
  {
    BumpShifts(s.kv, s.owed[p].value, now, client, kind);
    OwedUpdate(s.owed, p, None, client, kind);
  }

  lemma AccessBalances(s: Sys, a: TimedAccess, backend: Backend, client: ClientId, kind: CountType)
    requires Consistent(s)
    ensures var s' := Act(s, CacheAccess(a), backend);
            && Consistent(s')
            && Pending(s'.kv, client, kind) + DrainedNow(s, CacheAccess(a), client, kind) == Pending(s.kv, client, kind)
  {
    AccessKeepsTyping(s.kv, a);
    AccessPending(s.kv, a, client, kind);
  }

  lemma CreateBooks(s: Sys, p: nat, e: Entity, fails: bool, backend: Backend, client: ClientId, kind: CountType)
    requires Consistent(s)
    ensures var a := Create(p, e, fails);
            var s' := Act(s, a, backend);
            && Consistent(s') && s'.kv == s.kv
            && TotalOwed(s'.owed, client, kind) == TotalOwed(s.owed, client, kind) + Booked(s, a, backend, client, kind)
  {
    if MayWrite(s, p) { OwedUpdate(s.owed, p, Some(Owed(e.clientId, KindOf(e), 1)), client, kind); }
  }

  lemma ChangeKeepsConsistent(s: Sys, p: nat, e: Entity, base: int, fails: bool, backend: Backend)
    requires Consistent(s)
    ensures Consistent(Act(s, Change(p, e, base, fails), backend))
  {
    StepKeyed(s.db, Update(e, base));
  }

  lemma ChangeBooks(s: Sys, p: nat, e: Entity, base: int, fails: bool, backend: Backend, client: ClientId,
                    kind: CountType)
    ensures var a := Change(p, e, base, fails);
            var s' := Act(s, a, backend);
            && s'.kv == s.kv
            && TotalOwed(s'.owed, client, kind) == TotalOwed(s.owed, client, kind) + Booked(s, a, backend, client, kind)
  {
    if MayWrite(s, p) { OwedUpdate(s.owed, p, Some(Owed(e.clientId, KindOf(e), -1)), client, kind); }
  }

  /** One action keeps the books: drained, pending and owed together change by what is booked. */
  lemma ActBalances(s: Sys, a: Action, backend: Backend, client: ClientId, kind: CountType)
    requires Consistent(s)
    ensures var s' := Act(s, a, backend);
            && Consistent(s')
            && Pending(s'.kv, client, kind) + TotalOwed(s'.owed, client, kind) + DrainedNow(s, a, client, kind)
               == Pending(s.kv, client, kind) + TotalOwed(s.owed, client, kind) + Booked(s, a, backend, client, kind)
  {
    match a
    case Create(p, e, fails) => CreateBooks(s, p, e, fails, backend, client, kind);
    case Change(p, e, base, fails) =>
      ChangeKeepsConsistent(s, p, e, base, fails, backend);
      ChangeBooks(s, p, e, base, fails, backend, client, kind);
    case Count(p, now) =>
      if p < |s.owed| && s.owed[p].Some? { CountSettlesDebt(s, p, now, backend, client, kind); }
    case CacheAccess(access) => AccessBalances(s, access, backend, client, kind);
  }

  lemma {:induction false} BooksBalance(s: Sys, actions: seq<Action>, backend: Backend, client: ClientId,
                                        kind: CountType)
    requires Consistent(s)
    ensures var end := Run(s, actions, backend);
            && Consistent(end)
            && DrainedIn(s, actions, backend, client, kind) + Pending(end.kv, client, kind)
              + TotalOwed(end.owed, client, kind)
               == Pending(s.kv, client, kind) + TotalOwed(s.owed, client, kind)
                 + BookedIn(s, actions, backend, client, kind)
  {
    if actions != [] {
      var before := actions[..|actions| - 1];
      BooksBalance(s, before, backend, client, kind);
      ActBalances(Run(s, before, backend), actions[|actions| - 1], backend, client, kind);
    }
  }

  // ---- books against rows ----

  /** An orderly action, as for sequential commits. */
  predicate OrderlyAction(s: Sys, a: Action, backend: Backend) {
    match a
    case Create(p, e, fails) => !IsDeleted(e) && e.serverTag.None? && e.dataType.Some?
    case Change(p, e, base, fails) =>
      UpdateAccepted(s.db, e, base) ==>
        var row := s.db.rows[KeyOf(e)];
        && e.dataType.Some? && e.dataType == row.dataType
        && (IsDeleted(row) ==> e.deleted.None? || e.deleted.value)
        && (ReportsDelete(s.db, e, backend) ==> row.serverTag.None?)
    case _ => true
  }

  /** A conflict that was answered without an error. */
  function SwallowedNow(s: Sys, a: Action, backend: Backend, client: ClientId): nat {
    if a.Create? && MayWrite(s, a.p) && !InsertAnswer(s.db, a.e, a.fails, backend).1
       && InsertConflicts(s.db, a.e) && a.e.clientId == client && KindOf(a.e).Normal? then 1 else 0
  }

  /** A reported delete of a row that was deleted already. */
  function RepeatedNow(s: Sys, a: Action, backend: Backend, client: ClientId): nat {
    if a.Change? && MayWrite(s, a.p) && !a.fails && UpdateAccepted(s.db, a.e, a.base)
       && RepeatsDelete(s.db, a.e, backend) && a.e.clientId == client && KindOf(a.e).Normal? then 1 else 0
  }

  function RepeatedDuring(s: Sys, actions: seq<Action>, backend: Backend, client: ClientId): nat {
    if actions == [] then 0
    else
      var before := actions[..|actions| - 1];
      RepeatedDuring(s, before, backend, client)
      + RepeatedNow(Run(s, before, backend), actions[|actions| - 1], backend, client)
  }

  function SwallowedDuring(s: Sys, actions: seq<Action>, backend: Backend, client: ClientId): nat {
    if actions == [] then 0
    else
      var before := actions[..|actions| - 1];
      SwallowedDuring(s, before, backend, client)
      + SwallowedNow(Run(s, before, backend), actions[|actions| - 1], backend, client)
  }

  predicate OrderlyRun(s: Sys, actions: seq<Action>, backend: Backend) {
    actions == [] ||
    (var before := actions[..|actions| - 1];
     OrderlyRun(s, before, backend) && OrderlyAction(Run(s, before, backend), actions[|actions| - 1], backend))
  }

  lemma OtherClientsRows(db: DB, after: DB, e: Entity, client: ClientId)
    requires KeyedRows(db) && e.clientId != client && KeyedRows(after)
    requires KeyOf(e) in after.rows && after.rows == db.rows[KeyOf(e) := after.rows[KeyOf(e)]]
    ensures CountableKeys(after, client) == CountableKeys(db, client)
  {
  }

  /** By how much an action leaves the books above the client's rows. */
  function ErrorNow(s: Sys, a: Action, backend: Backend, client: ClientId): int {
    match a
    case Create(p, e, fails) =>
      if MayWrite(s, p) && !InsertAnswer(s.db, e, fails, backend).1 && e.clientId == client then CreateError(s.db, e)
      else 0
    case Change(p, e, base, fails) =>
      if MayWrite(s, p) && !fails && UpdateAccepted(s.db, e, base) && e.clientId == client then
        UpdateError(s.db, e, backend)
      else 0
    case _ => 0
  }

  function ErrorDuring(s: Sys, actions: seq<Action>, backend: Backend, client: ClientId): int {
    if actions == [] then 0
    else
      var before := actions[..|actions| - 1];
      ErrorDuring(s, before, backend, client)
      + ErrorNow(Run(s, before, backend), actions[|actions| - 1], backend, client)
  }

  lemma ActCountsRows(s: Sys, a: Action, backend: Backend, client: ClientId)
    requires Consistent(s)
    ensures |CountableKeys(Act(s, a, backend).db, client)| + ErrorNow(s, a, backend, client)
            == |CountableKeys(s.db, client)| + Booked(s, a, backend, client, Normal)
  {
    var s' := Act(s, a, backend);
    if a.Create? && s'.db != s.db {
      ActBalances(s, a, backend, client, Normal);
      if a.e.clientId == client { InsertCountable(s.db, a.e); } else { OtherClientsRows(s.db, s'.db, a.e, client); }
    } else if a.Change? && MayWrite(s, a.p) && !a.fails && UpdateAccepted(s.db, a.e, a.base) {
      ActBalances(s, a, backend, client, Normal);
      if a.e.clientId == client {
        UpdateCountable(s.db, a.e, a.base, backend);
      } else {
        OtherClientsRows(s.db, s'.db, a.e, client);
      }
    }
  }

  lemma {:induction false} BooksCountRows(s: Sys, actions: seq<Action>, backend: Backend, client: ClientId)
    requires Consistent(s)
    ensures |CountableKeys(Run(s, actions, backend).db, client)| + ErrorDuring(s, actions, backend, client)
            == |CountableKeys(s.db, client)| + BookedIn(s, actions, backend, client, Normal)
  {
    if actions != [] {
      var before := actions[..|actions| - 1];
      BooksCountRows(s, before, backend, client);
      BooksBalance(s, before, backend, client, Normal);
      ActCountsRows(Run(s, before, backend), actions[|actions| - 1], backend, client);
    }
  }

  lemma OrderlyActionErrors(s: Sys, a: Action, backend: Backend, client: ClientId)
    requires Consistent(s) && OrderlyAction(s, a, backend)
    ensures ErrorNow(s, a, backend, client) == SwallowedNow(s, a, backend, client) - RepeatedNow(s, a, backend, client)
  {
    if a.Change? && UpdateAccepted(s.db, a.e, a.base) { OrderlyUpdateErrors(s.db, a.e, backend); }
  }

  /** In an orderly run the only errors are swallowed conflicts and repeated deletes. */
  lemma {:induction false} OrderlyRunErrors(s: Sys, actions: seq<Action>, backend: Backend, client: ClientId)
    requires Consistent(s) && OrderlyRun(s, actions, backend)
    ensures ErrorDuring(s, actions, backend, client)
            == SwallowedDuring(s, actions, backend, client) - RepeatedDuring(s, actions, backend, client)
  {
    if actions != [] {
      var before := actions[..|actions| - 1];
      OrderlyRunErrors(s, before, backend, client);
      BooksBalance(s, before, backend, client, Normal);
      OrderlyActionErrors(Run(s, before, backend), actions[|actions| - 1], backend, client);
    }
  }

  lemma {:induction false} NothingOwed(owed: seq<Option<Owed>>, client: ClientId, kind: CountType)
    requires forall p :: 0 <= p < |owed| ==> owed[p].None?
    ensures TotalOwed(owed, client, kind) == 0
    decreases |owed|
  {
    if owed != [] { NothingOwed(owed[..|owed| - 1], client, kind); }
  }

  /** However the commits of all clients interleave from nothing stored, and whatever they send: what
      was drained, what is pending and what is owed add up to the client's live rows and the errors.
      No count is lost and none is drained twice. With orderly clients the errors are the swallowed
      conflicts less the repeated deletes. */
  lemma EveryRowCountedOnce(handlers: nat, actions: seq<Action>, backend: Backend, client: ClientId)
    ensures var start := Sys(EMPTY_DB, map[], seq(handlers, _ => None));
            var end := Run(start, actions, backend);
            DrainedIn(start, actions, backend, client, Normal)
            + Pending(end.kv, client, Normal) + TotalOwed(end.owed, client, Normal)
            == |CountableKeys(end.db, client)| + ErrorDuring(start, actions, backend, client)
    ensures var start := Sys(EMPTY_DB, map[], seq(handlers, _ => None));
            OrderlyRun(start, actions, backend) ==>
              ErrorDuring(start, actions, backend, client)
              == SwallowedDuring(start, actions, backend, client) - RepeatedDuring(start, actions, backend, client)
  {
    var start := Sys(EMPTY_DB, map[], seq(handlers, _ => None));
    BooksBalance(start, actions, backend, client, Normal);
    BooksCountRows(start, actions, backend, client);
    NothingOwed(start.owed, client, Normal);
    if OrderlyRun(start, actions, backend) { OrderlyRunErrors(start, actions, backend, client); }
    assert CountableKeys(EMPTY_DB, client) == {};
  }

  // ---- a commit as actions ----

  lemma {:induction false} RunConcat(s: Sys, a: seq<Action>, b: seq<Action>, backend: Backend, client: ClientId,
                                     kind: CountType)
    ensures Run(s, a + b, backend) == Run(Run(s, a, backend), b, backend)
    ensures DrainedIn(s, a + b, backend, client, kind)
            == DrainedIn(s, a, backend, client, kind) + DrainedIn(Run(s, a, backend), b, backend, client, kind)
    decreases |b|
  {
    if b == [] {
      assert a + b == a;
    } else {
      assert (a + b)[..|a + b| - 1] == a + b[..|b| - 1];
      RunConcat(s, a, b[..|b| - 1], backend, client, kind);
    }
  }

  lemma OneAction(s: Sys, a: Action, backend: Backend)
    ensures Run(s, [a], backend) == Act(s, a, backend)
  {
    assert [a][..0] == [];
    assert Run(s, [], backend) == s;
  }

  lemma TwoActions(s: Sys, a: Action, b: Action, backend: Backend)
    ensures Run(s, [a, b], backend) == Act(Act(s, a, backend), b, backend)
  {
    assert [a, b][..1] == [a];
    OneAction(s, a, backend);
  }

  lemma OwesNothingAgain(owed: seq<Option<Owed>>, p: nat, o: Owed)
    requires p < |owed| && owed[p].None?
    ensures owed[p := Some(o)][p := None] == owed
  {
  }

  lemma CreateAndCount(s: Sys, p: nat, e: Entity, now: int, backend: Backend)
    requires MayWrite(s, p) && !InsertAnswer(s.db, e, false, backend).1
    ensures Run(s, [Create(p, e, false), Count(p, now)], backend)
            == s.(db := Inserted(s.db, e), kv := Bumped(s.kv, e.clientId, KindOf(e), false, now).kv)
  {
    TwoActions(s, Create(p, e, false), Count(p, now), backend);
    OwesNothingAgain(s.owed, p, Owed(e.clientId, KindOf(e), 1));
  }

  lemma ChangeAndCount(s: Sys, p: nat, e: Entity, base: int, now: int, backend: Backend)
    requires MayWrite(s, p) && UpdateAccepted(s.db, e, base) && ReportsDelete(s.db, e, backend)
    ensures Run(s, [Change(p, e, base, false), Count(p, now)], backend)
            == s.(db := Updated(s.db, e, base), kv := Bumped(s.kv, e.clientId, KindOf(e), true, now).kv)
  {
    TwoActions(s, Change(p, e, base, false), Count(p, now), backend);
    OwesNothingAgain(s.owed, p, Owed(e.clientId, KindOf(e), -1));
  }

  lemma OutcomeIsActions(s: Sys, p: nat, c: CommitContext, st: CommitState, e: Entity, base: int, t: Tick)
    returns (actions: seq<Action>)
    requires MayWrite(s, p) && s.db == st.db && s.kv == st.kv && e.clientId == c.client
    ensures var o := OutcomeOf(c, st, e, base, t);
            Run(s, actions, c.backend)
            == if o.Refused? then s else s.(db := o.db, kv := CountedIn(c, st, e, o.delta, t).kv)
    ensures forall a :: a in actions ==> !a.CacheAccess?
  {
    var o := OutcomeOf(c, st, e, base, t);
    if o.Refused? || (!IsUpdateOp(st.db, e, base) && o.delta == 0) {
      actions := [];
    } else if !IsUpdateOp(st.db, e, base) {
      actions := [Create(p, e, false), Count(p, t.now)];
      CreateAndCount(s, p, e, t.now, c.backend);
    } else if ReportsDelete(st.db, e, c.backend) {
      actions := [Change(p, e, base, false), Count(p, t.now)];
      ChangeAndCount(s, p, e, base, t.now, c.backend);
    } else {
      actions := [Change(p, e, base, false)];
      OneAction(s, Change(p, e, base, false), c.backend);
    }
  }

  lemma SettledTables(c: CommitContext, st: CommitState, e: Entity, o: Outcome, t: Tick)
    requires Tracks(c, st) && (o.Applied? ==> -1 <= o.delta <= 1)
    ensures var after := Settled(c, st, e, o, t);
            && after.db == (if o.Applied? then o.db else st.db)
            && after.kv == (if o.Applied? then CountedIn(c, st, e, o.delta, t).kv else st.kv)
  {
  }

  lemma EntryIsActions(s: Sys, p: nat, c: CommitContext, st: CommitState, pb: PbEntity, t: Tick)
    returns (actions: seq<Action>)
    requires Addressable(pb) && Tracks(c, st) && MayWrite(s, p) && s.db == st.db && s.kv == st.kv
    ensures var after := CommitEntry(c, st, pb, t);
            Run(s, actions, c.backend) == s.(db := after.db, kv := after.kv)
    ensures forall a :: a in actions ==> !a.CacheAccess?
  {
    actions := [];
    var e := Prepared(c, st, pb, t);
    if e.Some? {
      EntryWrites(c, st, pb, t);
      OutcomeDelta(c, st, e.value, pb.version.value, t);
      actions := OutcomeIsActions(s, p, c, st, e.value, pb.version.value, t);
      SettledTables(c, st, e.value, OutcomeOf(c, st, e.value, pb.version.value, t), t);
    }
  }

  lemma {:induction false} NothingDrained(s: Sys, actions: seq<Action>, backend: Backend, client: ClientId,
                                          kind: CountType)
    requires forall a :: a in actions ==> !a.CacheAccess?
    ensures DrainedIn(s, actions, backend, client, kind) == 0
  {
    if actions != [] { NothingDrained(s, actions[..|actions| - 1], backend, client, kind); }
  }

  /** The loop of a commit is a run of its handler's actions. */
  lemma {:induction false} LoopIsActions(s: Sys, p: nat, c: CommitContext, st0: CommitState, entries: seq<PbEntity>,
                                         ticks: seq<Tick>, n: nat) returns (actions: seq<Action>)
    requires n <= |entries| && n <= |ticks| && AllAddressable(entries) && Tracks(c, st0)
    requires MayWrite(s, p) && s.db == st0.db && s.kv == st0.kv
    ensures var st := CommitUpto(c, st0, entries, ticks, n);
            Run(s, actions, c.backend) == s.(db := st.db, kv := st.kv)
    ensures forall a :: a in actions ==> !a.CacheAccess?
    decreases n
  {
    actions := [];
    if n > 0 {
      var before := LoopIsActions(s, p, c, st0, entries, ticks, n - 1);
      var st := CommitUpto(c, st0, entries, ticks, n - 1);
      LoopCounts(c, st0, entries, ticks, n - 1);
      var last := EntryIsActions(s.(db := st.db, kv := st.kv), p, c, st, entries[n - 1], ticks[n - 1]);
      RunConcat(s, before, last, c.backend, c.client, Normal);
      actions := before + last;
    }
  }

  function Draining(client: ClientId, now: int): seq<Action> {
    [CacheAccess(TimedAccess(now, Drain(client, Normal))), CacheAccess(TimedAccess(now, Drain(client, History)))]
  }

  lemma DrainsBoth(s: Sys, client: ClientId, now: int, backend: Backend, kind: CountType)
    requires WellTyped(s.kv)
    ensures Run(s, Draining(client, now), backend)
            == s.(kv := s.kv - {InterimKey(client, Normal)} - {InterimKey(client, History)})
    ensures DrainedIn(s, Draining(client, now), backend, client, kind) == Pending(s.kv, client, kind)
  {
    var ds := Draining(client, now);
    var s1 := Act(s, ds[0], backend);
    ReadMeaning(s.kv, client, Normal, true, now);
    ReadMeaning(s1.kv, client, History, true, now);
    TwoActions(s, ds[0], ds[1], backend);
    OneAction(s, ds[0], backend);
    assert (client, Normal) != (client, History);
    assert ds[..1] == [ds[0]] && ds[..1][..0] == [];
    assert Run(s, [], backend) == s && DrainedIn(s, [], backend, client, kind) == 0;
    assert DrainedIn(s, ds[..1], backend, client, kind) == DrainedNow(s, ds[0], client, kind);
    assert DrainedIn(s, ds, backend, client, kind)
        == DrainedIn(s, ds[..1], backend, client, kind) + DrainedNow(s1, ds[1], client, kind);
    match kind
    case Normal =>
    case History =>
  }

  /** So everything above is about commits: one that meets any tables, and any counts in flight, does to the
      tables and the counters what a run of one handler's actions does, and saves what that run drained. */
  lemma CommitIsActions(s: Sys, p: nat, client: ClientId, msg: CommitMsg, env: CommitEnv, backend: Backend)
    returns (actions: seq<Action>)
    requires ReachesLoop(msg, env) && WellTyped(s.kv) && MayWrite(s, p)
    ensures var w := World(s.db, s.kv);
            var st, end := EndOfLoop(w, client, msg, env, backend), Run(s, actions, backend);
            && Committed(w, client, msg, env, backend) == Finished(w, st, client, env)
            && end == s.(db := st.db, kv := st.kv - {InterimKey(client, Normal)} - {InterimKey(client, History)})
            && DrainedIn(s, actions, backend, client, Normal) == st.newNormal
            && DrainedIn(s, actions, backend, client, History) == st.newHistory
  {
    var w := World(s.db, s.kv);
    var c, st := ContextOf(w, client, msg, env, backend), EndOfLoop(w, client, msg, env, backend);
    LoopInFlight(w, client, msg, env, backend);
    var loop := LoopIsActions(s, p, c, StartOf(w, client), msg.entries, env.ticks, |msg.entries|);
    actions := loop + Draining(client, env.end);
    forall kind: CountType
      ensures DrainedIn(s, actions, backend, client, kind) == Pending(st.kv, client, kind)
      ensures Run(s, actions, backend) == Run(Run(s, loop, backend), Draining(client, env.end), backend)
    {
      RunConcat(s, loop, Draining(client, env.end), backend, client, kind);
      NothingDrained(s, loop, backend, client, kind);
      DrainsBoth(Run(s, loop, backend), client, env.end, backend, kind);
    }
    DrainsBoth(Run(s, loop, backend), client, env.end, backend, Normal);
  }
}
