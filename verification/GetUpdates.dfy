/** One get-updates request as a fold over its progress markers
    (command/command.go, handleGetUpdatesRequest). */
module GetUpdates {
  import opened Basics
  import opened SyncEntities
  import opened MemoryCache
  import opened Cache
  import opened Query
  import Bootstrap

  const MAX_GU_BATCH_SIZE := 500

  datatype Origin = NewClient | Periodic | OtherOrigin

  /** A progress token: the bytes decode to a number, or they do not. */
  datatype Token = Varint(value: int) | Malformed

  /** A marker sent by the client; an empty token stands for 0. */
  datatype InMarker = InMarker(dataType: int, token: Option<Token>)

  datatype Marker = Marker(dataType: int, token: Token)

  datatype GuMsg = GuMsg(origin: Origin, fetchFolders: Option<bool>, markers: seq<InMarker>)

  /** How a request ends: a result code for the client, or an internal server error. */
  datatype Status = Ok | Transient | Throttled | InternalError

  datatype GuResponse = GuResponse(
    status: Status, changesRemaining: int, entries: seq<PbEntity>, markers: seq<Marker>, encryptionKeys: bool)

  /** What one iteration meets: its clock reading in milliseconds and, if it queries the
      store, the answer. An iteration that does not query is recorded with EMPTY_PAGE. */
  datatype Visit = Visit(now: int, page: Page)

  /** The request as the loop sees it. `polls` enables the cache short cut for PERIODIC
      requests; the server always runs with it enabled. */
  datatype GuContext = GuContext(client: ClientId, msg: GuMsg, polls: bool)

  datatype GuState = GuState(rsp: GuResponse, kv: KV)

  function StartToken(m: InMarker): Token {
    GetOr(m.token, Varint(0))
  }

  function FetchFolders(msg: GuMsg): bool {
    GetOr(msg.fetchFolders, true)
  }

  function FilterFor(c: GuContext, m: InMarker, now: int): Filter
    requires StartToken(m).Varint?
  {
    Filter(c.client, m.dataType, StartToken(m).value, FetchFolders(c.msg), now / 1000)
  }

  function Room(st: GuState): int {
    MAX_GU_BATCH_SIZE - |st.rsp.entries|
  }

  /** Every visited marker comes back, at first with the token it came with. */
  function Listed(c: GuContext, st: GuState, m: InMarker): GuState {
    st.(rsp := st.rsp.(
          markers := st.rsp.markers + [Marker(m.dataType, StartToken(m))],
          encryptionKeys := st.rsp.encryptionKeys
                            || (c.msg.origin.NewClient? && m.dataType == Bootstrap.NIGORI_TYPE_ID)))
  }

  predicate Halted(st: GuState) {
    !st.rsp.status.Ok?
  }

  /** The marker gets as far as the cache check. */
  predicate ReachesCache(st: GuState, m: InMarker) {
    !Halted(st) && Room(st) > 0 && StartToken(m).Varint?
  }

  predicate ChecksCache(c: GuContext, st: GuState, m: InMarker) {
    c.polls && c.msg.origin.Periodic? && ReachesCache(st, m)
  }

  predicate CacheSaysCurrent(c: GuContext, st: GuState, m: InMarker, now: int) {
    ChecksCache(c, st, m) && !TypeMtimeUpdated(st.kv, c.client, m.dataType, StartToken(m).value, now)
  }

  predicate Queries(c: GuContext, st: GuState, m: InMarker, now: int) {
    ReachesCache(st, m) && !CacheSaysCurrent(c, st, m, now)
  }

  function Checked(c: GuContext, st: GuState, m: InMarker, now: int): KV {
    if ChecksCache(c, st, m) then DropIfExpired(st.kv, TypeMtimeKey(c.client, m.dataType), now) else st.kv
  }

  /** A new client that is told its nigori folder does not exist yet has to come back. */
  predicate NigoriNotReady(c: GuContext, m: InMarker, page: Page) {
    && page.Page? && page.entities == []
    && c.msg.origin.NewClient? && m.dataType == Bootstrap.NIGORI_TYPE_ID && StartToken(m) == Varint(0)
  }

  /** The token after a page: the mtime of its last row, or the one it started from. */
  function NextToken(token: int, es: seq<Entity>): int {
    if es == [] then token else MtimeOf(es[|es| - 1])
  }

  function WithPage(c: GuContext, st: GuState, m: InMarker, v: Visit): GuState
    requires StartToken(m).Varint? && v.page.Page?
  {
    var es, n := v.page.entities, |st.rsp.markers|;
    var token := NextToken(StartToken(m).value, es);
    var more := if v.page.more then 1 else st.rsp.changesRemaining;
    GuState(
      Listed(c, st, m).rsp.(
        changesRemaining := more,
        entries := st.rsp.entries + ToPb(es),
        markers := st.rsp.markers + [Marker(m.dataType, Varint(token))]),
      if more != 1 then WithTypeMtime(Checked(c, st, m, v.now), c.client, m.dataType, token, v.now)
      else Checked(c, st, m, v.now))
  }

  /** One iteration of the loop over the progress markers. */
  function Next(c: GuContext, st: GuState, m: InMarker, v: Visit): GuState {
    if Halted(st) then st
    else
      var st1 := Listed(c, st, m).(kv := Checked(c, st, m, v.now));
      if Room(st) <= 0 then st1
      else if StartToken(m).Malformed? then st1.(rsp := st1.rsp.(status := InternalError))
      else if CacheSaysCurrent(c, st, m, v.now) then st1
      else if v.page.QueryFailed? || NigoriNotReady(c, m, v.page) then
        st1.(rsp := st1.rsp.(status := Transient))
      else WithPage(c, st, m, v)
  }

  const NO_UPDATES := GuResponse(Ok, 0, [], [], false)

  /** The state after the first n markers. */
  function Upto(c: GuContext, kv: KV, visits: seq<Visit>, n: nat): GuState
    requires n <= |c.msg.markers| && n <= |visits|
  {
    if n == 0 then GuState(NO_UPDATES, kv)
    else Next(c, Upto(c, kv, visits, n - 1), c.msg.markers[n - 1], visits[n - 1])
  }

  /** The answers recorded are those the store may give on the rows it holds. */
  ghost predicate LegalVisit(rows: map<Key, Entity>, c: GuContext, st: GuState, m: InMarker, v: Visit) {
    if Queries(c, st, m, v.now) then IsAnswer(rows, FilterFor(c, m, v.now), Room(st), v.page)
    else v.page == EMPTY_PAGE
  }

  ghost predicate LegalUpto(rows: map<Key, Entity>, c: GuContext, kv: KV, visits: seq<Visit>, n: nat)
    requires n <= |c.msg.markers| && n <= |visits|
  {
    n == 0 || (LegalUpto(rows, c, kv, visits, n - 1)
               && LegalVisit(rows, c, Upto(c, kv, visits, n - 1), c.msg.markers[n - 1], visits[n - 1]))
  }

  ghost predicate Legal(rows: map<Key, Entity>, c: GuContext, kv: KV, visits: seq<Visit>) {
    |visits| == |c.msg.markers| && LegalUpto(rows, c, kv, visits, |visits|)
  }

  lemma {:induction false} LegalAt(rows: map<Key, Entity>, c: GuContext, kv: KV, visits: seq<Visit>, n: nat, i: nat)
    requires i < n <= |c.msg.markers| && n <= |visits| && LegalUpto(rows, c, kv, visits, n)
    ensures LegalUpto(rows, c, kv, visits, i)
    ensures LegalVisit(rows, c, Upto(c, kv, visits, i), c.msg.markers[i], visits[i])
    decreases n
  {
    if i < n - 1 { LegalAt(rows, c, kv, visits, n - 1, i); }
  }

  lemma {:induction false} LongerRecordSameState(rows: map<Key, Entity>, c: GuContext, kv: KV, visits: seq<Visit>,
                                                 longer: seq<Visit>, n: nat)
    requires visits <= longer && n <= |visits| && n <= |c.msg.markers|
    ensures Upto(c, kv, longer, n) == Upto(c, kv, visits, n)
    ensures LegalUpto(rows, c, kv, longer, n) == LegalUpto(rows, c, kv, visits, n)
    decreases n
  {
    if n > 0 { LongerRecordSameState(rows, c, kv, visits, longer, n - 1); }
  }

  lemma OneMoreVisit(rows: map<Key, Entity>, c: GuContext, kv: KV, visits: seq<Visit>, v: Visit)
    requires |visits| < |c.msg.markers| && LegalUpto(rows, c, kv, visits, |visits|)
    requires LegalVisit(rows, c, Upto(c, kv, visits, |visits|), c.msg.markers[|visits|], v)
    ensures var n := |visits|;
            && Upto(c, kv, visits + [v], n + 1) == Next(c, Upto(c, kv, visits, n), c.msg.markers[n], v)
            && LegalUpto(rows, c, kv, visits + [v], n + 1)
  {
    LongerRecordSameState(rows, c, kv, visits, visits + [v], |visits|);
  }

  function Result(c: GuContext, kv: KV, visits: seq<Visit>): GuState
    requires |visits| == |c.msg.markers|
  {
    Upto(c, kv, visits, |visits|)
  }

  // ---- shape of a response ----

  ghost predicate WellShaped(c: GuContext, st: GuState, n: nat) {
    && |st.rsp.entries| <= MAX_GU_BATCH_SIZE
    && (st.rsp.changesRemaining == 0 || st.rsp.changesRemaining == 1)
    && |st.rsp.markers| <= n <= |c.msg.markers| && (st.rsp.status.Ok? ==> |st.rsp.markers| == n)
    && (forall i :: 0 <= i < |st.rsp.markers| ==> st.rsp.markers[i].dataType == c.msg.markers[i].dataType)
  }

  lemma NextShape(c: GuContext, st: GuState, v: Visit, n: nat)
    requires WellShaped(c, st, n) && n < |c.msg.markers|
    requires Queries(c, st, c.msg.markers[n], v.now) && v.page.Page? ==> |v.page.entities| <= Room(st)
    ensures WellShaped(c, Next(c, st, c.msg.markers[n], v), n + 1)
  {
    var m, after := c.msg.markers[n], Next(c, st, c.msg.markers[n], v);
    if Halted(st) {
    } else if Queries(c, st, m, v.now) && v.page.Page? && !NigoriNotReady(c, m, v.page) {
      assert after == WithPage(c, st, m, v);
    } else {
      assert after.rsp.entries == st.rsp.entries && after.rsp.changesRemaining == st.rsp.changesRemaining;
      assert after.rsp.markers == st.rsp.markers + [Marker(m.dataType, StartToken(m))];
    }
  }

  /** Whatever the answers: at most one page of entries, and the markers that were sent,
      in order. */
  lemma {:induction false} ResponseShape(rows: map<Key, Entity>, c: GuContext, kv: KV, visits: seq<Visit>, n: nat)
    requires n <= |c.msg.markers| && n <= |visits| && LegalUpto(rows, c, kv, visits, n)
    ensures WellShaped(c, Upto(c, kv, visits, n), n)
    decreases n
  {
    if n > 0 {
      ResponseShape(rows, c, kv, visits, n - 1);
      NextShape(c, Upto(c, kv, visits, n - 1), visits[n - 1], n - 1);
    }
  }
}
