/** The server as a sequence of requests, each handled to its end before the next
    (sync-lite/main.go and command/command.go, HandleClientToServerMessage). */
module Server {
  import opened Basics
  import opened SyncEntities
  import opened Cache
  import opened Tables
  import opened GetUpdates
  import opened Commit
  import Bootstrap

  /** `polls` is the cache short cut for polling requests, which the server always takes;
      `backend` is the store it runs on. */
  datatype Config = Config(polls: bool, backend: Backend)

  /** A request with everything its handling meets: the clock, the store's answers, the
      entities it would bootstrap, the verdict of the device limit, and the clock `at` the start
      of the loop over the markers. */
  datatype Call =
    | GuCall(client: ClientId, msg: GuMsg, throttled: bool, batch: seq<Entity>, at: int, visits: seq<Visit>)
    | CommitCall(client: ClientId, commit: CommitMsg, env: CommitEnv)
    | ClearCall(client: ClientId, now: int)

  datatype Answer =
    | DisabledByAdmin
    | Updates(gu: GuResponse)
    | CommitResult(commit: CommitResponse)
    | ClearDone

  datatype Served = Served(world: World, answer: Answer)

  predicate WillBootstrap(db: DB, call: Call)
    requires call.GuCall?
  {
    call.msg.origin.NewClient? && ServerTagKey(call.client, Bootstrap.NIGORI_TAG) !in db.tags
  }

  /** The tables once a new client has its server-defined entities; None if their insertion
      ran into a duplicate. */
  function Bootstrapped(db: DB, call: Call): Option<DB>
    requires call.GuCall?
  {
    if WillBootstrap(db, call) then ServerEntitiesInserted(db, call.batch) else Some(db)
  }

  function GuContextOf(cfg: Config, call: Call): GuContext
    requires call.GuCall?
  {
    GuContext(call.client, call.msg, cfg.polls)
  }

  function ServeUpdates(cfg: Config, w: World, call: Call): Served
    requires call.GuCall? && |call.visits| == |call.msg.markers|
  {
    if call.msg.origin.NewClient? && call.throttled then Served(w, Updates(NO_UPDATES.(status := Throttled)))
    else if Bootstrapped(w.db, call).None? then Served(w, Updates(NO_UPDATES.(status := Transient)))
    else
      var st := Result(GuContextOf(cfg, call), w.kv, call.visits);
      Served(World(Bootstrapped(w.db, call).value, st.kv), Updates(st.rsp))
  }

  /** The cache keys of the types the client has rows of. */
  function RowTypeKeys(db: DB, client: ClientId): set<string> {
    set k | k in db.rows && db.rows[k].clientId == client && db.rows[k].dataType.Some?
      :: TypeMtimeKey(client, db.rows[k].dataType.value)
  }

  function ServeClear(w: World, client: ClientId, now: int): World {
    var disabled := Disabled(w.db, client, now);
    World(Cleared(disabled, client), w.kv - RowTypeKeys(disabled, client))
  }

  predicate WellFormed(call: Call) {
    match call
    case GuCall(_, msg, _, _, _, visits) => |visits| == |msg.markers|
    case CommitCall(_, msg, env) => ValidCommit(msg, env)
    case ClearCall(_, _) => true
  }

  /** One request, behind the gate for disabled chains. */
  function Serve(cfg: Config, w: World, call: Call): Served
    requires WellFormed(call)
  {
    if IsDisabled(w.db, call.client) then Served(w, DisabledByAdmin)
    else
      match call
      case GuCall(_, _, _, _, _, _) => ServeUpdates(cfg, w, call)
      case CommitCall(client, msg, env) =>
        var r := Committed(w, client, msg, env, cfg.backend);
        Served(r.0, CommitResult(r.1))
      case ClearCall(client, now) => Served(ServeClear(w, client, now), ClearDone)
  }

  /** The store's recorded answers are answers it may give. */
  ghost predicate LegalCall(cfg: Config, w: World, call: Call) {
    WellFormed(call)
    && (call.GuCall? && !IsDisabled(w.db, call.client)
        && !(call.msg.origin.NewClient? && call.throttled) && Bootstrapped(w.db, call).Some? ==>
          Legal(Bootstrapped(w.db, call).value.rows, GuContextOf(cfg, call), w.kv, call.visits))
  }

  predicate AllWellFormed(calls: seq<Call>) {
    forall i :: 0 <= i < |calls| ==> WellFormed(calls[i])
  }

  function WorldAfter(cfg: Config, w0: World, calls: seq<Call>, n: nat): World
    requires n <= |calls| && AllWellFormed(calls)
  {
    if n == 0 then w0 else Serve(cfg, WorldAfter(cfg, w0, calls, n - 1), calls[n - 1]).world
  }

  function AnswerTo(cfg: Config, w0: World, calls: seq<Call>, n: nat): Answer
    requires n < |calls| && AllWellFormed(calls)
  {
    Serve(cfg, WorldAfter(cfg, w0, calls, n), calls[n]).answer
  }

  const FRESH_WORLD := World(EMPTY_DB, map[])
}
