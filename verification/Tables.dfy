/** The three tables of the store and what each SQL transaction does to them
    (sync-lite/sqlite_store.go). Every function here is one atomic step. */
module Tables {
  import opened Basics
  import opened SyncEntities
  import opened ItemCounts

  const CLIENT_TAG_PREFIX := "Client#"

  const SERVER_TAG_PREFIX := "Server#"

  const DISABLED_CHAIN_ID := "disabled_chain"

  const REASON_DELETED := "deleted"

  /** The two implementations of the store interface. On the tables modelled here they write the
      same and differ in what they answer. */
  datatype Backend = SQLite | DynamoDB

  datatype DB = DB(rows: map<Key, Entity>, tags: set<Key>, counts: map<ClientId, Counts>)

  const EMPTY_DB := DB(map[], {}, map[])

  function ClientTagKey(client: ClientId, tag: string): Key {
    Key(client, CLIENT_TAG_PREFIX + tag)
  }

  function ServerTagKey(client: ClientId, tag: string): Key {
    Key(client, SERVER_TAG_PREFIX + tag)
  }

  /** The two kinds of tag rows never coincide. */
  lemma TagKeysDiffer(c: ClientId, tag: string, c': ClientId, tag': string)
    ensures ClientTagKey(c, tag) != ServerTagKey(c', tag')
    ensures ClientTagKey(c, tag) == ClientTagKey(c', tag') <==> c == c' && tag == tag'
    ensures ServerTagKey(c, tag) == ServerTagKey(c', tag') <==> c == c' && tag == tag'
  {
    assert ClientTagKey(c, tag).id[0] == 'C' && ServerTagKey(c', tag').id[0] == 'S';
    assert ClientTagKey(c, tag).id[7..] == tag && ClientTagKey(c', tag').id[7..] == tag';
    assert ServerTagKey(c, tag).id[7..] == tag && ServerTagKey(c', tag').id[7..] == tag';
  }

  // ---- INSERT ----

  /** Every tagged type but history claims its tag. */
  predicate UsesTag(e: Entity) {
    e.clientTag.Some? && e.dataType.Some? && e.dataType.value != HISTORY_TYPE_ID
  }

  function OwnTag(e: Entity): set<Key> {
    if UsesTag(e) then {ClientTagKey(e.clientId, e.clientTag.value)} else {}
  }

  predicate InsertConflicts(db: DB, e: Entity) {
    OwnTag(e) * db.tags != {} || KeyOf(e) in db.rows
  }

  function Inserted(db: DB, e: Entity): DB {
    if InsertConflicts(db, e) then db
    else db.(rows := db.rows[KeyOf(e) := e], tags := db.tags + OwnTag(e))
  }

  /** The (conflict, error) pair InsertSyncEntity returns. SQLite answers a conflict without an
      error; DynamoDB answers it with one, and only calls it a conflict when a tag row was part
      of the transaction. */
  function InsertAnswer(db: DB, e: Entity, fails: bool, backend: Backend): (bool, bool) {
    if fails then (false, true)
    else if InsertConflicts(db, e) then (backend.SQLite? || UsesTag(e), backend.DynamoDB?)
    else (false, false)
  }

  // ---- UPDATE ----

  /** The row exists and, unless the request is of the history type, its version is the one
      the request was based on. */
  predicate UpdateAccepted(db: DB, e: Entity, base: int) {
    && KeyOf(e) in db.rows
    && (e.dataType.Some? && e.dataType.value != HISTORY_TYPE_ID ==> db.rows[KeyOf(e)].version == Some(base))
  }

  function ReleasedTag(e: Entity): set<Key> {
    if e.deleted == Some(true) then OwnTag(e) else {}
  }

  function Updated(db: DB, e: Entity, base: int): DB {
    if !UpdateAccepted(db, e, base) then db
    else db.(rows := db.rows[KeyOf(e) := Overlay(db.rows[KeyOf(e)], e)], tags := db.tags - ReleasedTag(e))
  }

  predicate IsDeleted(e: Entity) {
    e.deleted == Some(true)
  }

  /** The delete report of an accepted update: it turns a live row into a deleted one. DynamoDB
      deletes a row with a tag in a transaction that does not return the old row, and reports
      every such delete. */
  predicate ReportsDelete(db: DB, e: Entity, backend: Backend) {
    && KeyOf(e) in db.rows && IsDeleted(e)
    && (!IsDeleted(db.rows[KeyOf(e)]) || (backend.DynamoDB? && UsesTag(e)))
  }

  /** A reported delete of a row that was deleted already. */
  predicate RepeatsDelete(db: DB, e: Entity, backend: Backend) {
    ReportsDelete(db, e, backend) && IsDeleted(db.rows[KeyOf(e)])
  }

  // ---- server-defined entities ----

  function ServerTagOf(e: Entity): Key {
    ServerTagKey(e.clientId, GetOr(e.serverTag, ""))
  }

  /** One transaction for the whole batch; any duplicate rolls all of it back. */
  function ServerEntitiesInserted(db: DB, es: seq<Entity>): Option<DB>
    decreases |es|
  {
    if es == [] then Some(db)
    else if ServerTagOf(es[0]) in db.tags || KeyOf(es[0]) in db.rows then None
    else ServerEntitiesInserted(
           db.(rows := db.rows[KeyOf(es[0]) := es[0]], tags := db.tags + {ServerTagOf(es[0])}), es[1..])
  }

  // ---- disabling and clearing ----

  function MarkerRow(client: ClientId, now: int): Entity {
    Entity(client, DISABLED_CHAIN_ID, None, None, Some(now), Some(now), Some(REASON_DELETED), None,
           None, None, None, None, None, None, None, None, None, None, None)
  }

  function Disabled(db: DB, client: ClientId, now: int): DB {
    var k := Key(client, DISABLED_CHAIN_ID);
    var row := if k in db.rows
               then db.rows[k].(mtime := Some(now), ctime := Some(now), name := Some(REASON_DELETED))
               else MarkerRow(client, now);
    db.(rows := db.rows[k := row])
  }

  predicate IsDisabled(db: DB, client: ClientId) {
    Key(client, DISABLED_CHAIN_ID) in db.rows
  }

  predicate Clearable(k: Key, client: ClientId) {
    k.client == client && k.id != DISABLED_CHAIN_ID
  }

  function Cleared(db: DB, client: ClientId): DB {
    DB(map k | k in db.rows && !Clearable(k, client) :: db.rows[k],
       set k | k in db.tags && k.client != client :: k,
       db.counts - {client})
  }

  // ---- counts ----

  function StoredCounts(db: DB, client: ClientId): Counts {
    if client in db.counts then db.counts[client] else NO_COUNTS
  }

  predicate NotExpired(e: Entity, nowSec: int) {
    e.expirationTime.None? || e.expirationTime.value == 0 || e.expirationTime.value >= nowSec
  }

  predicate CountsAsHistory(e: Entity, client: ClientId, nowSec: int) {
    && e.clientId == client && e.dataType.Some? && IsHistoryRelated(e.dataType.value)
    && e.deleted == Some(false) && NotExpired(e, nowSec)
  }

  predicate CountsAsNormal(e: Entity, client: ClientId) {
    e.clientId == client && e.dataType.Some? && !IsHistoryRelated(e.dataType.value) && e.deleted == Some(false)
  }

  function HistoryRows(db: DB, client: ClientId, nowSec: int): nat {
    |set k | k in db.rows && CountsAsHistory(db.rows[k], client, nowSec)|
  }

  function NormalRows(db: DB, client: ClientId): nat {
    |set k | k in db.rows && CountsAsNormal(db.rows[k], client)|
  }

  function LoadedCounts(db: DB, client: ClientId, nowSec: int): Counts {
    Refreshed(StoredCounts(db, client), nowSec, HistoryRows(db, client, nowSec), NormalRows(db, client))
  }

  // ---- runs of transactions: every interleaving of requests is one of these ----

  datatype Txn =
    | Insert(e: Entity)
    | Update(e: Entity, base: int)
    | InsertServerEntities(es: seq<Entity>)
    | Disable(client: ClientId, now: int)
    | Clear(client: ClientId)
    | SaveCounts(client: ClientId, counts: Counts)

  function Step(db: DB, t: Txn): DB {
    match t
    case Insert(e) => Inserted(db, e)
    case Update(e, base) => Updated(db, e, base)
    case InsertServerEntities(es) => GetOr(ServerEntitiesInserted(db, es), db)
    case Disable(c, now) => Disabled(db, c, now)
    case Clear(c) => Cleared(db, c)
    case SaveCounts(c, counts) => db.(counts := db.counts[c := counts])
  }

  /** The tables after a run that starts with nothing stored. */
  function After(txns: seq<Txn>): DB {
    if txns == [] then EMPTY_DB else Step(After(txns[..|txns| - 1]), txns[|txns| - 1])
  }

  /** Rows sit under their own key. */
  predicate KeyedRows(db: DB) {
    forall k :: k in db.rows ==> KeyOf(db.rows[k]) == k
  }

  lemma {:induction false} ServerEntitiesKeyed(db: DB, es: seq<Entity>)
    requires KeyedRows(db) && ServerEntitiesInserted(db, es).Some?
    ensures KeyedRows(ServerEntitiesInserted(db, es).value)
    decreases |es|
  {
    if es != [] {
      ServerEntitiesKeyed(db.(rows := db.rows[KeyOf(es[0]) := es[0]], tags := db.tags + {ServerTagOf(es[0])}), es[1..]);
    }
  }

  lemma StepKeyed(db: DB, t: Txn)
    requires KeyedRows(db)
    ensures KeyedRows(Step(db, t))
  {
    if t.InsertServerEntities? && ServerEntitiesInserted(db, t.es).Some? {
      ServerEntitiesKeyed(db, t.es);
    }
  }

  lemma {:induction false} AfterKeyed(txns: seq<Txn>)
    ensures KeyedRows(After(txns))
  {
    if txns != [] {
      AfterKeyed(txns[..|txns| - 1]);
      StepKeyed(After(txns[..|txns| - 1]), txns[|txns| - 1]);
    }
  }
}
