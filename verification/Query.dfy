/** The updates query of the SQLite store: which rows it may return, and in which order. */
module Query {
  import opened Basics
  import opened SyncEntities
  import opened Tables

  /** The arguments of GetUpdatesForType other than the page size; the clock is in seconds. */
  datatype Filter = Filter(client: ClientId, dataType: int, token: int, fetchFolders: bool, nowSec: int)

  function MtimeOf(e: Entity): int {
    GetOr(e.mtime, 0)
  }

  /** The WHERE clause. A NULL mtime or folder fails its comparison. */
  predicate Visible(e: Entity, f: Filter) {
    && e.clientId == f.client
    && e.dataType == Some(f.dataType)
    && e.mtime.Some? && e.mtime.value > f.token
    && NotExpired(e, f.nowSec)
    && (f.fetchFolders || e.folder == Some(false))
  }

  function PendingRows(rows: map<Key, Entity>, f: Filter): set<Entity> {
    set k | k in rows && Visible(rows[k], f) :: rows[k]
  }

  ghost predicate SortedByMtime(es: seq<Entity>) {
    forall i, j :: 0 <= i < j < |es| ==> MtimeOf(es[i]) <= MtimeOf(es[j])
  }

  ghost predicate NoRepeats(es: seq<Entity>) {
    forall i, j :: 0 <= i < j < |es| ==> es[i] != es[j]
  }

  /** A page: the first `size` pending rows in some order by mtime, ties in any order. */
  ghost predicate IsFirstOf(es: seq<Entity>, pending: set<Entity>, size: nat) {
    && |es| == Min(size, |pending|)
    && NoRepeats(es) && SortedByMtime(es)
    && (forall e :: e in es ==> e in pending)
    && (forall e, x :: e in es && x in pending && x !in es ==> MtimeOf(e) <= MtimeOf(x))
  }

  /** What GetUpdatesForType answers: an error, or a page and whether more is pending. */
  datatype Page = QueryFailed | Page(more: bool, entities: seq<Entity>)

  const EMPTY_PAGE := Page(false, [])

  ghost predicate IsAnswer(rows: map<Key, Entity>, f: Filter, size: nat, p: Page) {
    p.Page? ==>
      var pending := PendingRows(rows, f);
      IsFirstOf(p.entities, pending, size) && (p.more <==> |pending| > size)
  }

  lemma {:induction false} OldestExists(s: set<Entity>)
    requires s != {}
    ensures exists e :: e in s && forall x :: x in s ==> MtimeOf(e) <= MtimeOf(x)
  {
    var e :| e in s;
    if s != {e} {
      OldestExists(s - {e});
      var o :| o in s - {e} && forall x :: x in s - {e} ==> MtimeOf(o) <= MtimeOf(x);
      assert forall x :: x in s ==> x == e || x in s - {e};
      if MtimeOf(e) <= MtimeOf(o) {
        assert forall x :: x in s ==> MtimeOf(e) <= MtimeOf(x);
      } else {
        assert forall x :: x in s ==> MtimeOf(o) <= MtimeOf(x);
      }
    }
  }

  /** The query always has an answer. */
  lemma FirstExists(pending: set<Entity>, size: nat) returns (es: seq<Entity>)
    ensures IsFirstOf(es, pending, size)
  {
    var cursor := pending;
    es := [];
    while cursor != {} && |es| < size
      invariant |es| <= size && |es| + |cursor| == |pending|
      invariant NoRepeats(es) && SortedByMtime(es)
      invariant forall e :: e in pending <==> e in es || e in cursor
      invariant forall e :: e in es ==> e !in cursor
      invariant forall e, x :: e in es && x in cursor ==> MtimeOf(e) <= MtimeOf(x)
      decreases |cursor|
    {
      OldestExists(cursor);
      var next :| next in cursor && forall x :: x in cursor ==> MtimeOf(next) <= MtimeOf(x);
      es := es + [next];
      cursor := cursor - {next};
    }
  }

  /** A shorter page is the front of a longer one. */
  lemma FrontOfPage(es: seq<Entity>, pending: set<Entity>, size: nat, shorter: nat)
    requires IsFirstOf(es, pending, size) && shorter <= |es|
    ensures IsFirstOf(es[..shorter], pending, shorter)
  {
  }
}
