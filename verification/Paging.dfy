/** What one response to a get-updates contains, and what it leaves out. */
module Paging {
  import opened SyncEntities
  import opened MemoryCache
  import opened Query
  import opened GetUpdates

  // ---- one response ----

  /** The entities of the first n pages, one after the other. */
  function Pages(visits: seq<Visit>, n: nat): seq<Entity>
    requires n <= |visits| && forall i :: 0 <= i < n ==> visits[i].page.Page?
  {
    if n == 0 then [] else Pages(visits, n - 1) + visits[n - 1].page.entities
  }

  function TokenOut(m: InMarker, v: Visit): Token
    requires v.page.Page?
  {
    if StartToken(m).Malformed? then Malformed else Varint(NextToken(StartToken(m).value, v.page.entities))
  }

  lemma {:induction false} HaltIsFinal(c: GuContext, kv: KV, visits: seq<Visit>, n: nat, i: nat)
    requires i <= n <= |visits| == |c.msg.markers| && !Halted(Upto(c, kv, visits, n))
    ensures !Halted(Upto(c, kv, visits, i))
    decreases n
  {
    if i < n { HaltIsFinal(c, kv, visits, n - 1, i); }
  }

  /** A marker visited without error adds its page and moves its token to the page's end. */
  lemma VisitEffect(rows: map<Key, Entity>, c: GuContext, st: GuState, m: InMarker, v: Visit)
    requires !Halted(st) && !Halted(Next(c, st, m, v)) && LegalVisit(rows, c, st, m, v)
    ensures v.page.Page?
    ensures Next(c, st, m, v).rsp.entries == st.rsp.entries + ToPb(v.page.entities)
    ensures Next(c, st, m, v).rsp.markers == st.rsp.markers + [Marker(m.dataType, TokenOut(m, v))]
    ensures Next(c, st, m, v).rsp.changesRemaining == if v.page.more then 1 else st.rsp.changesRemaining
  {
  }

  ghost predicate AllAnswered(visits: seq<Visit>, n: nat)
    requires n <= |visits|
  {
    forall i :: 0 <= i < n ==> visits[i].page.Page?
  }

  /** The response after n markers: their pages in order, their tokens moved to the pages'
      ends, and ChangesRemaining 1 exactly when some page left rows behind. */
  ghost predicate IsPages(c: GuContext, rsp: GuResponse, visits: seq<Visit>, n: nat)
    requires n <= |visits| == |c.msg.markers|
  {
    && AllAnswered(visits, n)
    && rsp.entries == ToPb(Pages(visits, n)) && |rsp.markers| == n
    && (forall i :: 0 <= i < n ==>
          rsp.markers[i] == Marker(c.msg.markers[i].dataType, TokenOut(c.msg.markers[i], visits[i])))
    && rsp.changesRemaining == (if exists i :: 0 <= i < n && visits[i].page.more then 1 else 0)
  }

  lemma OneMorePage(c: GuContext, rsp: GuResponse, rsp': GuResponse, visits: seq<Visit>, n: nat)
    requires n < |visits| == |c.msg.markers| && IsPages(c, rsp, visits, n)
    requires visits[n].page.Page?
    requires rsp'.entries == rsp.entries + ToPb(visits[n].page.entities)
    requires rsp'.markers
             == rsp.markers + [Marker(c.msg.markers[n].dataType, TokenOut(c.msg.markers[n], visits[n]))]
    requires rsp'.changesRemaining == if visits[n].page.more then 1 else rsp.changesRemaining
    ensures IsPages(c, rsp', visits, n + 1)
  {
  }

  lemma {:induction false} ResponseIsPages(rows: map<Key, Entity>, c: GuContext, kv: KV, visits: seq<Visit>, n: nat)
    requires n <= |visits| == |c.msg.markers| && LegalUpto(rows, c, kv, visits, n)
    requires !Halted(Upto(c, kv, visits, n))
    ensures IsPages(c, Upto(c, kv, visits, n).rsp, visits, n)
    decreases n
  {
    if n > 0 {
      var st := Upto(c, kv, visits, n - 1);
      HaltIsFinal(c, kv, visits, n, n - 1);
      ResponseIsPages(rows, c, kv, visits, n - 1);
      VisitEffect(rows, c, st, c.msg.markers[n - 1], visits[n - 1]);
      OneMorePage(c, st.rsp, Upto(c, kv, visits, n).rsp, visits, n - 1);
    }
  }

  // ---- what a page leaves out ----

  /** The pending rows not newer than a token. */
  function RowsUpTo(pending: set<Entity>, token: int): set<Entity> {
    set e | e in pending && MtimeOf(e) <= token
  }

  function RowsBefore(pending: set<Entity>, mtime: int): set<Entity> {
    set e | e in pending && MtimeOf(e) < mtime
  }

  /** The page size falls inside a group of pending rows of one mtime. */
  ghost predicate BreaksTie(pending: set<Entity>, size: nat) {
    exists m :: |RowsBefore(pending, m)| < size < |RowsUpTo(pending, m)|
  }

  function Members(es: seq<Entity>): set<Entity> {
    set e | e in es
  }

  /** The rows that are still pending after a page of that size: those with at least `size` rows
      before them. */
  function RestOf(pending: set<Entity>, size: nat): set<Entity> {
    set e | e in pending && |RowsBefore(pending, MtimeOf(e))| >= size
  }

  lemma {:induction false} SubsetIsSmaller(a: set<Entity>, b: set<Entity>)
    requires a <= b
    ensures |a| <= |b|
  {
    if a != {} {
      var x :| x in a;
      SubsetIsSmaller(a - {x}, b - {x});
    }
  }

  lemma {:induction false} ProperSubsetIsSmaller(a: set<Entity>, b: set<Entity>)
    requires a < b
    ensures |a| < |b|
  {
    var x :| x in b && x !in a;
    SubsetIsSmaller(a, b - {x});
  }

  lemma {:induction false} DistinctCount(es: seq<Entity>)
    requires NoRepeats(es)
    ensures |Members(es)| == |es|
  {
    if es != [] {
      var n := |es| - 1;
      DistinctCount(es[..n]);
      assert Members(es) == Members(es[..n]) + {es[n]};
      assert es[n] !in es[..n];
    }
  }

  lemma FullPageIsAll(es: seq<Entity>, pending: set<Entity>, size: nat)
    requires IsFirstOf(es, pending, size) && |pending| <= size
    ensures forall e :: e in pending ==> e in es
  {
    DistinctCount(es);
    var taken := Members(es);
    assert taken <= pending;
    if taken != pending { ProperSubsetIsSmaller(taken, pending); }
  }

  /** A row of the last mtime of a page that the page leaves out. */
  ghost predicate LeftAtTie(pending: set<Entity>, es: seq<Entity>, x: Entity) {
    x in pending && x !in es && es != [] && MtimeOf(x) == MtimeOf(es[|es| - 1])
  }

  lemma LeftAtTieBreaks(es: seq<Entity>, pending: set<Entity>, size: nat, x: Entity)
    requires IsFirstOf(es, pending, size) && LeftAtTie(pending, es, x)
    ensures BreaksTie(pending, size)
  {
    var last, taken := es[|es| - 1], Members(es);
    var m := MtimeOf(last);
    DistinctCount(es);
    assert taken < pending by { assert x !in taken; }
    ProperSubsetIsSmaller(taken, pending);
    assert RowsBefore(pending, m) < taken by { assert last in taken && last !in RowsBefore(pending, m); }
    ProperSubsetIsSmaller(RowsBefore(pending, m), taken);
    assert taken < RowsUpTo(pending, m) by { assert x in RowsUpTo(pending, m); }
    ProperSubsetIsSmaller(taken, RowsUpTo(pending, m));
  }

  lemma BreakLeavesAtTie(es: seq<Entity>, pending: set<Entity>, size: nat) returns (x: Entity)
    requires IsFirstOf(es, pending, size) && BreaksTie(pending, size)
    ensures LeftAtTie(pending, es, x)
  {
    var m :| |RowsBefore(pending, m)| < size < |RowsUpTo(pending, m)|;
    var taken := Members(es);
    DistinctCount(es);
    SubsetIsSmaller(RowsUpTo(pending, m), pending);
    if RowsUpTo(pending, m) <= taken { SubsetIsSmaller(RowsUpTo(pending, m), taken); }
    x :| x in RowsUpTo(pending, m) && x !in taken;
    if taken <= RowsBefore(pending, m) { SubsetIsSmaller(taken, RowsBefore(pending, m)); }
    var e :| e in taken && e !in RowsBefore(pending, m);
    var n :| 0 <= n < |es| && es[n] == e;
    assert MtimeOf(e) <= MtimeOf(es[|es| - 1]) <= MtimeOf(x);
  }

  /** What stays pending is what is newer than the end of the page. */
  lemma RestIsNewer(es: seq<Entity>, pending: set<Entity>, size: nat, e: Entity)
    requires IsFirstOf(es, pending, size) && e in pending
    ensures e in RestOf(pending, size) <==> es == [] || MtimeOf(e) > MtimeOf(es[|es| - 1])
  {
    if es != [] {
      var last, taken := es[|es| - 1], Members(es);
      DistinctCount(es);
      if MtimeOf(e) > MtimeOf(last) {
        if |pending| <= size { FullPageIsAll(es, pending, size); }
        SubsetIsSmaller(taken, RowsBefore(pending, MtimeOf(e)));
      } else {
        assert RowsBefore(pending, MtimeOf(e)) < taken by {
          assert last in taken && last !in RowsBefore(pending, MtimeOf(e));
        }
        ProperSubsetIsSmaller(RowsBefore(pending, MtimeOf(e)), taken);
      }
    }
  }

  lemma InPageOrRest(es: seq<Entity>, pending: set<Entity>, size: nat, e: Entity)
    requires IsFirstOf(es, pending, size) && e in pending
    ensures !(e in es && e in RestOf(pending, size))
    ensures e !in es && e !in RestOf(pending, size) <==> LeftAtTie(pending, es, e)
  {
    RestIsNewer(es, pending, size, e);
  }

  /** A page and what stays pending are disjoint and together all that was pending, if and only
      if the page size breaks no tie. */
  lemma PageAndRest(es: seq<Entity>, pending: set<Entity>, size: nat)
    requires IsFirstOf(es, pending, size)
    ensures var taken, rest := Members(es), RestOf(pending, size);
            && taken !! rest && taken + rest <= pending && |taken| == |es|
            && (taken + rest == pending <==> !BreaksTie(pending, size))
  {
    var taken, rest := Members(es), RestOf(pending, size);
    DistinctCount(es);
    forall e | e in taken ensures e in pending && e !in rest {
      InPageOrRest(es, pending, size, e);
    }
    if BreaksTie(pending, size) {
      var x := BreakLeavesAtTie(es, pending, size);
      InPageOrRest(es, pending, size, x);
    } else {
      forall e | e in pending ensures e in taken + rest {
        InPageOrRest(es, pending, size, e);
        if e !in taken + rest { LeftAtTieBreaks(es, pending, size, e); }
      }
    }
  }

  /** A page moves the token forward, leaves out nothing older than where the token ends, and is
      exactly the rows up to there if and only if the page size does not fall inside a group of
      pending rows of one mtime. */
  lemma PageIsExact(rows: map<Key, Entity>, f: Filter, size: nat, p: Page)
    requires IsAnswer(rows, f, size, p) && p.Page?
    ensures var pending, token := PendingRows(rows, f), NextToken(f.token, p.entities);
            && f.token <= token
            && (forall e :: e in p.entities ==> e in RowsUpTo(pending, token))
            && (forall e :: e in pending && MtimeOf(e) < token ==> e in p.entities)
            && ((forall e :: e in RowsUpTo(pending, token) ==> e in p.entities) <==> !BreaksTie(pending, size))
  {
    var pending, token := PendingRows(rows, f), NextToken(f.token, p.entities);
    if BreaksTie(pending, size) {
      var x := BreakLeavesAtTie(p.entities, pending, size);
      assert x in RowsUpTo(pending, token);
    }
    if e :| e in RowsUpTo(pending, token) && e !in p.entities {
      LeftAtTieBreaks(p.entities, pending, size, e);
    }
  }

  /** Rows of distinct mtimes form no group for a page to break. */
  lemma DistinctMtimesNeverBreak(pending: set<Entity>, size: nat)
    requires forall e, x :: e in pending && x in pending && MtimeOf(e) == MtimeOf(x) ==> e == x
    ensures !BreaksTie(pending, size)
  {
    forall m ensures !(|RowsBefore(pending, m)| < size < |RowsUpTo(pending, m)|) {
      var group := RowsUpTo(pending, m) - RowsBefore(pending, m);
      if e :| e in group { assert group == {e}; }
      assert RowsUpTo(pending, m) == RowsBefore(pending, m) + group;
    }
  }
}
