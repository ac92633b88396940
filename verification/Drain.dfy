/** A client that keeps asking with the tokens it was given, on a store nobody writes to; if it
    polls, with a sound cache. What it finds pending for its types is a function of what was pending
    at first: each request takes one page of at most MAX_GU_BATCH_SIZE rows off the front of the
    pools of its types, in order, and loses rows of a pool exactly when that page falls inside a
    group of one mtime. */
module Drain {
  import opened Basics
  import opened SyncEntities
  import opened MemoryCache
  import opened Tables
  import opened Query
  import opened GetUpdates
  import opened Paging
  import opened CacheSoundness

  // ---- pools ----

  /** The rows pending for one type. */
  type Pool = set<Entity>

  function Sum(ns: seq<nat>, n: nat): nat
    requires n <= |ns|
  {
    if n == 0 then 0 else Sum(ns, n - 1) + ns[n - 1]
  }

  function Sizes(ps: seq<Pool>): (ns: seq<nat>)
    ensures |ns| == |ps|
  {
    seq(|ps|, i requires 0 <= i < |ps| => |ps[i]|)
  }

  /** How many rows the first n pools hold. */
  function Amount(ps: seq<Pool>, n: nat): nat
    requires n <= |ps|
  {
    Sum(Sizes(ps), n)
  }

  function Total(ps: seq<Pool>): nat {
    Amount(ps, |ps|)
  }

  /** The page size that is left for pool n once the pools before it were served. */
  function RoomFor(ps: seq<Pool>, n: nat): nat
    requires n < |ps|
  {
    Max(0, MAX_GU_BATCH_SIZE - Amount(ps, n))
  }

  /** Serving the pools breaks a group of rows of pool n. */
  ghost predicate Breaks(ps: seq<Pool>, n: nat)
    requires n < |ps|
  {
    BreaksTie(ps[n], RoomFor(ps, n))
  }

  function Left(ps: seq<Pool>): (left: seq<Pool>)
    ensures |left| == |ps|
  {
    seq(|ps|, n requires 0 <= n < |ps| => RestOf(ps[n], RoomFor(ps, n)))
  }

  function LeftAfter(ps: seq<Pool>, rounds: nat): (left: seq<Pool>)
    ensures |left| == |ps|
  {
    if rounds == 0 then ps else Left(LeftAfter(ps, rounds - 1))
  }

  ghost predicate AllEmpty(ps: seq<Pool>) {
    forall i :: 0 <= i < |ps| ==> ps[i] == {}
  }

  lemma {:induction false} EmptyAmount(ps: seq<Pool>, n: nat)
    requires n <= |ps|
    ensures Amount(ps, n) == 0 <==> forall i :: 0 <= i < n ==> ps[i] == {}
  {
    if n > 0 { EmptyAmount(ps, n - 1); }
  }

  // ---- one request ----

  /** The first n visits of a request gave out a page of each pool. */
  ghost predicate Serves(ps: seq<Pool>, visits: seq<Visit>, n: nat) {
    && n <= |ps| == |visits| && AllAnswered(visits, n)
    && |Pages(visits, n)| == Min(MAX_GU_BATCH_SIZE, Amount(ps, n))
    && (forall i :: 0 <= i < n ==> IsFirstOf(visits[i].page.entities, ps[i], RoomFor(ps, i)))
    && (forall i :: 0 <= i < n ==> (visits[i].page.more <==> 0 < RoomFor(ps, i) < |ps[i]|))
  }

  /** The pools hold what each marker of the request would find. */
  ghost predicate PoolsOf(rows: map<Key, Entity>, c: GuContext, visits: seq<Visit>, ps: seq<Pool>) {
    && |ps| == |c.msg.markers| == |visits|
    && (forall i :: 0 <= i < |ps| ==>
          StartToken(c.msg.markers[i]).Varint?
          && ps[i] == PendingRows(rows, FilterFor(c, c.msg.markers[i], visits[i].now)))
  }

  lemma WasAnswered(rows: map<Key, Entity>, c: GuContext, kv: KV, visits: seq<Visit>, i: nat)
    requires Legal(rows, c, kv, visits) && i < |visits| && !Halted(Upto(c, kv, visits, |visits|))
    ensures !Halted(Upto(c, kv, visits, i)) && visits[i].page.Page?
    ensures LegalVisit(rows, c, Upto(c, kv, visits, i), c.msg.markers[i], visits[i])
  {
    HaltIsFinal(c, kv, visits, |visits|, i);
    ResponseIsPages(rows, c, kv, visits, |visits|);
    LegalAt(rows, c, kv, visits, |visits|, i);
  }

  /** The cache a polling client meets can be believed on the rows it looks at. */
  ghost predicate Believable(rows: map<Key, Entity>, c: GuContext, kv: KV, visits: seq<Visit>, since: int) {
    c.msg.origin.Periodic? ==>
      Sound(LookedAt(rows, FetchFolders(c.msg)), kv, since) && VisitsInOrder(since, visits)
  }

  lemma StaysBelievable(rows: map<Key, Entity>, c: GuContext, kv: KV, visits: seq<Visit>, since: int, n: nat)
    requires Believable(rows, c, kv, visits, since) && Legal(rows, c, kv, visits) && n < |visits|
    ensures c.msg.origin.Periodic? ==>
              Sound(LookedAt(rows, FetchFolders(c.msg)), Upto(c, kv, visits, n).kv, visits[n].now)
  {
    if c.msg.origin.Periodic? {
      OwnStampsKeepSound(rows, c, kv, visits, since, n);
      SoundLater(LookedAt(rows, FetchFolders(c.msg)), Upto(c, kv, visits, n).kv, LastVisit(since, visits, n),
                 visits[n].now);
    }
  }

  /** Whether the store is asked, the cache answers or the response is full, a marker gets a page of
      its pool. It says that more remains when it has room for some of the pool but not for all. */
  lemma VisitServes(rows: map<Key, Entity>, c: GuContext, st: GuState, m: InMarker, v: Visit, size: nat)
    requires c.msg.origin.Periodic? ==> Sound(LookedAt(rows, FetchFolders(c.msg)), st.kv, v.now)
    requires !Halted(st) && StartToken(m).Varint? && v.page.Page?
    requires LegalVisit(rows, c, st, m, v) && size == Max(0, Room(st))
    ensures IsFirstOf(v.page.entities, PendingRows(rows, FilterFor(c, m, v.now)), size)
    ensures v.page.more <==> 0 < size < |PendingRows(rows, FilterFor(c, m, v.now))|
  {
    if CacheSaysCurrent(c, st, m, v.now) { ShortCutFindsNothing(rows, c, st, m, v.now); }
  }

  lemma RoomIsShared(rows: map<Key, Entity>, c: GuContext, kv: KV, visits: seq<Visit>, ps: seq<Pool>, n: nat)
    requires Legal(rows, c, kv, visits) && n < |visits| && !Halted(Upto(c, kv, visits, n))
    requires Serves(ps, visits, n) && n < |ps|
    ensures Max(0, Room(Upto(c, kv, visits, n))) == RoomFor(ps, n)
  {
    LegalAt(rows, c, kv, visits, |visits|, n);
    ResponseIsPages(rows, c, kv, visits, n);
  }

  lemma PageFills(ps: seq<Pool>, visits: seq<Visit>, n: nat)
    requires n < |ps| == |visits| && AllAnswered(visits, n + 1)
    requires |Pages(visits, n)| == Min(MAX_GU_BATCH_SIZE, Amount(ps, n))
    requires |visits[n].page.entities| == Min(RoomFor(ps, n), |ps[n]|)
    ensures |Pages(visits, n + 1)| == Min(MAX_GU_BATCH_SIZE, Amount(ps, n + 1))
  {
    assert Amount(ps, n + 1) == Amount(ps, n) + |ps[n]|;
  }

  lemma PageServes(ps: seq<Pool>, visits: seq<Visit>, n: nat)
    requires Serves(ps, visits, n) && n < |ps| && visits[n].page.Page?
    requires IsFirstOf(visits[n].page.entities, ps[n], RoomFor(ps, n))
    requires visits[n].page.more <==> 0 < RoomFor(ps, n) < |ps[n]|
    ensures Serves(ps, visits, n + 1)
  {
    PageFills(ps, visits, n);
  }

  lemma OneMoreServed(rows: map<Key, Entity>, c: GuContext, kv: KV, visits: seq<Visit>, since: int, ps: seq<Pool>,
                      n: nat)
    requires Believable(rows, c, kv, visits, since) && PoolsOf(rows, c, visits, ps)
    requires Legal(rows, c, kv, visits) && n < |visits| && !Halted(Upto(c, kv, visits, |visits|))
    requires Serves(ps, visits, n)
    ensures Serves(ps, visits, n + 1)
  {
    WasAnswered(rows, c, kv, visits, n);
    RoomIsShared(rows, c, kv, visits, ps, n);
    StaysBelievable(rows, c, kv, visits, since, n);
    VisitServes(rows, c, Upto(c, kv, visits, n), c.msg.markers[n], visits[n], RoomFor(ps, n));
    PageServes(ps, visits, n);
  }

  lemma ServesNone(ps: seq<Pool>, visits: seq<Visit>)
    requires |ps| == |visits|
    ensures Serves(ps, visits, 0)
  {
  }

  /** A request that is answered gives out a page of every pool, and all the pages share its one
      page budget. */
  lemma RequestServes(rows: map<Key, Entity>, c: GuContext, kv: KV, visits: seq<Visit>, since: int, ps: seq<Pool>)
    requires Believable(rows, c, kv, visits, since) && PoolsOf(rows, c, visits, ps)
    requires Legal(rows, c, kv, visits) && !Halted(Upto(c, kv, visits, |visits|))
    ensures Serves(ps, visits, |ps|)
  {
    ServesNone(ps, visits);
    for n := 0 to |ps|
      invariant Serves(ps, visits, n)
    {
      OneMoreServed(rows, c, kv, visits, since, ps, n);
    }
  }

  lemma LeftOfPool(pool: Pool, es: seq<Entity>, size: nat)
    requires IsFirstOf(es, pool, size)
    ensures |RestOf(pool, size)| + |es| <= |pool|
    ensures |RestOf(pool, size)| + |es| == |pool| <==> !BreaksTie(pool, size)
  {
    PageAndRest(es, pool, size);
    var taken := Members(es) + RestOf(pool, size);
    assert |taken| == |RestOf(pool, size)| + |es|;
    if taken != pool { ProperSubsetIsSmaller(taken, pool); }
  }

  lemma {:induction false} SumsCompare(left: seq<nat>, given: seq<nat>, had: seq<nat>, n: nat)
    requires n <= |left| == |given| == |had|
    requires forall i :: 0 <= i < n ==> left[i] + given[i] <= had[i]
    ensures Sum(left, n) + Sum(given, n) <= Sum(had, n)
    ensures Sum(left, n) + Sum(given, n) == Sum(had, n) <==> forall i :: 0 <= i < n ==> left[i] + given[i] == had[i]
  {
    if n > 0 { SumsCompare(left, given, had, n - 1); }
  }

  function PageSizes(visits: seq<Visit>): (ns: seq<nat>)
    requires AllAnswered(visits, |visits|)
    ensures |ns| == |visits|
  {
    seq(|visits|, i requires 0 <= i < |visits| => |visits[i].page.entities|)
  }

  lemma {:induction false} PagesSum(visits: seq<Visit>, n: nat)
    requires AllAnswered(visits, |visits|) && n <= |visits|
    ensures |Pages(visits, n)| == Sum(PageSizes(visits), n)
  {
    if n > 0 { PagesSum(visits, n - 1); }
  }

  ghost predicate Accounts(ps: seq<Pool>, left: seq<nat>, given: seq<nat>, i: nat)
    requires i < |ps| == |left| == |given|
  {
    left[i] + given[i] <= |ps[i]| && (left[i] + given[i] == |ps[i]| <==> !Breaks(ps, i))
  }

  lemma PoolAccounts(ps: seq<Pool>, visits: seq<Visit>, i: nat)
    requires Serves(ps, visits, |ps|) && i < |ps|
    ensures Accounts(ps, Sizes(Left(ps)), PageSizes(visits), i)
  {
    LeftOfPool(ps[i], visits[i].page.entities, RoomFor(ps, i));
  }

  lemma SumsAccount(ps: seq<Pool>, left: seq<nat>, given: seq<nat>)
    requires |left| == |given| == |ps| && forall i :: 0 <= i < |ps| ==> Accounts(ps, left, given, i)
    ensures Sum(left, |ps|) + Sum(given, |ps|) <= Total(ps)
    ensures Sum(left, |ps|) + Sum(given, |ps|) == Total(ps) <==> forall i :: 0 <= i < |ps| ==> !Breaks(ps, i)
  {
    forall i | 0 <= i < |ps|
      ensures left[i] + given[i] <= Sizes(ps)[i]
      ensures left[i] + given[i] == Sizes(ps)[i] <==> !Breaks(ps, i)
    {
      assert Accounts(ps, left, given, i);
    }
    SumsCompare(left, given, Sizes(ps), |ps|);
  }

  /** What is left is at most what was there less what was given out, and exactly that if and
      only if no group was broken. */
  lemma LeftAmount(ps: seq<Pool>, visits: seq<Visit>)
    requires Serves(ps, visits, |ps|)
    ensures Total(Left(ps)) + Min(MAX_GU_BATCH_SIZE, Total(ps)) <= Total(ps)
    ensures Total(Left(ps)) + Min(MAX_GU_BATCH_SIZE, Total(ps)) == Total(ps)
            <==> forall i :: 0 <= i < |ps| ==> !Breaks(ps, i)
  {
    forall i | 0 <= i < |ps| ensures Accounts(ps, Sizes(Left(ps)), PageSizes(visits), i) {
      PoolAccounts(ps, visits, i);
    }
    SumsAccount(ps, Sizes(Left(ps)), PageSizes(visits));
    PagesSum(visits, |ps|);
  }

  // ---- what a response says of the rest ----

  lemma {:induction false} AmountGrows(ps: seq<Pool>, i: nat, j: nat)
    requires i <= j <= |ps|
    ensures Amount(ps, i) <= Amount(ps, j)
  {
    if i < j { AmountGrows(ps, i, j - 1); }
  }

  /** The page budget runs out exactly between two pools, or inside one. */
  ghost predicate FillsAt(ps: seq<Pool>, i: nat) {
    i <= |ps| && Amount(ps, i) == MAX_GU_BATCH_SIZE
  }

  ghost predicate RunsOutIn(ps: seq<Pool>, i: nat) {
    i < |ps| && 0 < RoomFor(ps, i) < |ps[i]|
  }

  lemma RoomAndAmount(ps: seq<Pool>, i: nat)
    requires i < |ps|
    ensures RunsOutIn(ps, i) <==> Amount(ps, i) < MAX_GU_BATCH_SIZE < Amount(ps, i + 1)
  {
    assert Amount(ps, i + 1) == Amount(ps, i) + |ps[i]|;
  }

  lemma {:induction false} BudgetRunsOut(ps: seq<Pool>, n: nat) returns (i: nat)
    requires n <= |ps| && Amount(ps, n) > MAX_GU_BATCH_SIZE
    ensures FillsAt(ps, i) || RunsOutIn(ps, i)
    decreases n
  {
    assert n > 0;
    if Amount(ps, n - 1) > MAX_GU_BATCH_SIZE {
      i := BudgetRunsOut(ps, n - 1);
    } else {
      RoomAndAmount(ps, n - 1);
      i := n - 1;
    }
  }

  lemma FillsOrRunsOut(ps: seq<Pool>, i: nat, j: nat)
    requires FillsAt(ps, i) && j < |ps|
    ensures !RunsOutIn(ps, j)
  {
    RoomAndAmount(ps, j);
    if i <= j { AmountGrows(ps, i, j); } else { AmountGrows(ps, j + 1, i); }
  }

  /** More than a page is pending, and the first i types for some i hold exactly a page of it. */
  ghost predicate FillsExactly(ps: seq<Pool>) {
    Total(ps) > MAX_GU_BATCH_SIZE && exists i :: FillsAt(ps, i)
  }

  lemma NobodyRunsOut(ps: seq<Pool>)
    ensures (forall i :: 0 <= i < |ps| ==> !RunsOutIn(ps, i)) <==> Total(ps) <= MAX_GU_BATCH_SIZE || FillsExactly(ps)
  {
    if Total(ps) > MAX_GU_BATCH_SIZE {
      var i := BudgetRunsOut(ps, |ps|);
      if FillsExactly(ps) {
        var j :| FillsAt(ps, j);
        forall k | 0 <= k < |ps| ensures !RunsOutIn(ps, k) {
          FillsOrRunsOut(ps, j, k);
        }
      }
    } else {
      forall k | 0 <= k < |ps| ensures !RunsOutIn(ps, k) {
        RoomAndAmount(ps, k);
        AmountGrows(ps, k + 1, |ps|);
      }
    }
  }

  lemma {:induction false} NextNonEmpty(ps: seq<Pool>, i: nat) returns (j: nat)
    requires i <= |ps| && Amount(ps, i) < Total(ps)
    ensures i <= j < |ps| && ps[j] != {}
    decreases |ps| - i
  {
    if ps[i] != {} {
      j := i;
    } else {
      assert Amount(ps, i + 1) == Amount(ps, i) + |ps[i]|;
      j := NextNonEmpty(ps, i + 1);
    }
  }

  lemma FillsLeavesRows(ps: seq<Pool>)
    requires FillsExactly(ps)
    ensures !AllEmpty(Left(ps))
  {
    var i :| FillsAt(ps, i);
    var j := NextNonEmpty(ps, i);
    AmountGrows(ps, i, j);
    assert Left(ps)[j] == RestOf(ps[j], 0) == ps[j];
  }

  /** ChangesRemaining 0 means that no more than a page was pending, or that a page boundary fell
      between two types. */
  lemma RemainingMeaning(rows: map<Key, Entity>, c: GuContext, kv: KV, visits: seq<Visit>, ps: seq<Pool>)
    requires Legal(rows, c, kv, visits) && !Halted(Result(c, kv, visits)) && Serves(ps, visits, |ps|)
    ensures Result(c, kv, visits).rsp.changesRemaining == 0 <==> Total(ps) <= MAX_GU_BATCH_SIZE || FillsExactly(ps)
  {
    ResponseIsPages(rows, c, kv, visits, |visits|);
    assert forall i :: 0 <= i < |ps| ==> (visits[i].page.more <==> RunsOutIn(ps, i));
    NobodyRunsOut(ps);
  }

  /** A response says wrongly that nothing remains, while rows of a listed type are pending beyond
      the tokens it hands back, if and only if more than a page was pending and a page boundary fell
      between two of the listed types. */
  lemma HidesPending(rows: map<Key, Entity>, c: GuContext, kv: KV, visits: seq<Visit>, ps: seq<Pool>)
    requires Legal(rows, c, kv, visits) && !Halted(Result(c, kv, visits)) && Serves(ps, visits, |ps|)
    ensures (Result(c, kv, visits).rsp.changesRemaining == 0 && !AllEmpty(Left(ps))) <==> FillsExactly(ps)
  {
    RemainingMeaning(rows, c, kv, visits, ps);
    if FillsExactly(ps) { FillsLeavesRows(ps); }
    if Total(ps) <= MAX_GU_BATCH_SIZE {
      LeftAmount(ps, visits);
      EmptyAmount(Left(ps), |ps|);
    }
  }

  // ---- the client ----

  /** One request of the client: the cache it met, and when, and the answers it got. */
  datatype Round = Round(kv: KV, since: int, visits: seq<Visit>)

  /** The client keeps its origin, folder choice and types; only the tokens move. */
  datatype Client = Client(id: ClientId, origin: Origin, fetchFolders: Option<bool>, types: seq<int>)

  function Request(cl: Client, tokens: seq<int>): GuContext
    requires |tokens| == |cl.types|
  {
    GuContext(cl.id, GuMsg(cl.origin, cl.fetchFolders,
      seq(|tokens|, i requires 0 <= i < |tokens| => InMarker(cl.types[i], Some(Varint(tokens[i]))))), true)
  }

  function PoolFilter(cl: Client, tokens: seq<int>, nowSec: int, i: nat): Filter
    requires i < |tokens| == |cl.types|
  {
    Filter(cl.id, cl.types[i], tokens[i], GetOr(cl.fetchFolders, true), nowSec)
  }

  /** What is pending for each type of the client beyond its token. */
  function Pools(rows: map<Key, Entity>, cl: Client, tokens: seq<int>, nowSec: int): seq<Pool>
    requires |tokens| == |cl.types|
  {
    seq(|tokens|, i requires 0 <= i < |tokens| => PendingRows(rows, PoolFilter(cl, tokens, nowSec, i)))
  }

  /** No row expires between the two moments. */
  ghost predicate SameExpiry(rows: map<Key, Entity>, sec: int, sec': int) {
    forall k :: k in rows ==> (NotExpired(rows[k], sec) <==> NotExpired(rows[k], sec'))
  }

  lemma SameExpirySamePending(rows: map<Key, Entity>, f: Filter, sec: int)
    requires SameExpiry(rows, f.nowSec, sec)
    ensures PendingRows(rows, f) == PendingRows(rows, f.(nowSec := sec))
  {
  }

  /** A request that is answered without error, and during which no row expires; a client that
      polls meets a sound cache. */
  ghost predicate GoodRound(rows: map<Key, Entity>, cl: Client, tokens: seq<int>, nowSec: int, r: Round)
    requires |tokens| == |cl.types|
  {
    && Legal(rows, Request(cl, tokens), r.kv, r.visits)
    && Result(Request(cl, tokens), r.kv, r.visits).rsp.status.Ok?
    && (forall i :: 0 <= i < |r.visits| ==> SameExpiry(rows, r.visits[i].now / 1000, nowSec))
    && Believable(rows, Request(cl, tokens), r.kv, r.visits, r.since)
  }

  ghost function ResponseOf(cl: Client, tokens: seq<int>, r: Round): GuResponse
    requires |r.visits| == |tokens| == |cl.types|
  {
    Result(Request(cl, tokens), r.kv, r.visits).rsp
  }

  /** The tokens of the next request are those this response hands back. */
  ghost predicate FeedsBack(cl: Client, tokens: seq<int>, r: Round, next: seq<int>)
    requires |r.visits| == |tokens| == |cl.types|
  {
    var ms := ResponseOf(cl, tokens, r).markers;
    && |next| == |ms| == |tokens|
    && (forall i :: 0 <= i < |next| ==> ms[i].token == Varint(next[i]))
  }

  /** The page a round gave out for type i. */
  function PageAt(r: Round, i: nat): seq<Entity> {
    if i < |r.visits| && r.visits[i].page.Page? then r.visits[i].page.entities else []
  }

  lemma RoundPools(rows: map<Key, Entity>, cl: Client, tokens: seq<int>, nowSec: int, r: Round)
    requires |tokens| == |cl.types| && GoodRound(rows, cl, tokens, nowSec, r)
    ensures PoolsOf(rows, Request(cl, tokens), r.visits, Pools(rows, cl, tokens, nowSec))
  {
    var c, ps := Request(cl, tokens), Pools(rows, cl, tokens, nowSec);
    forall i | 0 <= i < |ps|
      ensures ps[i] == PendingRows(rows, FilterFor(c, c.msg.markers[i], r.visits[i].now))
    {
      var f := FilterFor(c, c.msg.markers[i], r.visits[i].now);
      assert f.(nowSec := nowSec) == PoolFilter(cl, tokens, nowSec, i);
      SameExpirySamePending(rows, f, nowSec);
    }
  }

  /** The token handed back leaves pending what a page of that size leaves of the pool. */
  lemma NextPool(rows: map<Key, Entity>, f: Filter, es: seq<Entity>, size: nat)
    requires IsFirstOf(es, PendingRows(rows, f), size)
    ensures PendingRows(rows, f.(token := NextToken(f.token, es))) == RestOf(PendingRows(rows, f), size)
  {
    var pool, next := PendingRows(rows, f), PendingRows(rows, f.(token := NextToken(f.token, es)));
    if es != [] { assert es[|es| - 1] in pool; }
    forall e | e in pool ensures e in next <==> e in RestOf(pool, size) {
      RestIsNewer(es, pool, size, e);
    }
    assert next <= pool;
  }

  /** One answered request: a full response or all that is pending, a page of every pool, and
      what is pending afterwards is what those pages leave of the pools. */
  lemma RoundServes(rows: map<Key, Entity>, cl: Client, tokens: seq<int>, nowSec: int, r: Round, next: seq<int>)
    requires |tokens| == |cl.types|
    requires GoodRound(rows, cl, tokens, nowSec, r) && FeedsBack(cl, tokens, r, next)
    ensures var ps := Pools(rows, cl, tokens, nowSec);
            && Serves(ps, r.visits, |ps|)
            && ResponseOf(cl, tokens, r).entries == ToPb(Pages(r.visits, |ps|))
            && |ResponseOf(cl, tokens, r).entries| == Min(MAX_GU_BATCH_SIZE, Total(ps))
            && Pools(rows, cl, next, nowSec) == Left(ps)
  {
    var c, ps := Request(cl, tokens), Pools(rows, cl, tokens, nowSec);
    RoundPools(rows, cl, tokens, nowSec, r);
    RequestServes(rows, c, r.kv, r.visits, r.since, ps);
    ResponseIsPages(rows, c, r.kv, r.visits, |r.visits|);
    forall i | 0 <= i < |ps| ensures Pools(rows, cl, next, nowSec)[i] == Left(ps)[i] {
      assert next[i] == NextToken(tokens[i], r.visits[i].page.entities);
      NextPool(rows, PoolFilter(cl, tokens, nowSec, i), r.visits[i].page.entities, RoomFor(ps, i));
    }
  }

  // ---- sessions ----

  /** A session: requests one after the other, each with the tokens the one before returned. */
  datatype Session = Session(tokens: seq<seq<int>>, rounds: seq<Round>)

  ghost predicate GoodSession(rows: map<Key, Entity>, cl: Client, nowSec: int, s: Session) {
    && |s.tokens| == |s.rounds| + 1
    && (forall k :: 0 <= k < |s.tokens| ==> |s.tokens[k]| == |cl.types|)
    && (forall k :: 0 <= k < |s.rounds| ==>
          GoodRound(rows, cl, s.tokens[k], nowSec, s.rounds[k])
          && FeedsBack(cl, s.tokens[k], s.rounds[k], s.tokens[k + 1]))
  }

  /** What is pending before each round, and after the last. */
  ghost function History(rows: map<Key, Entity>, cl: Client, nowSec: int, s: Session): (h: seq<seq<Pool>>)
    requires GoodSession(rows, cl, nowSec, s)
    ensures |h| == |s.rounds| + 1
  {
    seq(|s.tokens|, k requires 0 <= k < |s.tokens| => Pools(rows, cl, s.tokens[k], nowSec))
  }

  ghost predicate PlaysAt(before: seq<Pool>, r: Round, after: seq<Pool>) {
    Serves(before, r.visits, |before|) && after == Left(before)
  }

  /** Each round gives out pages of the pools before it and leaves the pools after it. */
  ghost predicate Plays(h: seq<seq<Pool>>, s: Session) {
    |h| == |s.rounds| + 1 && forall k :: 0 <= k < |s.rounds| ==> PlaysAt(h[k], s.rounds[k], h[k + 1])
  }

  lemma RoundPlays(rows: map<Key, Entity>, cl: Client, nowSec: int, s: Session, k: nat)
    requires GoodSession(rows, cl, nowSec, s) && k < |s.rounds|
    ensures var h := History(rows, cl, nowSec, s);
            PlaysAt(h[k], s.rounds[k], h[k + 1])
  {
    RoundServes(rows, cl, s.tokens[k], nowSec, s.rounds[k], s.tokens[k + 1]);
  }

  lemma SessionPlays(rows: map<Key, Entity>, cl: Client, nowSec: int, s: Session)
    requires GoodSession(rows, cl, nowSec, s)
    ensures Plays(History(rows, cl, nowSec, s), s)
  {
    var h := History(rows, cl, nowSec, s);
    forall k | 0 <= k < |s.rounds| ensures PlaysAt(h[k], s.rounds[k], h[k + 1]) {
      RoundPlays(rows, cl, nowSec, s, k);
    }
  }

  lemma PlayedLeft(h: seq<seq<Pool>>, s: Session, k: nat)
    requires Plays(h, s) && k < |s.rounds|
    ensures h[k + 1] == Left(h[k])
  {
    assert PlaysAt(h[k], s.rounds[k], h[k + 1]);
  }

  lemma OneMoreLeft(ps: seq<Pool>, before: seq<Pool>, after: seq<Pool>, k: nat)
    requires before == LeftAfter(ps, k) && after == Left(before)
    ensures after == LeftAfter(ps, k + 1)
  {
  }

  lemma PlayFollows(h: seq<seq<Pool>>, s: Session, n: nat)
    requires Plays(h, s) && n <= |s.rounds|
    ensures h[n] == LeftAfter(h[0], n)
  {
    for k := 0 to n
      invariant h[k] == LeftAfter(h[0], k)
    {
      PlayedLeft(h, s, k);
      OneMoreLeft(h[0], h[k], h[k + 1], k);
    }
  }

  /** What is pending before a round depends only on what was pending at first, not on the order
      in which the store returned rows of one mtime. */
  lemma SessionFollowsPools(rows: map<Key, Entity>, cl: Client, nowSec: int, s: Session, k: nat)
    requires GoodSession(rows, cl, nowSec, s) && k <= |s.rounds|
    ensures History(rows, cl, nowSec, s)[k] == LeftAfter(History(rows, cl, nowSec, s)[0], k)
  {
    SessionPlays(rows, cl, nowSec, s);
    PlayFollows(History(rows, cl, nowSec, s), s, k);
  }

  /** Response k is full or holds all that is pending: any pending row makes it non-empty. */
  lemma SessionResponse(rows: map<Key, Entity>, cl: Client, nowSec: int, s: Session, k: nat)
    requires GoodSession(rows, cl, nowSec, s) && k < |s.rounds|
    ensures var ps, entries := History(rows, cl, nowSec, s)[k], ResponseOf(cl, s.tokens[k], s.rounds[k]).entries;
            && |entries| == Min(MAX_GU_BATCH_SIZE, Total(ps))
            && (!AllEmpty(ps) ==> entries != [])
  {
    RoundServes(rows, cl, s.tokens[k], nowSec, s.rounds[k], s.tokens[k + 1]);
    var ps := History(rows, cl, nowSec, s)[k];
    EmptyAmount(ps, |ps|);
  }

  /** No page of the first n rounds broke a group of rows of one mtime of type i. */
  ghost predicate NeverBroke(h: seq<seq<Pool>>, i: nat, n: nat)
    requires n <= |h|
  {
    forall k :: 0 <= k < n ==> i < |h[k]| && !Breaks(h[k], i)
  }

  lemma PlayedSize(h: seq<seq<Pool>>, s: Session, k: nat)
    requires Plays(h, s) && k <= |s.rounds|
    ensures |h[k]| == |h[0]|
  {
    var n := |h[0]|;
    for j := 0 to k
      invariant |h[j]| == n
    {
      PlayedLeft(h, s, j);
    }
  }

  ghost predicate DistinctMtimes(pool: Pool) {
    forall e, x :: e in pool && x in pool && MtimeOf(e) == MtimeOf(x) ==> e == x
  }

  ghost predicate AllDistinct(ps: seq<Pool>) {
    forall i :: 0 <= i < |ps| ==> DistinctMtimes(ps[i])
  }

  lemma LeftOfDistinct(ps: seq<Pool>, visits: seq<Visit>)
    requires Serves(ps, visits, |ps|) && AllDistinct(ps)
    ensures AllDistinct(Left(ps))
    ensures forall i :: 0 <= i < |ps| ==> !Breaks(ps, i)
    ensures Total(Left(ps)) == Max(0, Total(ps) - MAX_GU_BATCH_SIZE)
  {
    forall i | 0 <= i < |ps| ensures !Breaks(ps, i) && Left(ps)[i] <= ps[i] {
      DistinctMtimesNeverBreak(ps[i], RoomFor(ps, i));
    }
    LeftAmount(ps, visits);
  }

  lemma RoundShrinks(h: seq<seq<Pool>>, s: Session, k: nat)
    requires Plays(h, s) && k < |s.rounds|
    ensures Total(h[k + 1]) <= Max(0, Total(h[k]) - MAX_GU_BATCH_SIZE)
    ensures AllDistinct(h[k]) ==>
              AllDistinct(h[k + 1]) && Total(h[k + 1]) == Max(0, Total(h[k]) - MAX_GU_BATCH_SIZE)
  {
    assert PlaysAt(h[k], s.rounds[k], h[k + 1]);
    LeftAmount(h[k], s.rounds[k].visits);
    if AllDistinct(h[k]) { LeftOfDistinct(h[k], s.rounds[k].visits); }
  }

  lemma ShrinksTwice(total: nat, before: nat, after: nat, k: nat)
    requires before <= Max(0, total - MAX_GU_BATCH_SIZE * k) && after <= Max(0, before - MAX_GU_BATCH_SIZE)
    ensures after <= Max(0, total - MAX_GU_BATCH_SIZE * (k + 1))
  {
  }

  /** The session never takes longer than its rows take up full responses. */
  lemma SessionShrinks(h: seq<seq<Pool>>, s: Session, n: nat)
    requires Plays(h, s) && n <= |s.rounds|
    ensures Total(h[n]) <= Max(0, Total(h[0]) - MAX_GU_BATCH_SIZE * n)
  {
    var total := Total(h[0]);
    for k := 0 to n
      invariant Total(h[k]) <= Max(0, total - MAX_GU_BATCH_SIZE * k)
    {
      RoundShrinks(h, s, k);
      ShrinksTwice(total, Total(h[k]), Total(h[k + 1]), k);
    }
  }

  /** Everything the first n rounds gave out for type i. */
  function Received(s: Session, i: nat, n: nat): seq<Entity>
    requires n <= |s.rounds|
  {
    if n == 0 then [] else Received(s, i, n - 1) + PageAt(s.rounds[n - 1], i)
  }

  /** What was received of a pool and what is left of it: rows of the pool, none twice, oldest
      first, all received ones older than all left ones. */
  ghost predicate Splits(got: seq<Entity>, left: Pool, pool: Pool) {
    && NoRepeats(got) && SortedByMtime(got) && left <= pool
    && (forall e :: e in got ==> e in pool)
    && (forall e, x :: e in got && x in left ==> MtimeOf(e) < MtimeOf(x))
  }

  lemma OneMorePageSplits(got: seq<Entity>, left: Pool, pool: Pool, es: seq<Entity>, size: nat)
    requires Splits(got, left, pool) && IsFirstOf(es, left, size)
    ensures Splits(got + es, RestOf(left, size), pool)
  {
    var rest := RestOf(left, size);
    forall i, j | 0 <= i < j < |got + es|
      ensures (got + es)[i] != (got + es)[j] && MtimeOf((got + es)[i]) <= MtimeOf((got + es)[j])
    {
      if i < |got| <= j { assert (got + es)[i] in got && (got + es)[j] in es; }
    }
    forall e, x | e in got + es && x in rest ensures MtimeOf(e) < MtimeOf(x) {
      if e !in got {
        RestIsNewer(es, left, size, x);
        var n :| 0 <= n < |es| && es[n] == e;
      }
    }
  }

  lemma SplitFurther(got: Pool, left: Pool, kept: Pool, pool: Pool)
    requires got !! left && kept <= left && got + left <= pool
    ensures got + kept == pool <==> got + left == pool && kept == left
  {
    assert forall x :: x in left ==> x !in got;
    assert forall x :: x in got + kept ==> x in got + left;
  }

  /** Nothing of the pool is lost by a page if and only if nothing was before and it breaks no
      group. */
  lemma OneMorePageKeeps(got: seq<Entity>, left: Pool, pool: Pool, es: seq<Entity>, size: nat)
    requires Splits(got, left, pool) && IsFirstOf(es, left, size)
    ensures Members(got + es) + RestOf(left, size) == pool
            <==> Members(got) + left == pool && !BreaksTie(left, size)
  {
    var kept := Members(es) + RestOf(left, size);
    PageAndRest(es, left, size);
    assert forall e :: e in Members(got) && e in left ==> MtimeOf(e) < MtimeOf(e);
    SplitFurther(Members(got), left, kept, pool);
    assert Members(got + es) + RestOf(left, size) == Members(got) + kept;
  }

  /** The state of type i after n rounds: of the rows pending at first some were received and
      some are left, and these are all if and only if no page broke a group. */
  ghost predicate SplitsAt(h: seq<seq<Pool>>, s: Session, i: nat, n: nat)
    requires n <= |s.rounds| && n < |h| && i < |h[n]| && i < |h[0]|
  {
    && Splits(Received(s, i, n), h[n][i], h[0][i])
    && (Members(Received(s, i, n)) + h[n][i] == h[0][i] <==> NeverBroke(h, i, n))
  }

  lemma PlayedPage(h: seq<seq<Pool>>, s: Session, i: nat, k: nat)
    requires Plays(h, s) && k < |s.rounds| && i < |h[k]| && i < |h[k + 1]|
    ensures IsFirstOf(PageAt(s.rounds[k], i), h[k][i], RoomFor(h[k], i))
    ensures h[k + 1][i] == RestOf(h[k][i], RoomFor(h[k], i))
  {
    assert PlaysAt(h[k], s.rounds[k], h[k + 1]);
  }

  lemma NeverBrokeNext(h: seq<seq<Pool>>, i: nat, n: nat)
    requires n < |h| && i < |h[n]|
    ensures NeverBroke(h, i, n + 1) <==> NeverBroke(h, i, n) && !Breaks(h[n], i)
  {
  }

  lemma OneMoreRoundSplits(h: seq<seq<Pool>>, s: Session, i: nat, n: nat)
    requires Plays(h, s) && n < |s.rounds| && i < |h[0]| && i < |h[n]| && i < |h[n + 1]|
    requires SplitsAt(h, s, i, n)
    ensures SplitsAt(h, s, i, n + 1)
  {
    var es, size := PageAt(s.rounds[n], i), RoomFor(h[n], i);
    PlayedPage(h, s, i, n);
    OneMorePageSplits(Received(s, i, n), h[n][i], h[0][i], es, size);
    OneMorePageKeeps(Received(s, i, n), h[n][i], h[0][i], es, size);
    NeverBrokeNext(h, i, n);
  }

  lemma NothingYet(h: seq<seq<Pool>>, s: Session, i: nat)
    requires 0 < |h| && i < |h[0]|
    ensures SplitsAt(h, s, i, 0)
  {
    assert Members([]) + h[0][i] == h[0][i];
  }

  lemma SessionSplits(h: seq<seq<Pool>>, s: Session, i: nat, n: nat)
    requires Plays(h, s) && n <= |s.rounds| && i < |h[0]|
    ensures i < |h[n]| && SplitsAt(h, s, i, n)
  {
    NothingYet(h, s, i);
    for k := 0 to n
      invariant i < |h[k]| && SplitsAt(h, s, i, k)
    {
      PlayedSize(h, s, k + 1);
      OneMoreRoundSplits(h, s, i, k);
    }
  }

  lemma SessionEnds(h: seq<seq<Pool>>, s: Session)
    requires Plays(h, s) && MAX_GU_BATCH_SIZE * |s.rounds| >= Total(h[0])
    ensures AllEmpty(h[|s.rounds|])
  {
    SessionShrinks(h, s, |s.rounds|);
    EmptyAmount(h[|s.rounds|], |h[|s.rounds|]|);
  }

  /** Type i's rows have arrived oldest first and none twice; once nothing of the type is pending,
      all of them have if and only if no request's page broke a group of them. */
  lemma TypeArrives(h: seq<seq<Pool>>, s: Session, i: nat)
    requires Plays(h, s) && i < |h[0]|
    ensures var n, got := |s.rounds|, Received(s, i, |s.rounds|);
            && NoRepeats(got) && SortedByMtime(got) && Members(got) <= h[0][i]
            && i < |h[n]| && (h[n][i] == {} ==> (Members(got) == h[0][i] <==> NeverBroke(h, i, n)))
  {
    var n, got := |s.rounds|, Received(s, i, |s.rounds|);
    SessionSplits(h, s, i, n);
    assert Members(got) + {} == Members(got);
  }

  /** Every session is over after at most Total / MAX_GU_BATCH_SIZE requests, rounded up: from
      then on nothing is pending for any type. Each type's rows have arrived oldest first and
      none twice; and all of them have, once each, if and only if no request's page broke a
      group of them. */
  lemma DrainCompletes(rows: map<Key, Entity>, cl: Client, nowSec: int, s: Session)
    requires GoodSession(rows, cl, nowSec, s)
    ensures var n, h := |s.rounds|, History(rows, cl, nowSec, s);
            && (MAX_GU_BATCH_SIZE * n >= Total(h[0]) ==> AllEmpty(h[n]))
            && (forall i :: 0 <= i < |cl.types| ==>
                  var got := Received(s, i, n);
                  NoRepeats(got) && SortedByMtime(got) && Members(got) <= h[0][i])
            && (forall i :: 0 <= i < |cl.types| ==>
                  (h[n][i] == {} ==> (Members(Received(s, i, n)) == h[0][i] <==> NeverBroke(h, i, n))))
  {
    var h := History(rows, cl, nowSec, s);
    SessionPlays(rows, cl, nowSec, s);
    if MAX_GU_BATCH_SIZE * |s.rounds| >= Total(h[0]) { SessionEnds(h, s); }
    forall i | 0 <= i < |cl.types|
      ensures var n, got := |s.rounds|, Received(s, i, |s.rounds|);
              && NoRepeats(got) && SortedByMtime(got) && Members(got) <= h[0][i]
              && (h[n][i] == {} ==> (Members(got) == h[0][i] <==> NeverBroke(h, i, n)))
    {
      TypeArrives(h, s, i);
    }
  }

  lemma DistinctShrinks(h: seq<seq<Pool>>, s: Session, n: nat)
    requires Plays(h, s) && n <= |s.rounds| && AllDistinct(h[0])
    ensures AllDistinct(h[n]) && Total(h[n]) == Max(0, Total(h[0]) - MAX_GU_BATCH_SIZE * n)
  {
    var total := Total(h[0]);
    for k := 0 to n
      invariant AllDistinct(h[k]) && Total(h[k]) == Max(0, total - MAX_GU_BATCH_SIZE * k)
    {
      RoundShrinks(h, s, k);
    }
  }

  lemma DistinctNeverBroke(h: seq<seq<Pool>>, s: Session, i: nat, n: nat)
    requires Plays(h, s) && n <= |s.rounds| && AllDistinct(h[0]) && i < |h[0]|
    ensures NeverBroke(h, i, n)
  {
    forall k | 0 <= k < n ensures i < |h[k]| && !Breaks(h[k], i) {
      PlayedSize(h, s, k);
      DistinctShrinks(h, s, k);
      assert PlaysAt(h[k], s.rounds[k], h[k + 1]);
      LeftOfDistinct(h[k], s.rounds[k].visits);
    }
  }

  /** Where the rows of each type have distinct mtimes, the client is done after exactly
      Total / MAX_GU_BATCH_SIZE requests, rounded up, and then has every row once. */
  lemma DistinctMtimesDrainExactly(rows: map<Key, Entity>, cl: Client, nowSec: int, s: Session)
    requires GoodSession(rows, cl, nowSec, s) && AllDistinct(History(rows, cl, nowSec, s)[0])
    ensures var n, h := |s.rounds|, History(rows, cl, nowSec, s);
            && (AllEmpty(h[n]) <==> MAX_GU_BATCH_SIZE * n >= Total(h[0]))
            && (AllEmpty(h[n]) ==> forall i :: 0 <= i < |cl.types| ==> Members(Received(s, i, n)) == h[0][i])
  {
    var n, h := |s.rounds|, History(rows, cl, nowSec, s);
    SessionPlays(rows, cl, nowSec, s);
    DistinctShrinks(h, s, n);
    EmptyAmount(h[n], |h[n]|);
    forall i | 0 <= i < |cl.types| ensures h[n][i] == {} ==> Members(Received(s, i, n)) == h[0][i] {
      DistinctNeverBroke(h, s, i, n);
      TypeArrives(h, s, i);
    }
  }

  // ---- every client can be served ----

  lemma VisitExists(rows: map<Key, Entity>, c: GuContext, st: GuState, m: InMarker, now: int) returns (v: Visit)
    requires !Halted(st) && !c.msg.origin.NewClient? && StartToken(m).Varint?
    requires |st.rsp.entries| <= MAX_GU_BATCH_SIZE
    ensures v.now == now && LegalVisit(rows, c, st, m, v) && !Halted(Next(c, st, m, v))
  {
    if Queries(c, st, m, now) {
      var pending := PendingRows(rows, FilterFor(c, m, now));
      var es := FirstExists(pending, Room(st));
      v := Visit(now, Page(|pending| > Room(st), es));
    } else {
      v := Visit(now, EMPTY_PAGE);
    }
  }

  /** A request with well-formed tokens, of a client that is not new, has an answer. */
  lemma RequestExists(rows: map<Key, Entity>, c: GuContext, kv: KV, now: int) returns (visits: seq<Visit>)
    requires !c.msg.origin.NewClient?
    requires forall i :: 0 <= i < |c.msg.markers| ==> StartToken(c.msg.markers[i]).Varint?
    ensures Legal(rows, c, kv, visits) && !Halted(Result(c, kv, visits))
    ensures forall i :: 0 <= i < |visits| ==> visits[i].now == now
  {
    visits := [];
    for n := 0 to |c.msg.markers|
      invariant |visits| == n && LegalUpto(rows, c, kv, visits, n) && !Halted(Upto(c, kv, visits, n))
      invariant forall i :: 0 <= i < |visits| ==> visits[i].now == now
    {
      ResponseShape(rows, c, kv, visits, n);
      var v := VisitExists(rows, c, Upto(c, kv, visits, n), c.msg.markers[n], now);
      OneMoreVisit(rows, c, kv, visits, v);
      visits := visits + [v];
    }
  }

  lemma RoundExists(rows: map<Key, Entity>, cl: Client, tokens: seq<int>, nowSec: int)
    returns (r: Round, next: seq<int>)
    requires |tokens| == |cl.types| && !cl.origin.NewClient?
    ensures GoodRound(rows, cl, tokens, nowSec, r) && FeedsBack(cl, tokens, r, next)
  {
    var c, now := Request(cl, tokens), nowSec * 1000;
    var visits := RequestExists(rows, c, map[], now);
    r := Round(map[], now, visits);
    ResponseIsPages(rows, c, r.kv, visits, |visits|);
    next := seq(|tokens|, i requires 0 <= i < |tokens| => NextToken(tokens[i], PageAt(r, i)));
  }

  lemma OneMoreRound(rows: map<Key, Entity>, cl: Client, nowSec: int, s: Session, r: Round, next: seq<int>)
    requires GoodSession(rows, cl, nowSec, s) && |next| == |cl.types|
    requires GoodRound(rows, cl, s.tokens[|s.rounds|], nowSec, r) && FeedsBack(cl, s.tokens[|s.rounds|], r, next)
    ensures GoodSession(rows, cl, nowSec, Session(s.tokens + [next], s.rounds + [r]))
  {
    var more := Session(s.tokens + [next], s.rounds + [r]);
    forall k | 0 <= k < |more.rounds|
      ensures GoodRound(rows, cl, more.tokens[k], nowSec, more.rounds[k])
      ensures FeedsBack(cl, more.tokens[k], more.rounds[k], more.tokens[k + 1])
    {
      if k < |s.rounds| {
        assert more.tokens[k] == s.tokens[k] && more.rounds[k] == s.rounds[k] && more.tokens[k + 1] == s.tokens[k + 1];
      }
    }
  }

  /** Every client that is not new can keep asking, on every store, from any tokens. */
  lemma {:induction false} SessionExists(rows: map<Key, Entity>, cl: Client, tokens: seq<int>, nowSec: int, n: nat)
    returns (s: Session)
    requires |tokens| == |cl.types| && !cl.origin.NewClient?
    ensures GoodSession(rows, cl, nowSec, s) && |s.rounds| == n && s.tokens[0] == tokens
  {
    if n == 0 {
      s := Session([tokens], []);
    } else {
      var before := SessionExists(rows, cl, tokens, nowSec, n - 1);
      var r, next := RoundExists(rows, cl, before.tokens[n - 1], nowSec);
      OneMoreRound(rows, cl, nowSec, before, r, next);
      s := Session(before.tokens + [next], before.rounds + [r]);
    }
  }

  // ---- what a client can miss ----

  lemma PageOfTwins(es: seq<Entity>, pool: Pool, x: Entity, y: Entity)
    requires pool == {x, y} && x != y && MtimeOf(x) == MtimeOf(y) && IsFirstOf(es, pool, 1)
    ensures (es == [x] || es == [y]) && RestOf(pool, 1) == {}
  {
    assert |pool| == 2;
    assert es[0] in es;
    assert RowsBefore(pool, MtimeOf(x)) == {};
  }

  /** Once nothing of a type is left nothing more of it is received. */
  lemma {:induction false} OnlyFirstPage(h: seq<seq<Pool>>, s: Session, i: nat, n: nat)
    requires Plays(h, s) && 1 <= n <= |s.rounds| && i < |h[0]| && i < |h[1]| && h[1][i] == {}
    ensures Received(s, i, n) == PageAt(s.rounds[0], i)
    ensures i < |h[n]| && h[n][i] == {}
  {
    PlayedSize(h, s, n);
    if n > 1 {
      OnlyFirstPage(h, s, i, n - 1);
      assert PlaysAt(h[n - 1], s.rounds[n - 1], h[n]);
      assert IsFirstOf(PageAt(s.rounds[n - 1], i), {}, RoomFor(h[n - 1], i));
    } else {
      assert Received(s, i, 1) == Received(s, i, 0) + PageAt(s.rounds[0], i);
    }
  }

  lemma RoomForOne(ps: seq<Pool>)
    requires |ps| == 2 && |ps[0]| == MAX_GU_BATCH_SIZE - 1
    ensures RoomFor(ps, 1) == 1
  {
    assert Amount(ps, 1) == Amount(ps, 0) + |ps[0]|;
  }

  lemma TwinsPart(h: seq<seq<Pool>>, s: Session, x: Entity, y: Entity)
    requires Plays(h, s) && |s.rounds| > 0 && |h[0]| == 2 && |h[0][0]| == MAX_GU_BATCH_SIZE - 1
    requires h[0][1] == {x, y} && x != y && MtimeOf(x) == MtimeOf(y)
    ensures x in Received(s, 1, |s.rounds|) <==> y !in Received(s, 1, |s.rounds|)
  {
    RoomForOne(h[0]);
    PlayedSize(h, s, 1);
    PlayedPage(h, s, 1, 0);
    PageOfTwins(PageAt(s.rounds[0], 1), h[0][1], x, y);
    OnlyFirstPage(h, s, 1, |s.rounds|);
  }

  /** One row short of a full response, the next type's page has room for one row. If that type
      has two rows of one mtime and no others, every session delivers one of them and never the
      other. */
  lemma TieLosesRow(rows: map<Key, Entity>, cl: Client, nowSec: int, s: Session, x: Entity, y: Entity)
    requires GoodSession(rows, cl, nowSec, s) && |cl.types| == 2 && |s.rounds| > 0
    requires |History(rows, cl, nowSec, s)[0][0]| == MAX_GU_BATCH_SIZE - 1
    requires History(rows, cl, nowSec, s)[0][1] == {x, y} && x != y && MtimeOf(x) == MtimeOf(y)
    ensures x in Received(s, 1, |s.rounds|) <==> y !in Received(s, 1, |s.rounds|)
  {
    SessionPlays(rows, cl, nowSec, s);
    TwinsPart(History(rows, cl, nowSec, s), s, x, y);
  }

  /** The same for a request of the client: ChangesRemaining is 0 while rows are pending for its next
      request, if and only if more than a page was pending and a page boundary fell between two of
      its types. */
  lemma FullResponseHidesPending(rows: map<Key, Entity>, cl: Client, tokens: seq<int>, nowSec: int,
                                 r: Round, next: seq<int>)
    requires |tokens| == |cl.types|
    requires GoodRound(rows, cl, tokens, nowSec, r) && FeedsBack(cl, tokens, r, next)
    ensures (ResponseOf(cl, tokens, r).changesRemaining == 0 && !AllEmpty(Pools(rows, cl, next, nowSec)))
            <==> FillsExactly(Pools(rows, cl, tokens, nowSec))
  {
    var ps := Pools(rows, cl, tokens, nowSec);
    RoundServes(rows, cl, tokens, nowSec, r, next);
    HidesPending(rows, Request(cl, tokens), r.kv, r.visits, ps);
  }
}
