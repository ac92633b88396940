/** The cache in front of the store (cache/cache.go): the newest mtime seen per client and
    type, and the interim counters of rows written but not yet added to the item count. */
module Cache {
  import opened Basics
  import opened Decimal
  import opened MemoryCache

  const TTL := 600 * 1000

  datatype CountType = Normal | History

  function CountTypeName(k: CountType): string {
    match k
    case Normal => "normal"
    case History => "history"
  }

  function TypeMtimeKey(client: ClientId, dataType: int): string {
    client + "#" + Itoa(dataType)
  }

  function InterimKey(client: ClientId, k: CountType): string {
    client + "#interim_" + CountTypeName(k)
  }

  function WithTypeMtime(kv: KV, client: ClientId, dataType: int, mtime: int, now: int): KV {
    WithEntry(kv, TypeMtimeKey(client, dataType), Itoa(mtime), TTL, now)
  }

  /** False only when a live, readable cached mtime is not newer than the token. */
  predicate TypeMtimeUpdated(kv: KV, client: ClientId, dataType: int, token: int, now: int) {
    var cached := FetchedFrom(kv, TypeMtimeKey(client, dataType), false, now).value;
    cached == "" || Atoi(cached).None? || Atoi(cached).value > token
  }

  /** Reading an interim count, clearing it when asked; a missing one reads as 0. */
  function InterimCount(kv: KV, client: ClientId, k: CountType, clear: bool, now: int): Counted {
    var f := FetchedFrom(kv, InterimKey(client, k), clear, now);
    Counted(f.kv, if f.value == "" then Some(0) else Atoi(f.value))
  }

  function Bumped(kv: KV, client: ClientId, k: CountType, subtract: bool, now: int): Counted {
    Incremented(kv, InterimKey(client, k), subtract, now)
  }

  class CacheClient {
    const redis: MemoryRedis

    constructor (redis: MemoryRedis)
      ensures this.redis == redis
    {
      this.redis := redis;
    }

    method SetTypeMtime(client: ClientId, dataType: int, mtime: int, now: int)
      modifies redis
      ensures redis.kv == WithTypeMtime(old(redis.kv), client, dataType, mtime, now)
    {
      redis.Set(TypeMtimeKey(client, dataType), Itoa(mtime), TTL, now);
    }

    method IsTypeMtimeUpdated(client: ClientId, dataType: int, token: int, now: int) returns (updated: bool)
      modifies redis
      ensures updated == TypeMtimeUpdated(old(redis.kv), client, dataType, token, now)
      ensures redis.kv == DropIfExpired(old(redis.kv), TypeMtimeKey(client, dataType), now)
    {
      var cachedTokenStr := redis.Get(TypeMtimeKey(client, dataType), false, now);
      if cachedTokenStr == "" {
        return true;
      }
      var cachedToken := Atoi(cachedTokenStr);
      if cachedToken.None? {
        return true;
      }
      return cachedToken.value > token;
    }

    method GetInterimCount(client: ClientId, k: CountType, clearCache: bool, now: int) returns (count: Option<int>)
      modifies redis
      ensures Counted(redis.kv, count) == InterimCount(old(redis.kv), client, k, clearCache, now)
    {
      var countStr := redis.Get(InterimKey(client, k), clearCache, now);
      if countStr == "" {
        return Some(0);
      }
      return Atoi(countStr);
    }

    method IncrementInterimCount(client: ClientId, k: CountType, subtract: bool, now: int) returns (count: Option<int>)
      modifies redis
      ensures Counted(redis.kv, count) == Bumped(old(redis.kv), client, k, subtract, now)
    {
      count := redis.Incr(InterimKey(client, k), subtract, now);
    }
  }

  // ---- the two key families ----

  predicate IsMtimeKey(key: string) {
    |key| > 0 && IsDigit(key[|key| - 1])
  }

  /** Mtime keys end in a digit and interim keys in a letter, so whatever the client ids
      are, no key belongs to both families. */
  lemma KeyFamiliesDisjoint(client: ClientId, dataType: int, client': ClientId, k: CountType)
    ensures IsMtimeKey(TypeMtimeKey(client, dataType)) && !IsMtimeKey(InterimKey(client', k))
    ensures TypeMtimeKey(client, dataType) != InterimKey(client', k)
  {
  }

  lemma ItoaInjective(a: int, b: int)
    requires Itoa(a) == Itoa(b)
    ensures a == b
  {
    ItoaRoundTrip(a);
    ItoaRoundTrip(b);
  }

  lemma LastSeparator(key: string, n: nat, m: nat)
    requires n < |key| && m < |key| && key[n] == '#' && key[m] == '#'
    requires forall i :: n < i < |key| ==> key[i] != '#'
    requires forall i :: m < i < |key| ==> key[i] != '#'
    ensures n == m
  {
  }

  /** The last separator splits an mtime key, so the key determines client and type. */
  lemma TypeMtimeKeyInjective(client: ClientId, dataType: int, client': ClientId, dataType': int)
    requires TypeMtimeKey(client, dataType) == TypeMtimeKey(client', dataType')
    ensures client == client' && dataType == dataType'
  {
    var key, x, y := TypeMtimeKey(client, dataType), Itoa(dataType), Itoa(dataType');
    ItoaShape(dataType);
    ItoaShape(dataType');
    assert key == (client + "#") + x && key == (client' + "#") + y;
    LastSeparator(key, |client|, |client'|);
    assert client == key[..|client|] && client' == key[..|client'|];
    assert x == key[|client| + 1..] && y == key[|client'| + 1..];
    ItoaInjective(dataType, dataType');
  }

  lemma InterimKeyInjective(client: ClientId, k: CountType, client': ClientId, k': CountType)
    requires InterimKey(client, k) == InterimKey(client', k')
    ensures client == client' && k == k'
  {
    var key := InterimKey(client, k);
    assert key[|key| - 1] == CountTypeName(k)[|CountTypeName(k)| - 1];
    assert key[|key| - 1] == CountTypeName(k')[|CountTypeName(k')| - 1];
    assert k == k';
    assert client == key[..|client|] && client' == key[..|client'|];
  }

  // ---- what every reachable cache satisfies ----

  /** Every value is an integer, and exactly the mtime family expires. */
  predicate WellTyped(kv: KV) {
    forall key :: key in kv ==>
      Atoi(kv[key].value).Some? && (IsMtimeKey(key) <==> kv[key].expiresAt.Some?)
  }

  /** The current value of an interim counter. */
  function Pending(kv: KV, client: ClientId, k: CountType): int {
    var key := InterimKey(client, k);
    if key in kv then GetOr(Atoi(kv[key].value), 0) else 0
  }

  lemma StampKeepsTyping(kv: KV, client: ClientId, dataType: int, mtime: int, now: int)
    requires WellTyped(kv)
    ensures WellTyped(WithTypeMtime(kv, client, dataType, mtime, now))
    ensures forall c, k :: Pending(WithTypeMtime(kv, client, dataType, mtime, now), c, k) == Pending(kv, c, k)
  {
    ItoaRoundTrip(mtime);
    forall c, k ensures TypeMtimeKey(client, dataType) != InterimKey(c, k) {
      KeyFamiliesDisjoint(client, dataType, c, k);
    }
    KeyFamiliesDisjoint(client, dataType, client, Normal);
  }

  lemma CheckKeepsTyping(kv: KV, client: ClientId, dataType: int, now: int)
    requires WellTyped(kv)
    ensures WellTyped(DropIfExpired(kv, TypeMtimeKey(client, dataType), now))
    ensures forall c, k :: Pending(DropIfExpired(kv, TypeMtimeKey(client, dataType), now), c, k) == Pending(kv, c, k)
  {
  }

  /** An increment never fails, moves its own counter by one and no other. */
  lemma BumpMeaning(kv: KV, client: ClientId, k: CountType, subtract: bool, now: int)
    requires WellTyped(kv)
    ensures var b := Bumped(kv, client, k, subtract, now);
            && WellTyped(b.kv) && b.value == Some(Pending(b.kv, client, k))
            && Pending(b.kv, client, k) == Pending(kv, client, k) + (if subtract then -1 else 1)
            && (forall c, j :: (c, j) != (client, k) ==> Pending(b.kv, c, j) == Pending(kv, c, j))
            && b.kv == kv[InterimKey(client, k) := b.kv[InterimKey(client, k)]]
  {
    var n := Pending(kv, client, k) + if subtract then -1 else 1;
    ItoaRoundTrip(n);
    KeyFamiliesDisjoint(client, 0, client, k);
    forall c, j | (c, j) != (client, k) ensures InterimKey(c, j) != InterimKey(client, k) {
      if InterimKey(c, j) == InterimKey(client, k) { InterimKeyInjective(c, j, client, k); }
    }
    assert Bumped(kv, client, k, subtract, now).kv == kv[InterimKey(client, k) := MemoryValue(Itoa(n), None)];
  }

  /** A read never fails and returns the counter; clearing sets it, and only it, to zero. */
  lemma ReadMeaning(kv: KV, client: ClientId, k: CountType, clear: bool, now: int)
    requires WellTyped(kv)
    ensures var r := InterimCount(kv, client, k, clear, now);
            && WellTyped(r.kv) && r.value == Some(Pending(kv, client, k))
            && Pending(r.kv, client, k) == (if clear then 0 else Pending(kv, client, k))
            && (forall c, j :: (c, j) != (client, k) ==> Pending(r.kv, c, j) == Pending(kv, c, j))
            && r.kv == (if clear then kv - {InterimKey(client, k)} else kv)
  {
    KeyFamiliesDisjoint(client, 0, client, k);
    forall c, j | (c, j) != (client, k) ensures InterimKey(c, j) != InterimKey(client, k) {
      if InterimKey(c, j) == InterimKey(client, k) { InterimKeyInjective(c, j, client, k); }
    }
    assert Atoi("") == None;
    assert InterimKey(client, k) !in kv ==> kv - {InterimKey(client, k)} == kv;
  }

  lemma ForgetKeepsTyping(kv: KV, keys: set<string>)
    requires WellTyped(kv) && (forall key :: key in keys ==> IsMtimeKey(key))
    ensures WellTyped(kv - keys)
    ensures forall c, k :: Pending(kv - keys, c, k) == Pending(kv, c, k)
  {
  }

  // ---- interim counters under any interleaving ----

  /** Every access the handlers make, by any client at any time. */
  datatype Access =
    | StampMtime(client: ClientId, dataType: int, mtime: int)
    | Check(client: ClientId, dataType: int)
    | Bump(client: ClientId, k: CountType, subtract: bool)
    | Read(client: ClientId, k: CountType)
    | Drain(client: ClientId, k: CountType)
    | Forget(client: ClientId, dataTypes: seq<int>)

  datatype TimedAccess = TimedAccess(now: int, access: Access)

  function MtimeKeys(client: ClientId, dataTypes: seq<int>): set<string> {
    set t | t in dataTypes :: TypeMtimeKey(client, t)
  }

  function AccessStep(kv: KV, a: TimedAccess): KV {
    match a.access
    case StampMtime(c, t, m) => WithTypeMtime(kv, c, t, m, a.now)
    case Check(c, t) => DropIfExpired(kv, TypeMtimeKey(c, t), a.now)
    case Bump(c, k, subtract) => Bumped(kv, c, k, subtract, a.now).kv
    case Read(c, k) => InterimCount(kv, c, k, false, a.now).kv
    case Drain(c, k) => InterimCount(kv, c, k, true, a.now).kv
    case Forget(c, ts) => kv - MtimeKeys(c, ts)
  }

  /** The parse error of a counter access; the other accesses report none. */
  predicate AccessFails(kv: KV, a: TimedAccess) {
    match a.access
    case Bump(c, k, subtract) => Bumped(kv, c, k, subtract, a.now).value.None?
    case Read(c, k) => InterimCount(kv, c, k, false, a.now).value.None?
    case Drain(c, k) => InterimCount(kv, c, k, true, a.now).value.None?
    case _ => false
  }

  function AfterAccesses(kv: KV, run: seq<TimedAccess>): KV {
    if run == [] then kv else AccessStep(AfterAccesses(kv, run[..|run| - 1]), run[|run| - 1])
  }

  /** Increments less decrements of one counter. */
  function NetBumps(run: seq<TimedAccess>, client: ClientId, k: CountType): int {
    if run == [] then 0
    else
      var a := run[|run| - 1].access;
      NetBumps(run[..|run| - 1], client, k)
      + (if a.Bump? && a.client == client && a.k == k then (if a.subtract then -1 else 1) else 0)
  }

  /** The sum of what the draining reads of one counter returned. */
  function Drained(kv: KV, run: seq<TimedAccess>, client: ClientId, k: CountType): int {
    if run == [] then 0
    else
      var before, a := run[..|run| - 1], run[|run| - 1];
      Drained(kv, before, client, k)
      + (if a.access == Drain(client, k) then
           GetOr(InterimCount(AfterAccesses(kv, before), client, k, true, a.now).value, 0)
         else 0)
  }

  lemma AccessKeepsTyping(kv: KV, a: TimedAccess)
    requires WellTyped(kv)
    ensures WellTyped(AccessStep(kv, a)) && !AccessFails(kv, a)
  {
    match a.access
    case StampMtime(c, t, m) => StampKeepsTyping(kv, c, t, m, a.now);
    case Check(c, t) => CheckKeepsTyping(kv, c, t, a.now);
    case Bump(c, k, subtract) => BumpMeaning(kv, c, k, subtract, a.now);
    case Read(c, k) => ReadMeaning(kv, c, k, false, a.now);
    case Drain(c, k) => ReadMeaning(kv, c, k, true, a.now);
    case Forget(c, ts) =>
      forall t | t in ts ensures IsMtimeKey(TypeMtimeKey(c, t)) { KeyFamiliesDisjoint(c, t, c, Normal); }
      ForgetKeepsTyping(kv, MtimeKeys(c, ts));
  }

  /** No counter access fails in any state a cache can reach. */
  lemma {:induction false} NoAccessFails(kv: KV, run: seq<TimedAccess>, next: TimedAccess)
    requires WellTyped(kv)
    ensures WellTyped(AfterAccesses(kv, run)) && !AccessFails(AfterAccesses(kv, run), next)
  {
    if run != [] {
      NoAccessFails(kv, run[..|run| - 1], run[|run| - 1]);
      AccessKeepsTyping(AfterAccesses(kv, run[..|run| - 1]), run[|run| - 1]);
    }
    AccessKeepsTyping(AfterAccesses(kv, run), next);
  }

  lemma AccessPending(kv: KV, a: TimedAccess, client: ClientId, k: CountType)
    requires WellTyped(kv)
    ensures Pending(AccessStep(kv, a), client, k)
            == (if a.access == Drain(client, k) then 0
                else if a.access == Bump(client, k, false) then Pending(kv, client, k) + 1
                else if a.access == Bump(client, k, true) then Pending(kv, client, k) - 1
                else Pending(kv, client, k))
  {
    match a.access
    case StampMtime(c, t, m) => StampKeepsTyping(kv, c, t, m, a.now);
    case Check(c, t) => CheckKeepsTyping(kv, c, t, a.now);
    case Bump(c, j, subtract) => BumpMeaning(kv, c, j, subtract, a.now);
    case Read(c, j) => ReadMeaning(kv, c, j, false, a.now);
    case Drain(c, j) => ReadMeaning(kv, c, j, true, a.now);
    case Forget(c, ts) =>
      forall t | t in ts ensures IsMtimeKey(TypeMtimeKey(c, t)) { KeyFamiliesDisjoint(c, t, c, Normal); }
      ForgetKeepsTyping(kv, MtimeKeys(c, ts));
  }

  /** However the accesses of concurrent commits interleave, every increment and decrement
      is either still pending or has been drained by exactly one read. */
  lemma {:induction false} InterimConservation(kv: KV, run: seq<TimedAccess>, client: ClientId, k: CountType)
    requires WellTyped(kv)
    ensures Drained(kv, run, client, k) + Pending(AfterAccesses(kv, run), client, k)
            == Pending(kv, client, k) + NetBumps(run, client, k)
  {
    if run != [] {
      var before, a := run[..|run| - 1], run[|run| - 1];
      InterimConservation(kv, before, client, k);
      NoAccessFails(kv, before, a);
      AccessPending(AfterAccesses(kv, before), a, client, k);
      if a.access == Drain(client, k) {
        ReadMeaning(AfterAccesses(kv, before), client, k, true, a.now);
      }
    }
  }
}
