/** The in-memory stand-in for Redis (sync-lite/memory_cache.go): a string map whose expired
    entries are dropped only when their key is read. Clock readings are in milliseconds. */
module MemoryCache {
  import opened Basics
  import opened Decimal

  datatype MemoryValue = MemoryValue(value: string, expiresAt: Option<int>)

  type KV = map<string, MemoryValue>

  predicate Expired(v: MemoryValue, now: int) {
    v.expiresAt.Some? && now > v.expiresAt.value
  }

  function DropIfExpired(kv: KV, key: string, now: int): KV {
    if key in kv && Expired(kv[key], now) then kv - {key} else kv
  }

  function WithEntry(kv: KV, key: string, val: string, ttl: int, now: int): KV {
    kv[key := MemoryValue(val, if ttl > 0 then Some(now + ttl) else None)]
  }

  datatype Counted = Counted(kv: KV, value: Option<int>)

  datatype Fetched = Fetched(kv: KV, value: string)

  /** None is the parse error; the new value is stored without an expiry. */
  function Incremented(kv: KV, key: string, subtract: bool, now: int): Counted {
    var live := DropIfExpired(kv, key, now);
    var current := if key in live then Atoi(live[key].value) else Some(0);
    if current.None? then Counted(live, None)
    else
      var next := if subtract then current.value - 1 else current.value + 1;
      Counted(live[key := MemoryValue(Itoa(next), None)], Some(next))
  }

  function FetchedFrom(kv: KV, key: string, deleteAfterGet: bool, now: int): Fetched {
    var live := DropIfExpired(kv, key, now);
    if key !in live then Fetched(live, "")
    else Fetched(if deleteAfterGet then live - {key} else live, live[key].value)
  }

  class MemoryRedis {
    var kv: KV

    constructor ()
      ensures kv == map[]
    {
      kv := map[];
    }

    method DropExpired(key: string, now: int)
      modifies this
      ensures kv == DropIfExpired(old(kv), key, now)
    {
      if key in kv && Expired(kv[key], now) {
        kv := kv - {key};
      }
    }

    method Set(key: string, val: string, ttl: int, now: int)
      modifies this
      ensures kv == WithEntry(old(kv), key, val, ttl, now)
    {
      var entry := MemoryValue(val, None);
      if ttl > 0 {
        entry := entry.(expiresAt := Some(now + ttl));
      }
      kv := kv[key := entry];
    }

    /** A value of None reports the parse error. */
    method Incr(key: string, subtract: bool, now: int) returns (value: Option<int>)
      modifies this
      ensures Counted(kv, value) == Incremented(old(kv), key, subtract, now)
    {
      DropExpired(key, now);
      var current := 0;
      if key in kv {
        var parsed := Atoi(kv[key].value);
        if parsed.None? {
          return None;
        }
        current := parsed.value;
      }
      if subtract {
        current := current - 1;
      } else {
        current := current + 1;
      }
      kv := kv[key := MemoryValue(Itoa(current), None)];
      return Some(current);
    }

    method Get(key: string, deleteAfterGet: bool, now: int) returns (value: string)
      modifies this
      ensures Fetched(kv, value) == FetchedFrom(old(kv), key, deleteAfterGet, now)
    {
      DropExpired(key, now);
      if key !in kv {
        return "";
      }
      value := kv[key].value;
      if deleteAfterGet {
        kv := kv - {key};
      }
    }

    method Del(keys: seq<string>)
      modifies this
      ensures kv == old(kv) - (set k | k in keys)
    {
      for i := 0 to |keys|
        invariant kv == old(kv) - (set k | k in keys[..i])
      {
        kv := kv - {keys[i]};
        assert keys[..i + 1] == keys[..i] + [keys[i]];
      }
      assert keys[..|keys|] == keys;
    }

    method FlushAll()
      modifies this
      ensures kv == map[]
    {
      kv := map[];
    }
  }

  // ---- refinement of a map that forgets entries the moment they expire ----

  datatype Op =
    | Set(key: string, val: string, ttl: int)
    | Incr(key: string, subtract: bool)
    | Get(key: string, deleteAfterGet: bool)
    | Del(keys: seq<string>)
    | FlushAll

  datatype OpReply = Done | Number(n: Option<int>) | Str(s: string)

  datatype Timed = Timed(now: int, op: Op)

  datatype OpOutcome = OpOutcome(kv: KV, reply: OpReply)

  /** The class above, operation by operation. */
  function LazyStep(kv: KV, t: Timed): OpOutcome {
    match t.op
    case Set(key, val, ttl) => OpOutcome(WithEntry(kv, key, val, ttl, t.now), Done)
    case Incr(key, subtract) =>
      var c := Incremented(kv, key, subtract, t.now);
      OpOutcome(c.kv, Number(c.value))
    case Get(key, del) =>
      var f := FetchedFrom(kv, key, del, t.now);
      OpOutcome(f.kv, Str(f.value))
    case Del(keys) => OpOutcome(kv - (set k | k in keys), Done)
    case FlushAll => OpOutcome(map[], Done)
  }

  function Live(kv: KV, now: int): KV {
    map k | k in kv && !Expired(kv[k], now) :: kv[k]
  }

  /** The same operations on a plain map, where nothing ever expires. */
  function PlainStep(m: KV, t: Timed): OpOutcome {
    match t.op
    case Set(key, val, ttl) =>
      OpOutcome(m[key := MemoryValue(val, if ttl > 0 then Some(t.now + ttl) else None)], Done)
    case Incr(key, subtract) =>
      var delta := if subtract then -1 else 1;
      if key !in m then
        OpOutcome(m[key := MemoryValue(Itoa(delta), None)], Number(Some(delta)))
      else if Atoi(m[key].value).None? then OpOutcome(m, Number(None))
      else
        var n := Atoi(m[key].value).value + delta;
        OpOutcome(m[key := MemoryValue(Itoa(n), None)], Number(Some(n)))
    case Get(key, del) =>
      OpOutcome(if del then m - {key} else m, Str(if key in m then m[key].value else ""))
    case Del(keys) => OpOutcome(m - (set k | k in keys), Done)
    case FlushAll => OpOutcome(map[], Done)
  }

  /** The reference: purge everything expired, then act on a plain map. */
  function EagerStep(m: KV, t: Timed): OpOutcome {
    PlainStep(Live(m, t.now), t)
  }

  function RunLazy(kv: KV, ops: seq<Timed>): (seq<OpReply>, KV)
    decreases |ops|
  {
    if ops == [] then ([], kv)
    else
      var o := LazyStep(kv, ops[0]);
      var rest := RunLazy(o.kv, ops[1..]);
      ([o.reply] + rest.0, rest.1)
  }

  function RunEager(kv: KV, ops: seq<Timed>): (seq<OpReply>, KV)
    decreases |ops|
  {
    if ops == [] then ([], kv)
    else
      var o := EagerStep(kv, ops[0]);
      var rest := RunEager(o.kv, ops[1..]);
      ([o.reply] + rest.0, rest.1)
  }

  predicate ClockAdvances(since: int, ops: seq<Timed>)
    decreases |ops|
  {
    ops == [] || (since <= ops[0].now && ClockAdvances(ops[0].now, ops[1..]))
  }

  lemma LiveLater(kv: KV, now: int, later: int)
    requires now <= later
    ensures Live(Live(kv, now), later) == Live(kv, later)
  {
  }

  lemma DropAndLive(kv: KV, key: string, now: int)
    ensures key in DropIfExpired(kv, key, now) <==> key in Live(kv, now)
    ensures key in Live(kv, now) ==> DropIfExpired(kv, key, now)[key] == Live(kv, now)[key]
    ensures Live(DropIfExpired(kv, key, now), now) == Live(kv, now)
  {
  }

  lemma LiveOfUpdate(kv: KV, key: string, v: MemoryValue, now: int)
    requires !Expired(v, now)
    ensures Live(kv[key := v], now) == Live(kv, now)[key := v]
  {
  }

  lemma StepsAgree(kv: KV, t: Timed)
    ensures LazyStep(kv, t).reply == PlainStep(Live(kv, t.now), t).reply
    ensures Live(LazyStep(kv, t).kv, t.now) == PlainStep(Live(kv, t.now), t).kv
  {
    match t.op
    case Set(key, val, ttl) =>
      LiveOfUpdate(kv, key, MemoryValue(val, if ttl > 0 then Some(t.now + ttl) else None), t.now);
    case Incr(key, subtract) =>
      DropAndLive(kv, key, t.now);
      var c := Incremented(kv, key, subtract, t.now);
      if c.value.Some? {
        LiveOfUpdate(DropIfExpired(kv, key, t.now), key, MemoryValue(Itoa(c.value.value), None), t.now);
      }
    case Get(key, del) =>
      DropAndLive(kv, key, t.now);
    case Del(keys) =>
    case FlushAll =>
  }

  /** Dropping expired entries only on access is never observable: over every run with a
      clock that does not go back, all replies are those of the purging map. */
  lemma {:induction false} LazyExpiryIsInvisible(lazy: KV, eager: KV, since: int, ops: seq<Timed>)
    requires ClockAdvances(since, ops) && Live(lazy, since) == Live(eager, since)
    ensures RunLazy(lazy, ops).0 == RunEager(eager, ops).0
    decreases |ops|
  {
    if ops != [] {
      var t := ops[0];
      LiveLater(lazy, since, t.now);
      LiveLater(eager, since, t.now);
      StepsAgree(lazy, t);
      var l, e := LazyStep(lazy, t).kv, EagerStep(eager, t).kv;
      assert Live(l, t.now) == e;
      LiveLater(l, t.now, t.now);
      LazyExpiryIsInvisible(l, e, t.now, ops[1..]);
    }
  }
}
