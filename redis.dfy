/**
 * lib/redis.ts: the in-memory TTL store that stands in for Upstash Redis
 * (`createMockRedisClient`), and the rules by which `createRedisClient`
 * picks it. Time enters as a parameter `now` (milliseconds, `Date.now()`).
 *
 * The store's behaviour is given twice: as pure functions on a `Storage`
 * map (SetOp, GetOp, ...) that state what each command does, and as the
 * class MockRedis whose methods update the map in place and are proved to
 * follow those functions. The mock has no `expire`, which the shortening
 * handler calls; ExpireOp adds it as "reset the expiry of a live key".
 */
module Redis {
  import opened Wrappers
  import opened Strings
  import opened JsRuntime

  /** The TTL used when `set` gets no (or a zero) `ex`, and by `incr`: 24 hours. */
  const DefaultTtlSeconds: int := 86400

  /** One stored value and its expiry instant in milliseconds (0 never expires). */
  datatype Entry = Entry(value: string, expiry: int)

  type Storage = map<string, Entry>

  /** The test `get` uses to evict: a non-zero expiry that lies before `now`. */
  predicate Expired(e: Entry, now: nat) {
    e.expiry != 0 && e.expiry < now
  }

  /** The test `exists` and `incr` use: no expiry, or one not yet passed. */
  predicate Live(e: Entry, now: nat)
    ensures Live(e, now) <==> !Expired(e, now)
  {
    e.expiry == 0 || e.expiry >= now
  }

  /** The value a reader sees for `key` at `now`. */
  function Lookup(m: Storage, key: string, now: nat): Option<string> {
    if key in m && Live(m[key], now) then Some(m[key].value) else None
  }

  /** `m2` differs from `m1` at most at `key`. */
  ghost predicate AgreeExcept(m1: Storage, m2: Storage, key: string) {
    forall k :: k != key ==> (k in m1 <==> k in m2) && (k in m1 ==> m1[k] == m2[k])
  }

  /** What a reader sees is the same in both maps at `now`. */
  ghost predicate SameView(m1: Storage, m2: Storage, now: nat) {
    forall k :: Lookup(m1, k, now) == Lookup(m2, k, now)
  }

  /** The expiry `set` stores: `now + ex * 1000`, with 86400 s when `ex` is absent or 0. */
  function ExpiryFor(ex: Option<int>, now: nat): (t: int)
    ensures ex.Some? && ex.value != 0 ==> t == now + ex.value * 1000
    ensures ex.None? || ex == Some(0) ==> t == now + DefaultTtlSeconds * 1000
  {
    now + (if ex.Some? && ex.value != 0 then ex.value * 1000 else DefaultTtlSeconds * 1000)
  }

  /** `set(key, value, { ex })`: overwrite the entry, whatever was there. */
  function SetOp(m: Storage, key: string, value: string, ex: Option<int>, now: nat): (r: Storage)
    ensures key in r && r[key] == Entry(value, ExpiryFor(ex, now))
  {
    m[key := Entry(value, ExpiryFor(ex, now))]
  }

  /** `get(key)`: the live value; an expired entry is deleted on the way. */
  function GetOp(m: Storage, key: string, now: nat): (r: (Option<string>, Storage))
    ensures r.0 == Lookup(m, key, now)
    ensures r.1 == m || (key in m && Expired(m[key], now) && r.1 == m - {key})
  {
    if key !in m then (None, m)
    else if Expired(m[key], now) then (None, m - {key})
    else (Some(m[key].value), m)
  }

  /** `exists(key)`: 1 for a live entry, else 0 — the same answer `get` gives. */
  function ExistsOp(m: Storage, key: string, now: nat): (r: int)
    ensures r == 1 <==> Lookup(m, key, now).Some?
    ensures r == 0 <==> Lookup(m, key, now).None?
  {
    if key in m && Live(m[key], now) then 1 else 0
  }

  /**
   * `incr(key)`: on a live entry store `parseInt(value) + 1` and keep its
   * expiry; otherwise store "1" for 24 hours. The new number is returned.
   */
  function IncrOp(m: Storage, key: string, now: nat): (r: (Num, Storage))
    ensures key in r.1 && r.1[key].value == NumToString(r.0)
    ensures Lookup(m, key, now).Some? ==>
      r.0 == Add(ParseInt(m[key].value), Int(1)) && r.1[key].expiry == m[key].expiry
    ensures Lookup(m, key, now).None? ==>
      r.0 == Int(1) && r.1[key].expiry == now + DefaultTtlSeconds * 1000
  {
    if key in m && Live(m[key], now) then
      var n := Add(ParseInt(m[key].value), Int(1));
      (n, m[key := Entry(NumToString(n), m[key].expiry)])
    else
      (Int(1), m[key := Entry(NumToString(Int(1)), now + DefaultTtlSeconds * 1000)])
  }

  /** `del(key)`: remove the entry; 1 when it was in the map, expired or not. */
  function DelOp(m: Storage, key: string): (r: (int, Storage))
    ensures r.0 == (if key in m then 1 else 0)
    ensures key !in r.1
  {
    (if key in m then 1 else 0, m - {key})
  }

  /**
   * `expire(key, seconds)`, absent from the mock: a live entry keeps its
   * value and expires `seconds` from now (reply 1); otherwise nothing changes (reply 0).
   */
  function ExpireOp(m: Storage, key: string, seconds: int, now: nat): (r: (int, Storage))
    ensures r.0 == 1 <==> Lookup(m, key, now).Some?
    ensures r.0 == 1 ==> key in r.1 && r.1[key] == Entry(m[key].value, now + seconds * 1000)
    ensures r.0 != 1 ==> r.1 == m
  {
    if key in m && Live(m[key], now) then (1, m[key := Entry(m[key].value, now + seconds * 1000)])
    else (0, m)
  }

  /** The eviction a `get` may do is invisible to readers: every key reads as before. */
  lemma GetEvictionIsInvisible(m: Storage, key: string, now: nat)
    ensures SameView(m, GetOp(m, key, now).1, now)
  {
    var g := GetOp(m, key, now).1;
    forall k ensures Lookup(m, k, now) == Lookup(g, k, now) {
      if k == key && key in m && Expired(m[key], now) {
        assert k !in g;
      }
    }
  }

  /** Each command reads and writes only its own key: every other entry is left as it was. */
  lemma ApplyTouchesOnlyItsKey(m: Storage, c: Call, now: nat)
    ensures AgreeExcept(m, Apply(m, c, now).1, c.Key())
  {
    match c
    case GetCall(k) => assert AgreeExcept(m, GetOp(m, k, now).1, k);
    case ExistsCall(k) =>
    case SetCall(k, v, ex) => assert AgreeExcept(m, SetOp(m, k, v, ex, now), k);
    case ExpireCall(k, s) => assert AgreeExcept(m, ExpireOp(m, k, s, now).1, k);
    case IncrCall(k) => assert AgreeExcept(m, IncrOp(m, k, now).1, k);
    case DelCall(k) => assert AgreeExcept(m, DelOp(m, k).1, k);
  }

  /** Likewise for an issued command, failed or not. */
  lemma IssueTouchesOnlyItsKey(io: Io, c: Call, fault: nat -> bool, now: nat)
    ensures AgreeExcept(io.storage, Issue(io, c, fault, now).1.storage, c.Key())
  {
    ApplyTouchesOnlyItsKey(io.storage, c, now);
  }

  /** A value written with `ex` seconds is read back until its expiry and not after. */
  lemma SetThenLookup(m: Storage, key: string, value: string, ex: int, now: nat, later: nat)
    requires ex > 0 && now <= later
    ensures Lookup(SetOp(m, key, value, Some(ex), now), key, later) ==
      (if later <= now + ex * 1000 then Some(value) else None)
  {
  }

  /** What `incr` stores reads back, through `parseInt`, as the number it returned. */
  lemma IncrReadsBack(m: Storage, key: string, now: nat)
    ensures ParseInt(IncrOp(m, key, now).1[key].value) == IncrOp(m, key, now).0
  {
    ParseIntOfToString(IncrOp(m, key, now).0);
  }

  /** Counting from nothing: two increments at one instant give 2. */
  lemma IncrTwiceFromAbsent(m: Storage, key: string, now: nat)
    requires key !in m
    ensures IncrOp(IncrOp(m, key, now).1, key, now).0 == Int(2)
  {
    var m1 := IncrOp(m, key, now).1;
    assert m1[key] == Entry(NumToString(Int(1)), now + DefaultTtlSeconds * 1000);
    ParseIntOfToString(Int(1));
  }

  /** One store command, as the handlers issue them. */
  datatype Call =
    | GetCall(key: string)
    | ExistsCall(key: string)
    | SetCall(key: string, value: string, ex: Option<int>)
    | ExpireCall(key: string, seconds: int)
    | IncrCall(key: string)
    | DelCall(key: string)
  {
    /** The one key the command reads or writes. */
    function Key(): string {
      match this
      case GetCall(k) => k
      case ExistsCall(k) => k
      case SetCall(k, _, _) => k
      case ExpireCall(k, _) => k
      case IncrCall(k) => k
      case DelCall(k) => k
    }
  }

  /** A command's answer; Threw stands for a rejected promise. */
  datatype Reply = Threw | Value(v: Option<string>) | Count(n: int) | Number(num: Num) | Ok

  /** A `get` answer the callers treat as a hit (`if (value)`): a stored, non-empty value. */
  predicate Found(r: Reply) {
    r.Value? && Truthy(r.v)
  }

  /** The answer and the new map of one command that does not fail. */
  function Apply(m: Storage, c: Call, now: nat): (r: (Reply, Storage))
    ensures r.0 != Threw
  {
    match c
    case GetCall(k) => var (v, m') := GetOp(m, k, now); (Value(v), m')
    case ExistsCall(k) => (Count(ExistsOp(m, k, now)), m)
    case SetCall(k, v, ex) => (Ok, SetOp(m, k, v, ex, now))
    case ExpireCall(k, s) => var (n, m') := ExpireOp(m, k, s, now); (Count(n), m')
    case IncrCall(k) => var (n, m') := IncrOp(m, k, now); (Number(n), m')
    case DelCall(k) => var (n, m') := DelOp(m, k); (Count(n), m')
  }

  /** The store as a handler sees it: the map and the commands issued so far. */
  datatype Io = Io(storage: Storage, trace: seq<Call>)

  /**
   * Issuing command `c`: it is appended to the trace; when `fault` says the
   * command with this position fails, it throws and changes nothing.
   */
  function Issue(io: Io, c: Call, fault: nat -> bool, now: nat): (r: (Reply, Io))
    ensures r.1.trace == io.trace + [c]
    ensures r.0 == Threw <==> fault(|io.trace|)
    ensures r.0 == Threw ==> r.1.storage == io.storage
  {
    if fault(|io.trace|) then (Threw, Io(io.storage, io.trace + [c]))
    else var (reply, m) := Apply(io.storage, c, now); (reply, Io(m, io.trace + [c]))
  }

  /** `createMockRedisClient()`: a map of key to value and expiry, updated in place. */
  class MockRedis {
    var storage: Storage

    constructor ()
      ensures storage == map[]
    {
      storage := map[];
    }

    method Set(key: string, value: string, ex: Option<int>, now: nat) returns (reply: string)
      modifies this
      ensures storage == SetOp(old(storage), key, value, ex, now)
      ensures reply == "OK"
    {
      var expiry := now + (if ex.Some? && ex.value != 0 then ex.value * 1000 else 86400 * 1000);
      storage := storage[key := Entry(value, expiry)];
      reply := "OK";
    }

    method Get(key: string, now: nat) returns (value: Option<string>)
      modifies this
      ensures (value, storage) == GetOp(old(storage), key, now)
    {
      if key !in storage {
        return None;
      }
      var item := storage[key];
      if item.expiry != 0 && item.expiry < now {
        storage := storage - {key};
        return None;
      }
      value := Some(item.value);
    }

    method Exists(key: string, now: nat) returns (n: int)
      ensures n == ExistsOp(storage, key, now)
    {
      var present := key in storage && (storage[key].expiry == 0 || storage[key].expiry >= now);
      n := if present then 1 else 0;
    }

    method Incr(key: string, now: nat) returns (n: Num)
      modifies this
      ensures (n, storage) == IncrOp(old(storage), key, now)
    {
      n := Int(1);
      if key in storage && (storage[key].expiry == 0 || storage[key].expiry >= now) {
        var item := storage[key];
        n := Add(ParseInt(item.value), Int(1));
        storage := storage[key := Entry(NumToString(n), item.expiry)];
      } else {
        storage := storage[key := Entry(NumToString(n), now + 86400 * 1000)];
      }
    }

    method Del(key: string) returns (n: int)
      modifies this
      ensures (n, storage) == DelOp(old(storage), key)
    {
      var deleted := key in storage;
      storage := storage - {key};
      n := if deleted then 1 else 0;
    }

    method Expire(key: string, seconds: int, now: nat) returns (n: int)
      modifies this
      ensures (n, storage) == ExpireOp(old(storage), key, seconds, now)
    {
      n := 0;
      if key in storage && (storage[key].expiry == 0 || storage[key].expiry >= now) {
        storage := storage[key := Entry(storage[key].value, now + seconds * 1000)];
        n := 1;
      }
    }

    /** Run one command that does not fail. */
    method Perform(c: Call, now: nat) returns (reply: Reply)
      modifies this
      ensures (reply, storage) == Apply(old(storage), c, now)
    {
      match c
      case GetCall(k) =>
        var v := Get(k, now);
        reply := Value(v);
      case ExistsCall(k) =>
        var n := Exists(k, now);
        reply := Count(n);
      case SetCall(k, v, ex) =>
        var _ := Set(k, v, ex, now);
        reply := Ok;
      case ExpireCall(k, s) =>
        var n := Expire(k, s, now);
        reply := Count(n);
      case IncrCall(k) =>
        var n := Incr(k, now);
        reply := Number(n);
      case DelCall(k) =>
        var n := Del(k);
        reply := Count(n);
    }

    /**
     * Issue `c` as the command at position `|trace|` of a request: it fails
     * when `fault` says so, and runs on the map otherwise.
     */
    method IssueCall(c: Call, fault: nat -> bool, now: nat, trace: seq<Call>) returns (reply: Reply, trace': seq<Call>)
      modifies this
      ensures (reply, Io(storage, trace')) == Issue(Io(old(storage), trace), c, fault, now)
    {
      if fault(|trace|) {
        reply := Threw;
      } else {
        reply := Perform(c, now);
      }
      trace' := trace + [c];
    }
  }

  /** The environment variables `createRedisClient` reads; an empty value counts as unset. */
  datatype RedisEnv = RedisEnv(
    redisUrl: Option<string>,
    kvUrl: Option<string>,
    kvRestApiUrl: Option<string>,
    kvRestApiToken: Option<string>)

  /** The client `createRedisClient` returns. */
  datatype Backend = Mock | Upstash(url: string, token: string)

  /**
   * `createRedisClient()`: the mock unless a KV URL (the REST one first)
   * is set and starts with `https://`; `clientThrows` says whether the
   * Upstash constructor throws, which also falls back to the mock.
   */
  function CreateRedisClient(env: RedisEnv, clientThrows: bool): (b: Backend)
    ensures !Truthy(env.redisUrl) && !Truthy(env.kvUrl) && !Truthy(env.kvRestApiUrl) ==> b == Mock
    ensures !Truthy(env.kvUrl) && !Truthy(env.kvRestApiUrl) ==> b == Mock
    ensures b.Upstash? <==>
      (Truthy(env.kvRestApiUrl) || Truthy(env.kvUrl))
      && StartsWith(OrElse(env.kvRestApiUrl, OrElse(env.kvUrl, "")), "https://")
      && !clientThrows
    ensures b.Upstash? ==>
      && StartsWith(b.url, "https://")
      && b.url == OrElse(env.kvRestApiUrl, OrElse(env.kvUrl, ""))
      && b.token == OrElse(env.kvRestApiToken, "")
  {
    if !Truthy(env.redisUrl) && !Truthy(env.kvUrl) && !Truthy(env.kvRestApiUrl) then Mock
    else
      var url := OrElse(env.kvRestApiUrl, OrElse(env.kvUrl, ""));
      var token := OrElse(env.kvRestApiToken, "");
      if Truthy(env.redisUrl) && url == "" then Mock
      else if url != "" && !StartsWith(url, "https://") then Mock
      else if clientThrows then Mock
      else Upstash(url, token)
  }
}
