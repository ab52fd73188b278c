/**
 * lib/admin-utils.ts: the admin dashboard's queries over the store and the
 * delete sequence.
 *
 * The read-only queries see the store through a StoreView: the answer of
 * `keys("*")` and the values `get` returns at that instant (reading is
 * invisible there, Redis.GetOp), or Unreachable when some command throws.
 * The mock client has no `keys`, so on the mock `getSystemMetrics` and
 * `getLatestUrls` take their fallback; `findUrlBySlug` issues only `get`
 * and answers normally there. `new Date().toISOString()` enters as
 * `createdAt`.
 * `deleteUrl` changes the store and is a method on MockRedis.
 */
module Admin {
  import opened Wrappers
  import opened Strings
  import opened JsRuntime
  import opened UrlUtils
  import opened Redis

  /** The store as the queries see it. */
  datatype StoreView =
    | Unreachable
    | Reachable(keys: seq<string>, values: map<string, string>)

  /** The live values of a store at `now`: what `get` answers for each key. */
  function LiveValues(m: Storage, now: nat): (v: map<string, string>)
    ensures forall k :: Lookup(m, k, now) == (if k in v then Some(v[k]) else None)
  {
    map k | k in m && Live(m[k], now) :: m[k].value
  }

  /** `get(key)` on a reachable view. */
  function Read(values: map<string, string>, key: string): Option<string> {
    if key in values then Some(values[key]) else None
  }

  /** The visit counter key of a slug. */
  function StatsKey(slug: string): string {
    "stats:" + slug
  }

  /** Lines 30-32 and 92: the keys taken to be short ids. */
  predicate IsUrlKey(key: string) {
    !StartsWith(key, "stats:") && !StartsWith(key, IndexPrefix) && 3 <= |key| <= 12
  }

  function UrlKeys(keys: seq<string>): (r: seq<string>)
    ensures forall i :: 0 <= i < |r| ==> r[i] in keys && IsUrlKey(r[i])
    ensures forall i :: 0 <= i < |keys| && IsUrlKey(keys[i]) ==> keys[i] in r
  {
    Filter(keys, IsUrlKey)
  }

  /** Every id the shortening handler mints is counted as a URL key. */
  lemma MintedIdIsUrlKey(draw: RandomDraws, start: nat)
    ensures IsUrlKey(IdFromDraws(draw, start, DefaultIdLength))
  {
    var id := IdFromDraws(draw, start, DefaultIdLength);
    if StartsWith(id, "stats:") {
      assert id[5] == ':';
      AlphabetMembership(id[5]);
    }
    if StartsWith(id, IndexPrefix) {
      assert id[3] == ':';
      AlphabetMembership(id[3]);
    }
  }

  /** No reverse-index key and no counter key is counted as a URL key. */
  lemma IndexAndStatsKeysAreNotUrlKeys(url: string, md5: Digest, slug: string)
    ensures !IsUrlKey(GenerateUrlKey(url, md5))
    ensures !IsUrlKey(StatsKey(slug))
  {
    assert StartsWith(StatsKey(slug), "stats:");
  }

  /** The clicks of a slug: `parseInt` of its counter, "0" when there is none (lines 40-41, 58). */
  function Clicks(values: map<string, string>, slug: string): Num {
    ParseInt(OrElse(Read(values, StatsKey(slug)), "0"))
  }

  /** A missing counter counts as 0; a counter `incr` wrote counts as its number. */
  lemma ClicksOfCounter(values: map<string, string>, slug: string, n: Num)
    ensures !Truthy(Read(values, StatsKey(slug))) ==> Clicks(values, slug) == Int(0)
    ensures Read(values, StatsKey(slug)) == Some(NumToString(n)) ==> Clicks(values, slug) == n
  {
    ParseIntOfToString(Int(0));
    assert NumToString(Int(0)) == "0";
    ParseIntOfToString(n);
    if Read(values, StatsKey(slug)) == Some(NumToString(n)) {
      assert NumToString(n) != "" by {
        if n.Int? && n.i >= 0 { assert |NatToString(n.i)| > 0; }
      }
    }
  }

  /** Lines 39-44: the clicks of each slug, in order. */
  function ClickCounts(values: map<string, string>, slugs: seq<string>): (r: seq<Num>)
    ensures |r| == |slugs| && forall i :: 0 <= i < |r| ==> r[i] == Clicks(values, slugs[i])
  {
    seq(|slugs|, i requires 0 <= i < |slugs| => Clicks(values, slugs[i]))
  }

  /** Line 45: `reduce((sum, clicks) => sum + clicks, acc)`. */
  function Sum(nums: seq<Num>, acc: Num): Num
    decreases |nums|
  {
    if |nums| == 0 then acc else Sum(nums[1..], Add(acc, nums[0]))
  }

  /** `totalClicks`: the reduction of the clicks, started at 0. */
  function TotalClicks(values: map<string, string>, slugs: seq<string>): Num {
    Sum(ClickCounts(values, slugs), Int(0))
  }

  /**
   * A reduction is a number exactly when the start and every element are
   * numbers, so one NaN counter poisons the total.
   */
  lemma {:induction false} SumDefined(nums: seq<Num>, acc: Num)
    decreases |nums|
    ensures Sum(nums, acc).Int? <==> acc.Int? && forall i :: 0 <= i < |nums| ==> nums[i].Int?
  {
    if |nums| > 0 {
      var rest := nums[1..];
      SumDefined(rest, Add(acc, nums[0]));
      assert forall i :: 0 < i < |nums| ==> nums[i] == rest[i - 1];
    }
  }

  /** The total is a number exactly when every URL key's counter parses. */
  lemma TotalClicksDefined(values: map<string, string>, slugs: seq<string>)
    ensures TotalClicks(values, slugs).Int? <==> forall i :: 0 <= i < |slugs| ==> Clicks(values, slugs[i]).Int?
  {
    var cs := ClickCounts(values, slugs);
    SumDefined(cs, Int(0));
    assert TotalClicks(values, slugs) == Sum(cs, Int(0));
  }

  /** The start of a reduction can be added afterwards. */
  lemma {:induction false} SumShift(nums: seq<Num>, acc: Num)
    decreases |nums|
    ensures Sum(nums, acc) == Add(acc, Sum(nums, Int(0)))
  {
    if |nums| > 0 {
      SumShift(nums[1..], Add(acc, nums[0]));
      SumShift(nums[1..], Add(Int(0), nums[0]));
    }
  }

  lemma {:induction false} SumAppend(a: seq<Num>, b: seq<Num>, acc: Num)
    decreases |a|
    ensures Sum(a + b, acc) == Sum(b, Sum(a, acc))
  {
    if |a| == 0 {
      assert a + b == b;
    } else {
      assert (a + b)[0] == a[0];
      assert (a + b)[1..] == a[1..] + b;
      SumAppend(a[1..], b, Add(acc, a[0]));
    }
  }

  /** Totals over two runs of slugs add up. */
  lemma TotalClicksAppend(values: map<string, string>, a: seq<string>, b: seq<string>)
    ensures TotalClicks(values, a + b) == Add(TotalClicks(values, a), TotalClicks(values, b))
  {
    var ca, cb := ClickCounts(values, a), ClickCounts(values, b);
    assert ClickCounts(values, a + b) == ca + cb by {
      var cab := ClickCounts(values, a + b);
      forall i | 0 <= i < |cab| ensures cab[i] == (ca + cb)[i] {
        if i < |a| { assert (a + b)[i] == a[i]; } else { assert (a + b)[i] == b[i - |a|]; }
      }
    }
    SumAppend(ca, cb, Int(0));
    SumShift(cb, Sum(ca, Int(0)));
    assert TotalClicks(values, a) == Sum(ca, Int(0));
    assert TotalClicks(values, b) == Sum(cb, Int(0));
  }

  /** `averageClicksPerUrl`: 0 with no URL, else `Math.round(total / urls * 100) / 100`, left symbolic. */
  datatype Average = Zero | Rounded(total: Num, urls: nat)

  datatype UrlRow = UrlRow(slug: string, originalUrl: string, clicks: Num, createdAt: string)

  datatype Metrics = Metrics(totalUrls: nat, totalClicks: Num, average: Average, lastUrl: Option<UrlRow>)

  /** The row of a slug: its URL or "", and its clicks (lines 57-65, 97-105). */
  function Row(values: map<string, string>, slug: string, createdAt: string): UrlRow {
    UrlRow(slug, OrElse(Read(values, slug), ""), Clicks(values, slug), createdAt)
  }

  /** `getSystemMetrics()` (lines 26-84). */
  function SystemMetrics(view: StoreView, createdAt: string): (r: Metrics)
    ensures view.Unreachable? ==> r == Metrics(0, Int(0), Zero, None)
    ensures view.Reachable? ==>
      && r.totalUrls == |UrlKeys(view.keys)|
      && r.totalClicks == TotalClicks(view.values, UrlKeys(view.keys))
      && (r.average == Zero <==> r.totalUrls == 0)
      && (r.lastUrl.None? <==> r.totalUrls == 0)
      && (r.lastUrl.Some? ==> r.lastUrl.value == Row(view.values, UrlKeys(view.keys)[0], createdAt))
  {
    match view
    case Unreachable => Metrics(0, Int(0), Zero, None)
    case Reachable(keys, values) =>
      var urlKeys := UrlKeys(keys);
      var totalUrls := |urlKeys|;
      var totalClicks := TotalClicks(values, urlKeys);
      var average := if totalUrls > 0 then Rounded(totalClicks, totalUrls) else Zero;
      var lastUrl := if |urlKeys| > 0 then Some(Row(values, urlKeys[0], createdAt)) else None;
      Metrics(totalUrls, totalClicks, average, lastUrl)
  }

  /** The default page size of `getLatestUrls`. */
  const DefaultLimit: int := 10

  /** `getLatestUrls(limit)` (lines 87-113): the first `limit` URL keys, in key order. */
  function LatestUrls(view: StoreView, limit: Option<Num>, createdAt: string): (r: seq<UrlRow>)
    ensures view.Unreachable? ==> r == []
    ensures view.Reachable? ==>
      var slugs := SliceRange(UrlKeys(view.keys), Int(0), limit.GetOr(Int(DefaultLimit)));
      |r| == |slugs| && forall i :: 0 <= i < |r| ==> r[i] == Row(view.values, slugs[i], createdAt)
  {
    match view
    case Unreachable => []
    case Reachable(keys, values) =>
      var slugs := SliceRange(UrlKeys(keys), Int(0), limit.GetOr(Int(DefaultLimit)));
      seq(|slugs|, i requires 0 <= i < |slugs| => Row(values, slugs[i], createdAt))
  }

  /**
   * The listing is the first `min(limit, n)` URL keys for a limit that is
   * not negative (10 when none is given), all but the last `-limit` for a
   * negative one, and nothing for NaN.
   */
  lemma LatestUrlsBound(keys: seq<string>, values: map<string, string>, limit: Option<Num>, createdAt: string)
    ensures var r := LatestUrls(Reachable(keys, values), limit, createdAt);
      var n := |UrlKeys(keys)|;
      var l := limit.GetOr(Int(DefaultLimit));
      && (l.Int? && l.i >= 0 ==> |r| == if l.i < n then l.i else n)
      && (l.Int? && l.i < 0 ==> |r| == if n + l.i > 0 then n + l.i else 0)
      && (l.NaN? ==> r == [])
      && (forall i :: 0 <= i < |r| ==> r[i].slug == UrlKeys(keys)[i])
  {
  }

  /** `findUrlBySlug(slug)` (lines 116-135). */
  function FindUrlBySlug(view: StoreView, slug: string, createdAt: string): (r: Option<UrlRow>)
    ensures r.Some? <==> slug != "" && view.Reachable? && Truthy(Read(view.values, slug))
    ensures r.Some? ==> r.value == UrlRow(slug, view.values[slug], Clicks(view.values, slug), createdAt)
  {
    if slug == "" then None
    else match view
      case Unreachable => None
      case Reachable(_, values) =>
        var originalUrl := Read(values, slug);
        if !Truthy(originalUrl) then None
        else Some(UrlRow(slug, originalUrl.value, Clicks(values, slug), createdAt))
  }

  /** A listed slug with a URL is found with the same row. */
  lemma FindAgreesWithLatest(keys: seq<string>, values: map<string, string>, limit: Option<Num>, createdAt: string, i: nat)
    requires i < |LatestUrls(Reachable(keys, values), limit, createdAt)|
    requires LatestUrls(Reachable(keys, values), limit, createdAt)[i].originalUrl != ""
    ensures FindUrlBySlug(Reachable(keys, values), LatestUrls(Reachable(keys, values), limit, createdAt)[i].slug, createdAt)
      == Some(LatestUrls(Reachable(keys, values), limit, createdAt)[i])
  {
    var r := LatestUrls(Reachable(keys, values), limit, createdAt);
    LatestUrlsBound(keys, values, limit, createdAt);
    assert IsUrlKey(r[i].slug);
  }

  /** The index key `deleteUrl` removes: `url:` and the raw URL (line 154). */
  function RawIndexKey(originalUrl: string): string {
    IndexPrefix + originalUrl
  }

  /**
   * Lines 138-163 with the index key computed by `indexKeyOf`: get the URL,
   * delete the slug and its counter, then the index key when the URL was
   * found; any failing command gives false.
   */
  function DeleteWith(io: Io, slug: string, indexKeyOf: string -> string, fault: nat -> bool, now: nat): (r: (bool, Io))
    ensures slug == "" ==> r == (false, io)
    ensures slug != "" ==> |io.trace| < |r.1.trace| <= |io.trace| + 4 && r.1.trace[|io.trace|] == GetCall(slug)
    ensures r.0 ==> slug !in r.1.storage && StatsKey(slug) !in r.1.storage
  {
    if slug == "" then (false, io)
    else
      var (found, io1) := Issue(io, GetCall(slug), fault, now);
      if found == Threw then (false, io1)
      else
        var (d1, io2) := Issue(io1, DelCall(slug), fault, now);
        if d1 == Threw then (false, io2)
        else
          var (d2, io3) := Issue(io2, DelCall(StatsKey(slug)), fault, now);
          if d2 == Threw then (false, io3)
          else if !Found(found) then (true, io3)
          else
            var (d3, io4) := Issue(io3, DelCall(indexKeyOf(found.v.value)), fault, now);
            (d3 != Threw, io4)
  }

  /** `deleteUrl(slug)` as written. */
  function DeleteUrlSpec(io: Io, slug: string, fault: nat -> bool, now: nat): (bool, Io) {
    DeleteWith(io, slug, RawIndexKey, fault, now)
  }

  /** `deleteUrl(slug)` removing the index key the shortening handler wrote. */
  function DeleteUrlCorrected(io: Io, slug: string, md5: Digest, fault: nat -> bool, now: nat): (bool, Io) {
    DeleteWith(io, slug, u => GenerateUrlKey(u, md5), fault, now)
  }

  /** The delete sequence on a store; `indexKeyOf` says which index key it removes. */
  method DeleteUrl(store: MockRedis, slug: string, indexKeyOf: string -> string, fault: nat -> bool, now: nat)
    returns (ok: bool, trace: seq<Call>)
    modifies store
    ensures (ok, Io(store.storage, trace)) == DeleteWith(Io(old(store.storage), []), slug, indexKeyOf, fault, now)
  {
    trace := [];
    if slug == "" {
      return false, trace;
    }
    var originalUrl, reply;
    originalUrl, trace := store.IssueCall(GetCall(slug), fault, now, trace);
    if originalUrl == Threw {
      return false, trace;
    }
    reply, trace := store.IssueCall(DelCall(slug), fault, now, trace);
    if reply == Threw {
      return false, trace;
    }
    reply, trace := store.IssueCall(DelCall(StatsKey(slug)), fault, now, trace);
    if reply == Threw {
      return false, trace;
    }
    if Found(originalUrl) {
      reply, trace := store.IssueCall(DelCall(indexKeyOf(originalUrl.v.value)), fault, now, trace);
      if reply == Threw {
        return false, trace;
      }
    }
    ok := true;
  }

  /**
   * The outcome of a delete: an empty slug is false with no command; false
   * exactly when a command failed; on success the slug and its counter are
   * gone, and so is `indexKeyOf(url)` when the slug held a URL.
   */
  lemma DeleteOutcome(io: Io, slug: string, indexKeyOf: string -> string, fault: nat -> bool, now: nat)
    ensures var (ok, io') := DeleteWith(io, slug, indexKeyOf, fault, now);
      && (slug == "" ==> !ok && io' == io)
      && (ok <==> slug != "" && forall n :: |io.trace| <= n < |io'.trace| ==> !fault(n))
      && (ok ==>
        && slug !in io'.storage && StatsKey(slug) !in io'.storage
        && (Truthy(Lookup(io.storage, slug, now)) ==> indexKeyOf(Lookup(io.storage, slug, now).value) !in io'.storage))
      && (ok ==>
        io'.storage == io.storage - {slug, StatsKey(slug)} -
          (if Truthy(Lookup(io.storage, slug, now)) then {indexKeyOf(Lookup(io.storage, slug, now).value)} else {}))
  {
  }

  /**
   * Whatever the outcome, a delete leaves every key but the slug, its
   * counter and the index key of the slug's URL as it was.
   */
  lemma DeleteFrame(io: Io, slug: string, indexKeyOf: string -> string, fault: nat -> bool, now: nat, k: string)
    requires k != slug && k != StatsKey(slug)
    requires Truthy(Lookup(io.storage, slug, now)) ==> k != indexKeyOf(Lookup(io.storage, slug, now).value)
    ensures var m' := DeleteWith(io, slug, indexKeyOf, fault, now).1.storage;
      && (k in io.storage <==> k in m')
      && (k in io.storage ==> m'[k] == io.storage[k])
  {
    if slug != "" {
      var (found, io1) := Issue(io, GetCall(slug), fault, now);
      IssueTouchesOnlyItsKey(io, GetCall(slug), fault, now);
      if found != Threw {
        var io2 := Issue(io1, DelCall(slug), fault, now).1;
        IssueTouchesOnlyItsKey(io1, DelCall(slug), fault, now);
        var io3 := Issue(io2, DelCall(StatsKey(slug)), fault, now).1;
        IssueTouchesOnlyItsKey(io2, DelCall(StatsKey(slug)), fault, now);
        if Found(found) {
          IssueTouchesOnlyItsKey(io3, DelCall(indexKeyOf(found.v.value)), fault, now);
        }
      }
    }
  }

  /** A store in which `url` was shortened to `id` and both keys are live. */
  predicate Shortened(m: Storage, id: string, url: string, md5: Digest, now: nat) {
    && id != "" && url != ""
    && Lookup(m, id, now) == Some(url)
    && Lookup(m, GenerateUrlKey(url, md5), now) == Some(id)
  }

  /** A digest that always answers 32 lower-case hexadecimal digits, as MD5 does. */
  ghost predicate HexDigest(md5: Digest) {
    forall s :: |md5(s)| == 32 && forall i :: 0 <= i < |md5(s)| ==> md5(s)[i] in "0123456789abcdef"
  }

  /** The raw index key never is the hashed one for a URL with a scheme. */
  lemma RawKeyIsNotHashedKey(url: string, md5: Digest)
    requires HexDigest(md5) && HasScheme(url)
    ensures RawIndexKey(url) != GenerateUrlKey(url, md5)
  {
    assert RawIndexKey(url)[4] == 'h';
    assert |md5(url)| == 32 && md5(url)[0] in "0123456789abcdef";
    assert GenerateUrlKey(url, md5)[4] == md5(url)[0];
  }

  /**
   * As written, deleting a shortened id with no failure leaves its index
   * entry behind: the URL's `url:<md5>` key still names the deleted id.
   */
  lemma DeleteUrlLeavesIndex(m: Storage, id: string, url: string, md5: Digest, fault: nat -> bool, now: nat)
    requires Shortened(m, id, url, md5, now) && HasScheme(url) && HexDigest(md5)
    requires id != GenerateUrlKey(url, md5)
    requires forall n :: !fault(n)
    ensures var (ok, io') := DeleteUrlSpec(Io(m, []), id, fault, now);
      ok && Lookup(io'.storage, id, now) == None
      && Lookup(io'.storage, GenerateUrlKey(url, md5), now) == Some(id)
  {
    RawKeyIsNotHashedKey(url, md5);
    var key := GenerateUrlKey(url, md5);
    assert StatsKey(id) != key by {
      assert StatsKey(id)[0] == 's' && key[0] == 'u';
    }
    var (found, io1) := Issue(Io(m, []), GetCall(id), fault, now);
    assert found == Value(Some(url)) && io1.storage == m;
    var io2 := Issue(io1, DelCall(id), fault, now).1;
    assert io2.storage == m - {id};
    var io3 := Issue(io2, DelCall(StatsKey(id)), fault, now).1;
    assert io3.storage == m - {id} - {StatsKey(id)};
    var io4 := Issue(io3, DelCall(RawIndexKey(url)), fault, now).1;
    assert io4.storage == m - {id} - {StatsKey(id)} - {RawIndexKey(url)};
    assert DeleteUrlSpec(Io(m, []), id, fault, now) == (true, io4);
  }

  /** Corrected, the same delete removes the id, its counter and its index entry. */
  lemma DeleteUrlCorrectedClearsIndex(m: Storage, id: string, url: string, md5: Digest, fault: nat -> bool, now: nat)
    requires Shortened(m, id, url, md5, now)
    requires forall n :: !fault(n)
    ensures var (ok, io') := DeleteUrlCorrected(Io(m, []), id, md5, fault, now);
      && ok
      && Lookup(io'.storage, id, now) == None
      && Lookup(io'.storage, StatsKey(id), now) == None
      && Lookup(io'.storage, GenerateUrlKey(url, md5), now) == None
  {
    var key := GenerateUrlKey(url, md5);
    var (found, io1) := Issue(Io(m, []), GetCall(id), fault, now);
    assert found == Value(Some(url)) && io1.storage == m;
    var io2 := Issue(io1, DelCall(id), fault, now).1;
    var io3 := Issue(io2, DelCall(StatsKey(id)), fault, now).1;
    var io4 := Issue(io3, DelCall(key), fault, now).1;
    assert io4.storage == m - {id} - {StatsKey(id)} - {key};
    assert DeleteUrlCorrected(Io(m, []), id, md5, fault, now) == (true, io4);
  }
}
