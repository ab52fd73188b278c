/**
 * app/api/logs/route.ts: the in-memory log buffer `memoryLogs` that keeps
 * the last 1000 entries, and `GET /api/logs`, which filters it by level and
 * by search text and returns its tail.
 *
 * The buffer is the class LogBuffer; `addLog` and `GET` are its methods.
 * An entry's `details` are kept as their `JSON.stringify` text (None when
 * they are falsy); clocks enter as `timestamp` strings and the session
 * check as an Auth value.
 */
module Logs {
  import opened Wrappers
  import opened Strings
  import opened JsRuntime

  /** The buffer keeps at most this many entries (line 17). */
  const MaxLogs: nat := 1000

  datatype LogEntry = LogEntry(timestamp: string, level: string, message: string, details: Option<string>)

  /** Lines 16-26: drop the oldest entry when the buffer is full, then append. */
  function Appended(entries: seq<LogEntry>, e: LogEntry): (r: seq<LogEntry>)
    ensures |entries| < MaxLogs ==> r == entries + [e]
    ensures |entries| >= MaxLogs ==> r == entries[1..] + [e]
  {
    (if |entries| >= MaxLogs then entries[1..] else entries) + [e]
  }

  /**
   * The buffer never outgrows 1000 entries; the new entry is last; the
   * entries before it are the old ones in order, all of them unless the
   * buffer was full, in which case exactly the oldest is gone.
   */
  lemma AppendedShape(entries: seq<LogEntry>, e: LogEntry)
    requires |entries| <= MaxLogs
    ensures var r := Appended(entries, e);
      && |r| <= MaxLogs
      && r[|r| - 1] == e
      && r[..|r| - 1] == entries[|entries| + 1 - |r|..]
      && (|r| == |entries| + 1 || (|entries| == MaxLogs && |r| == MaxLogs))
  {
    var r := Appended(entries, e);
    assert r[..|r| - 1] == (if |entries| >= MaxLogs then entries[1..] else entries);
  }

  /** The session check of lines 58-63. */
  datatype Auth = Denied | Granted(accessDetails: string)

  /** The query string: `level`, `limit` and `search`, each possibly absent. */
  datatype Query = Query(level: Option<string>, limit: Option<string>, search: Option<string>)

  datatype Response =
    | Unauthorized
    | Listing(logs: seq<LogEntry>, total: nat, filtered: nat, timestamp: string, debugEnabled: bool)

  /** Lines 74-76: the entries of exactly this level. */
  function ByLevel(entries: seq<LogEntry>, level: string): (r: seq<LogEntry>)
    ensures forall x :: x in r ==> x.level == level && x in entries
    ensures forall i :: 0 <= i < |entries| && entries[i].level == level ==> entries[i] in r
  {
    Filter(entries, (e: LogEntry) => e.level == level)
  }

  /** Lines 80-84: the lower-cased message or serialised details contain the lower-cased text. */
  predicate Matches(e: LogEntry, searchLower: string) {
    Contains(ToLower(e.message), searchLower)
    || (e.details.Some? && Contains(ToLower(e.details.value), searchLower))
  }

  function BySearch(entries: seq<LogEntry>, search: string): (r: seq<LogEntry>)
    ensures forall x :: x in r ==> Matches(x, ToLower(search)) && x in entries
    ensures forall i :: 0 <= i < |entries| && Matches(entries[i], ToLower(search)) ==> entries[i] in r
  {
    var searchLower := ToLower(search);
    Filter(entries, (e: LogEntry) => Matches(e, searchLower))
  }

  /** Line 68: `parseInt(limit || "100", 10)`. */
  function Limit(q: Query): Num {
    ParseInt(OrElse(q.limit, "100"))
  }

  /** Line 88: `slice(-limit)`. */
  function Tail(entries: seq<LogEntry>, limit: Num): (r: seq<LogEntry>)
    ensures |r| <= |entries| && r == entries[|entries| - |r|..]
    ensures forall x :: x in r ==> x in entries
  {
    SliceFrom(entries, Negate(limit))
  }

  /** Lines 72-88: the entries the response lists. */
  function Select(entries: seq<LogEntry>, q: Query): seq<LogEntry> {
    Pipeline(entries, q.level, q.search, Limit(q))
  }

  /** Lines 72-88 once the limit is parsed. */
  function Pipeline(entries: seq<LogEntry>, level: Option<string>, search: Option<string>, limit: Num): seq<LogEntry> {
    var byLevel := if Truthy(level) then ByLevel(entries, level.value) else entries;
    var bySearch := if Truthy(search) then BySearch(byLevel, search.value) else byLevel;
    Tail(bySearch, limit)
  }

  /** The entry the `logger.info` of lines 91-94 adds through the wrapper of lines 40-43. */
  function AccessEntry(timestamp: string, accessDetails: string): LogEntry {
    LogEntry(timestamp, "info", "API de logs accedida", Some(accessDetails))
  }

  /** `memoryLogs` and the two functions that use it. */
  class LogBuffer {
    var entries: seq<LogEntry>

    ghost predicate Valid()
      reads this
    {
      |entries| <= MaxLogs
    }

    constructor ()
      ensures entries == [] && Valid()
    {
      entries := [];
    }

    /** `addLog(level, message, details)` (lines 15-27). */
    method AddLog(level: string, message: string, details: Option<string>, timestamp: string)
      modifies this
      ensures entries == Appended(old(entries), LogEntry(timestamp, level, message, details))
      ensures old(Valid()) ==> Valid()
    {
      if |entries| >= MaxLogs {
        entries := entries[1..];
      }
      entries := entries + [LogEntry(timestamp, level, message, details)];
    }

    /**
     * `GET /api/logs` (lines 55-102): without a session a 401 and nothing
     * else; otherwise the selection, after which the access itself is logged
     * and only then is `total` read.
     */
    method Get(auth: Auth, q: Query, timestamp: string, debugEnabled: bool) returns (resp: Response)
      modifies this
      ensures auth.Denied? ==> resp == Unauthorized && entries == old(entries)
      ensures auth.Granted? ==>
        && entries == Appended(old(entries), AccessEntry(timestamp, auth.accessDetails))
        && resp == Listing(Select(old(entries), q), |entries|, |Select(old(entries), q)|, timestamp, debugEnabled)
      ensures old(Valid()) ==> Valid()
    {
      if auth.Denied? {
        return Unauthorized;
      }
      var level, limit, search := q.level, Limit(q), q.search;
      var filteredLogs := entries;
      if Truthy(level) {
        filteredLogs := ByLevel(filteredLogs, level.value);
      }
      if Truthy(search) {
        filteredLogs := BySearch(filteredLogs, search.value);
      }
      filteredLogs := Tail(filteredLogs, limit);
      AddLog("info", "API de logs accedida", Some(auth.accessDetails), timestamp);
      resp := Listing(filteredLogs, |entries|, |filteredLogs|, timestamp, debugEnabled);
    }
  }

  /** The level filter keeps the order: filtering a concatenation filters each part. */
  lemma ByLevelKeepsOrder(a: seq<LogEntry>, b: seq<LogEntry>, level: string)
    ensures ByLevel(a + b, level) == ByLevel(a, level) + ByLevel(b, level)
  {
    FilterAppend(a, b, (e: LogEntry) => e.level == level);
  }

  /** Lower-casing keeps an occurrence: a substring in any case is found case-insensitively. */
  lemma ContainsToLower(s: string, t: string)
    requires Contains(s, t)
    ensures Contains(ToLower(s), ToLower(t))
  {
    var i: nat :| i <= |s| && OccursAt(s, t, i);
    assert ToLower(s)[i..i + |t|] == ToLower(t) by {
      forall k | 0 <= k < |t| ensures ToLower(s)[i..i + |t|][k] == ToLower(t)[k] {
        assert s[i + k] == t[k];
      }
    }
    assert OccursAt(ToLower(s), ToLower(t), i);
  }

  /** The search is case-insensitive: an entry whose message holds the text, in any case, is kept. */
  lemma SearchFindsMessage(entries: seq<LogEntry>, search: string, i: nat)
    requires i < |entries| && Contains(entries[i].message, search)
    ensures entries[i] in BySearch(entries, search)
  {
    ContainsToLower(entries[i].message, search);
  }

  /** The search text's case does not matter. */
  lemma SearchIgnoresCase(entries: seq<LogEntry>, s1: string, s2: string)
    requires ToLower(s1) == ToLower(s2)
    ensures BySearch(entries, s1) == BySearch(entries, s2)
  {
  }

  /**
   * `slice(-limit)`: a positive limit keeps the last `min(limit, n)`
   * entries, 0 and NaN keep them all (`-0` is 0), and a negative limit
   * drops the first `-limit`.
   */
  lemma TailShape(entries: seq<LogEntry>, limit: Num)
    ensures var r := Tail(entries, limit);
      var n := |entries|;
      && (limit.Int? && limit.i > 0 ==> r == entries[if limit.i < n then n - limit.i else 0..])
      && (limit == Int(0) || limit.NaN? ==> r == entries)
      && (limit.Int? && limit.i < 0 ==> r == entries[if -limit.i < n then -limit.i else n..])
  {
  }

  /** Without a `limit` parameter the tail is the last 100 entries. */
  lemma DefaultLimit(q: Query)
    requires q.limit.None?
    ensures Limit(q) == Int(100)
  {
    assert OrElse(q.limit, "100") == "100";
    ParseIntOfHundred();
  }

  lemma ParseIntOfHundred()
    ensures ParseInt("100") == Int(100)
  {
    assert NatToString(1) == "1";
    assert NatToString(10) == "10";
    assert NatToString(100) == "100";
    ParseIntOfToString(Int(100));
  }

  /**
   * The listing holds entries of the buffer, in buffer order, of the
   * requested level and matching the search when those are given, and at
   * most `limit` of them for a positive limit.
   */
  lemma PipelineShape(entries: seq<LogEntry>, level: Option<string>, search: Option<string>, limit: Num)
    ensures var r := Pipeline(entries, level, search, limit);
      && (forall x :: x in r ==> x in entries)
      && (Truthy(level) ==> forall x :: x in r ==> x.level == level.value)
      && (Truthy(search) ==> forall x :: x in r ==> Matches(x, ToLower(search.value)))
      && (limit.Int? && limit.i > 0 ==> |r| <= limit.i)
  {
    var byLevel := if Truthy(level) then ByLevel(entries, level.value) else entries;
    var bySearch := if Truthy(search) then BySearch(byLevel, search.value) else byLevel;
    TailShape(bySearch, limit);
  }
}
