/**
 * app/api/auth/debug/route.ts, the two pure steps of the diagnostic
 * response: the cookie list with authentication values cut short, and the
 * request headers without the credential-bearing ones. The session lookup,
 * the environment fields and the clock are not part of this model.
 */
module AuthDebug {
  import opened Wrappers
  import opened Strings
  import opened JsRuntime

  /** Line 40: the cookie names whose values are cut short. */
  predicate Sensitive(name: string) {
    Contains(name, "supabase") || Contains(name, "auth") || Contains(name, "session")
  }

  /** Line 38: `const [name, value] = cookie.split("=")`; None is `undefined`. */
  function CookieValue(cookie: string): (v: Option<string>)
    ensures v.Some? <==> CountChar(cookie, '=') >= 1
  {
    SplitPieces(cookie, '=');
    var parts := Split(cookie, '=');
    if |parts| > 1 then Some(parts[1]) else None
  }

  function CookieName(cookie: string): string {
    Split(cookie, '=')[0]
  }

  /** `value.substring(0, 5)`: at most the first five characters. */
  function FirstFive(v: string): (r: string)
    ensures |r| <= 5 && r <= v
    ensures |v| >= 5 ==> |r| == 5
  {
    if |v| <= 5 then v else v[..5]
  }

  /** Lines 37-44: one trimmed cookie as the response shows it. */
  function Redact(cookie: string): (r: string)
    ensures CookieName(cookie) == "" || !Sensitive(CookieName(cookie)) ==> r == cookie
    ensures CookieName(cookie) != "" && Sensitive(CookieName(cookie)) ==>
      |CookieName(cookie)| < |r| <= |CookieName(cookie)| + 10 && r[..|CookieName(cookie)| + 1] == CookieName(cookie) + "="
  {
    var name, value := CookieName(cookie), CookieValue(cookie);
    if name != "" && Sensitive(name) then
      var shown := if Truthy(value) then FirstFive(value.value) + "..." else "undefined";
      assert (name + "=" + shown)[..|name| + 1] == name + "=";
      name + "=" + shown
    else cookie
  }

  /** Lines 33-44: `cookie` header (None when absent) to the list of shown cookies. */
  function FilteredCookies(header: Option<string>): (r: seq<string>)
    ensures |r| == |Split(OrElse(header, ""), ';')| == CountChar(OrElse(header, ""), ';') + 1
    ensures forall i :: 0 <= i < |r| ==> r[i] == Redact(Trim(Split(OrElse(header, ""), ';')[i]))
  {
    SplitPieces(OrElse(header, ""), ';');
    var pieces := Split(OrElse(header, ""), ';');
    seq(|pieces|, i requires 0 <= i < |pieces| => Redact(Trim(pieces[i])))
  }

  /** A missing or empty header gives the one entry `""`. */
  lemma EmptyHeader(header: Option<string>)
    requires !Truthy(header)
    ensures FilteredCookies(header) == [""]
  {
    assert Split("", ';') == [""];
    assert Trim("") == "";
    assert Split("", '=') == [""];
  }

  /** A cookie whose name is not sensitive, or that has no name, is shown as it came. */
  lemma OtherCookiesUnchanged(cookie: string)
    requires CookieName(cookie) == "" || !Sensitive(CookieName(cookie))
    ensures Redact(cookie) == cookie
  {
  }

  /**
   * A sensitive cookie `name=value` (the value possibly followed by more
   * `=`-separated text) shows its name, then `=`, then at most five
   * characters of the text between the first and second `=` and `...`, or
   * `undefined` when that text is empty or missing.
   */
  lemma SensitiveCookieShape(name: string, value: string, more: string)
    requires '=' !in name && '=' !in value && name != "" && Sensitive(name)
    ensures Redact(name + "=" + value) == name + "=" + (if value != "" then FirstFive(value) + "..." else "undefined")
    ensures Redact(name + "=" + value + "=" + more) == Redact(name + "=" + value)
  {
    SplitOfNoSep(name, '=');
    SplitOfNoSep(value, '=');
    SplitAfterSep(name, '=', value);
    SplitAfterSep(name, '=', value + "=" + more);
    SplitAfterSep(value, '=', more);
    assert name + "=" + value + "=" + more == name + "=" + (value + "=" + more);
  }

  /** A sensitive cookie without `=` shows as `name=undefined`. */
  lemma SensitiveWithoutValue(name: string)
    requires '=' !in name && name != "" && Sensitive(name)
    ensures Redact(name) == name + "=undefined"
  {
    SplitOfNoSep(name, '=');
  }

  /** A string without the separator is one piece. */
  lemma {:induction false} SplitOfNoSep(s: string, sep: char)
    requires sep !in s
    ensures Split(s, sep) == [s]
    decreases |s|
  {
    if |s| > 0 {
      assert sep !in s[1..] by { assert forall c :: c in s[1..] ==> c in s; }
      SplitOfNoSep(s[1..], sep);
      assert [s[0]] + s[1..] == s;
    }
  }

  /** Splitting `a + sep + b` with `sep` not in `a`: `a`, then the pieces of `b`. */
  lemma {:induction false} SplitAfterSep(a: string, sep: char, b: string)
    requires sep !in a
    ensures Split(a + [sep] + b, sep) == [a] + Split(b, sep)
    decreases |a|
  {
    if |a| == 0 {
      assert a + [sep] + b == [sep] + b;
      assert ([sep] + b)[1..] == b;
    } else {
      assert sep !in a[1..] by { assert forall c :: c in a[1..] ==> c in a; }
      SplitAfterSep(a[1..], sep, b);
      assert (a + [sep] + b)[1..] == a[1..] + [sep] + b;
      assert [a[0]] + a[1..] == a;
    }
  }

  /** Lines 60-64: a header name the response may show. */
  predicate ShownHeader(name: string) {
    !Contains(name, "authorization") && !Contains(name, "cookie")
  }

  /** `Object.fromEntries`: later entries overwrite earlier ones with the same name. */
  function FromEntries(entries: seq<(string, string)>): (r: map<string, string>)
    decreases |entries|
    ensures forall k :: k in r <==> exists i :: 0 <= i < |entries| && entries[i].0 == k
  {
    if |entries| == 0 then map[]
    else
      var last := entries[|entries| - 1];
      var r := FromEntries(entries[..|entries| - 1]);
      assert forall i :: 0 <= i < |entries| - 1 ==> entries[..|entries| - 1][i] == entries[i];
      r[last.0 := last.1]
  }

  /** `(k, v)` is the last entry named `k`. */
  predicate LastEntryIs(entries: seq<(string, string)>, k: string, v: string) {
    exists i :: 0 <= i < |entries| && entries[i] == (k, v) && forall j :: i < j < |entries| ==> entries[j].0 != k
  }

  /** The value `Object.fromEntries` keeps under a name is that of the name's last entry. */
  lemma {:induction false} FromEntriesLastWins(entries: seq<(string, string)>, k: string)
    decreases |entries|
    requires k in FromEntries(entries)
    ensures LastEntryIs(entries, k, FromEntries(entries)[k])
  {
    var n := |entries|;
    var front := entries[..n - 1];
    var last := entries[n - 1];
    assert entries == front + [last];
    FromEntriesSnoc(front, last);
    var v := FromEntries(entries)[k];
    if last.0 == k {
      assert entries[n - 1] == (k, v);
    } else {
      assert k in FromEntries(front) && FromEntries(front)[k] == v;
      FromEntriesLastWins(front, k);
      var i :| 0 <= i < |front| && front[i] == (k, v) && forall j :: i < j < |front| ==> front[j].0 != k;
      assert entries[i] == (k, v);
      assert forall j :: i < j < n ==> entries[j].0 != k by {
        forall j | i < j < n ensures entries[j].0 != k {
          if j < n - 1 { assert entries[j] == front[j]; }
        }
      }
    }
  }

  /** One more entry overwrites its name and nothing else. */
  lemma FromEntriesSnoc(entries: seq<(string, string)>, e: (string, string))
    ensures FromEntries(entries + [e]) == FromEntries(entries)[e.0 := e.1]
  {
    assert (entries + [e])[..|entries|] == entries;
  }

  /** Lines 60-64: the filter's test, on the entry's name. */
  predicate ShownEntry(e: (string, string)) {
    ShownHeader(e.0)
  }

  /** Lines 60-64: the header object of the response. */
  function ShownHeaders(entries: seq<(string, string)>): (r: map<string, string>)
    ensures forall k :: k in r ==> ShownHeader(k)
  {
    FromEntries(Filter(entries, ShownEntry))
  }

  /** The entries of `m` whose names may be shown. */
  function ShownPart(m: map<string, string>): map<string, string> {
    map k | k in m && ShownHeader(k) :: m[k]
  }

  /**
   * Filtering the entries before `Object.fromEntries` is the same as building
   * the whole header object and keeping its shown names: each shown header
   * keeps the value the request gave it.
   */
  lemma {:induction false} ShownHeadersArePart(entries: seq<(string, string)>)
    decreases |entries|
    ensures ShownHeaders(entries) == ShownPart(FromEntries(entries))
  {
    if |entries| == 0 {
      assert Filter(entries, ShownEntry) == [];
      assert ShownPart(map[]) == map[];
    } else {
      var front := entries[..|entries| - 1];
      var last := entries[|entries| - 1];
      assert entries == front + [last];
      var kept := Filter(front, ShownEntry);
      ShownHeadersArePart(front);
      assert FromEntries(kept) == ShownPart(FromEntries(front));
      FilterAppend(front, [last], ShownEntry);
      FilterSingle(last);
      FromEntriesSnoc(front, last);
      if ShownEntry(last) {
        assert Filter(entries, ShownEntry) == kept + [last];
        FromEntriesSnoc(kept, last);
      } else {
        assert Filter(entries, ShownEntry) == kept + [] == kept;
      }
      ShownPartUpdate(FromEntries(front), last.0, last.1);
    }
  }

  lemma FilterSingle(e: (string, string))
    ensures Filter([e], ShownEntry) == if ShownEntry(e) then [e] else []
  {
    assert [e][1..] == [];
  }

  /** Overwriting a shown name shows the new value; overwriting a hidden one shows nothing new. */
  lemma ShownPartUpdate(m: map<string, string>, k: string, v: string)
    ensures ShownHeader(k) ==> ShownPart(m[k := v]) == ShownPart(m)[k := v]
    ensures !ShownHeader(k) ==> ShownPart(m[k := v]) == ShownPart(m)
  {
  }

  /**
   * Exactly the request headers whose names hold neither `authorization` nor
   * `cookie` are shown, each with the value of its last entry in the request.
   */
  lemma ShownHeadersExactly(entries: seq<(string, string)>, k: string)
    ensures k in ShownHeaders(entries) <==> ShownHeader(k) && exists i :: 0 <= i < |entries| && entries[i].0 == k
    ensures k in ShownHeaders(entries) ==>
      LastEntryIs(entries, k, ShownHeaders(entries)[k])
  {
    ShownHeadersArePart(entries);
    if k in ShownHeaders(entries) {
      FromEntriesLastWins(entries, k);
    }
  }
}
