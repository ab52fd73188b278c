/**
 * What `POST /api/shorten` promises, proved about Shorten.PostSpec (and so
 * about the handler Shorten.Post, which is proved equal to it).
 */
module ShortenLaws {
  import opened Wrappers
  import opened Strings
  import opened UrlUtils
  import opened Redis
  import opened Shorten

  /** No store command of the request fails. */
  ghost predicate NoFaults(fault: nat -> bool) {
    forall n :: !fault(n)
  }

  /** The absolute time at which the entries the handler writes or renews expire. */
  function Deadline(now: nat): int {
    now + TtlSeconds * 1000
  }

  /** The existence checks of candidates `from .. to - 1`, in order. */
  function Checks(draw: RandomDraws, from: nat, to: nat): (r: seq<Call>)
    requires from <= to
    ensures |r| == to - from
    ensures forall i :: 0 <= i < |r| ==> r[i] == ExistsCall(Candidate(draw, from + i))
  {
    seq(to - from, i requires 0 <= i < to - from => ExistsCall(Candidate(draw, from + i)))
  }

  /**
   * The check of candidate `j`, issued at trace position `base + (j - from)`,
   * ran and found the candidate live in `m`.
   */
  predicate Taken(m: Storage, draw: RandomDraws, fault: nat -> bool, now: nat, base: nat, from: nat, j: nat)
    requires from <= j
  {
    !fault(base + (j - from)) && ExistsOp(m, Candidate(draw, j), now) != 0
  }

  /**
   * The collision loop, characterised: it never changes the store, it
   * checks candidates `a, a + 1, ...` in order, at most MaxAttempts in all,
   * every candidate it passes over was taken, and the one it stops at (when
   * it stops early) was free or its check failed.
   */
  lemma MintLoopChecks(io: Io, a: nat, draw: RandomDraws, fault: nat -> bool, now: nat)
    requires a <= MaxAttempts
    ensures var (k, io') := MintLoop(io, a, draw, fault, now);
      && io'.storage == io.storage
      && io'.trace == io.trace + Checks(draw, a, if k < MaxAttempts then k + 1 else MaxAttempts)
      && (forall j :: a <= j < k ==> Taken(io.storage, draw, fault, now, |io.trace|, a, j))
      && (k < MaxAttempts ==> !Taken(io.storage, draw, fault, now, |io.trace|, a, k))
  {
    MintLoopTrace(io, a, draw, fault, now);
    MintLoopTaken(io, a, draw, fault, now);
  }

  /** The loop leaves the store as it was and issues the checks of candidates `a ..` in order. */
  lemma {:induction false} MintLoopTrace(io: Io, a: nat, draw: RandomDraws, fault: nat -> bool, now: nat)
    requires a <= MaxAttempts
    decreases MaxAttempts - a
    ensures var r := MintLoop(io, a, draw, fault, now);
      && r.1.storage == io.storage
      && r.1.trace == io.trace + Checks(draw, a, if r.0 < MaxAttempts then r.0 + 1 else MaxAttempts)
  {
    if a < MaxAttempts {
      var c := ExistsCall(Candidate(draw, a));
      var io1 := Io(io.storage, io.trace + [c]);
      MintLoopStep(io, a, draw, fault, now);
      if Taken(io.storage, draw, fault, now, |io.trace|, a, a) {
        MintLoopTrace(io1, a + 1, draw, fault, now);
        var r := MintLoop(io1, a + 1, draw, fault, now);
        ChecksSplit(draw, a, if r.0 < MaxAttempts then r.0 + 1 else MaxAttempts);
      } else {
        assert [c] == Checks(draw, a, a + 1);
      }
    }
  }

  /** Every candidate the loop passes over was taken, and the one it stops at early was not. */
  lemma MintLoopTaken(io: Io, a: nat, draw: RandomDraws, fault: nat -> bool, now: nat)
    requires a <= MaxAttempts
    ensures var r := MintLoop(io, a, draw, fault, now);
      && (forall j :: a <= j < r.0 ==> Taken(io.storage, draw, fault, now, |io.trace|, a, j))
      && (r.0 < MaxAttempts ==> !Taken(io.storage, draw, fault, now, |io.trace|, a, r.0))
  {
    MintLoopPasses(io, a, draw, fault, now);
    MintLoopStops(io, a, draw, fault, now);
  }

  lemma {:induction false} MintLoopPasses(io: Io, a: nat, draw: RandomDraws, fault: nat -> bool, now: nat)
    requires a <= MaxAttempts
    decreases MaxAttempts - a
    ensures forall j :: a <= j < MintLoop(io, a, draw, fault, now).0 ==> Taken(io.storage, draw, fault, now, |io.trace|, a, j)
  {
    if a < MaxAttempts {
      var io1 := Io(io.storage, io.trace + [ExistsCall(Candidate(draw, a))]);
      MintLoopStep(io, a, draw, fault, now);
      if Taken(io.storage, draw, fault, now, |io.trace|, a, a) {
        MintLoopPasses(io1, a + 1, draw, fault, now);
        var k := MintLoop(io1, a + 1, draw, fault, now).0;
        forall j | a + 1 <= j < k
          ensures Taken(io.storage, draw, fault, now, |io.trace|, a, j)
        {
          assert Taken(io1.storage, draw, fault, now, |io1.trace|, a + 1, j);
        }
      }
    }
  }

  lemma {:induction false} MintLoopStops(io: Io, a: nat, draw: RandomDraws, fault: nat -> bool, now: nat)
    requires a <= MaxAttempts
    decreases MaxAttempts - a
    ensures var k := MintLoop(io, a, draw, fault, now).0;
      k < MaxAttempts ==> fault(|io.trace| + (k - a)) || ExistsOp(io.storage, Candidate(draw, k), now) == 0
  {
    if a < MaxAttempts {
      var io1 := Io(io.storage, io.trace + [ExistsCall(Candidate(draw, a))]);
      MintLoopStep(io, a, draw, fault, now);
      if Taken(io.storage, draw, fault, now, |io.trace|, a, a) {
        MintLoopStops(io1, a + 1, draw, fault, now);
        var k := MintLoop(io1, a + 1, draw, fault, now).0;
        assert |io1.trace| + (k - (a + 1)) == |io.trace| + (k - a);
      }
    }
  }

  /** One turn of the collision loop: a taken candidate moves on to the next, anything else stops it. */
  lemma MintLoopStep(io: Io, a: nat, draw: RandomDraws, fault: nat -> bool, now: nat)
    requires a < MaxAttempts
    ensures var io1 := Io(io.storage, io.trace + [ExistsCall(Candidate(draw, a))]);
      MintLoop(io, a, draw, fault, now) ==
        if Taken(io.storage, draw, fault, now, |io.trace|, a, a) then MintLoop(io1, a + 1, draw, fault, now) else (a, io1)
  {
    IssueExists(io, Candidate(draw, a), fault, now);
  }

  /** An existence check: it answers ExistsOp unless it fails, and never changes the store. */
  lemma IssueExists(io: Io, key: string, fault: nat -> bool, now: nat)
    ensures Issue(io, ExistsCall(key), fault, now) ==
      (if fault(|io.trace|) then Threw else Count(ExistsOp(io.storage, key, now)), Io(io.storage, io.trace + [ExistsCall(key)]))
  {
  }

  lemma ChecksSplit(draw: RandomDraws, a: nat, b: nat)
    requires a < b
    ensures Checks(draw, a, b) == [ExistsCall(Candidate(draw, a))] + Checks(draw, a + 1, b)
  {
    assert Checks(draw, a, b)[1..] == Checks(draw, a + 1, b);
  }

  /** The renewal block issues one to three commands after those already issued. */
  lemma RenewTrace(io: Io, id: string, urlKey: string, url: string, fault: nat -> bool, now: nat)
    ensures var io' := Renew(io, id, urlKey, url, fault, now);
      io.trace < io'.trace && |io'.trace| <= |io.trace| + 3
  {
  }

  /** The writes issue one or two commands after those already issued. */
  lemma SaveNewTrace(io: Io, id: string, url: string, urlKey: string, spanish: bool, ctx: Context, fault: nat -> bool, now: nat)
    ensures var io' := SaveNew(io, id, url, urlKey, spanish, ctx, fault, now).2;
      io.trace < io'.trace && |io'.trace| <= |io.trace| + 2
  {
  }

  /** The collision loop and the writes after it issue one to seven commands. */
  lemma MintNewTrace(io: Io, url: string, urlKey: string, spanish: bool, ctx: Context, fault: nat -> bool, now: nat)
    ensures var io' := MintNew(io, url, urlKey, spanish, ctx, fault, now).2;
      io.trace < io'.trace && |io'.trace| <= |io.trace| + 7
  {
    MintLoopTrace(io, 0, ctx.draw, fault, now);
    var (k, io1) := MintLoop(io, 0, ctx.draw, fault, now);
    assert io.trace < io1.trace;
    if k < MaxAttempts {
      SaveNewTrace(io1, Candidate(ctx.draw, k), url, urlKey, spanish, ctx, fault, now);
    }
  }

  /** The index lookup: its answer is what a reader sees, and only an expired entry is dropped. */
  lemma IssueGet(io: Io, key: string, fault: nat -> bool, now: nat)
    ensures Issue(io, GetCall(key), fault, now) ==
      if fault(|io.trace|) then (Threw, Io(io.storage, io.trace + [GetCall(key)]))
      else (Value(Lookup(io.storage, key, now)), Io(GetOp(io.storage, key, now).1, io.trace + [GetCall(key)]))
  {
  }

  /** A fault-free renewal of a live id: both keys get a fresh 24-hour TTL. */
  lemma RenewLive(io: Io, id: string, urlKey: string, url: string, fault: nat -> bool, now: nat)
    requires NoFaults(fault)
    requires Lookup(io.storage, id, now).Some? && Lookup(io.storage, urlKey, now).Some?
    ensures Renew(io, id, urlKey, url, fault, now) ==
      Io(io.storage[id := Entry(io.storage[id].value, Deadline(now))][urlKey := Entry(io.storage[urlKey].value, Deadline(now))],
         io.trace + [ExistsCall(id), ExpireCall(id, TtlSeconds), ExpireCall(urlKey, TtlSeconds)])
  {
    var m := io.storage;
    IssueExists(io, id, fault, now);
    var io1 := Io(m, io.trace + [ExistsCall(id)]);
    assert !fault(|io.trace|) && !fault(|io1.trace|) && !fault(|io1.trace| + 1);
    var m2 := m[id := Entry(m[id].value, Deadline(now))];
    assert ExpireOp(m, id, TtlSeconds, now) == (1, m2);
    var io2 := Io(m2, io1.trace + [ExpireCall(id, TtlSeconds)]);
    assert Issue(io1, ExpireCall(id, TtlSeconds), fault, now) == (Count(1), io2);
    assert Lookup(m2, urlKey, now).Some?;
    assert m2[urlKey].value == m[urlKey].value;
    assert ExpireOp(m2, urlKey, TtlSeconds, now).1 == m2[urlKey := Entry(m[urlKey].value, Deadline(now))];
  }

  /** A fault-free renewal of an expired id: the id is written again with the URL for 24 hours. */
  lemma RenewExpired(io: Io, id: string, urlKey: string, url: string, fault: nat -> bool, now: nat)
    requires NoFaults(fault)
    requires Lookup(io.storage, id, now).None?
    ensures Renew(io, id, urlKey, url, fault, now) ==
      Io(io.storage[id := Entry(url, Deadline(now))], io.trace + [ExistsCall(id), SetCall(id, url, Some(TtlSeconds))])
  {
    IssueExists(io, id, fault, now);
    var io1 := Io(io.storage, io.trace + [ExistsCall(id)]);
    assert !fault(|io.trace|) && !fault(|io1.trace|);
  }

  /** A request refused by validation issues no command and leaves the store as it was. */
  lemma RefusedIssuesNothing(io: Io, body: Body, ctx: Context, fault: nat -> bool, now: nat)
    ensures var (resp, path, io') := PostSpec(io, body, ctx, fault, now);
      && (Screen(body, ctx.parse).Refuse? ==> resp == Screen(body, ctx.parse).resp && path == Rejected && io' == io)
      && (Screen(body, ctx.parse).Admit? ==> path != Rejected && |io'.trace| > |io.trace|)
  {
    if Screen(body, ctx.parse).Admit? {
      SuccessShape(io, Screen(body, ctx.parse).url, Screen(body, ctx.parse).spanish, ctx, fault, now);
      LookupComesFirst(io, Screen(body, ctx.parse).url, Screen(body, ctx.parse).spanish, ctx, fault, now);
    }
  }

  /** A URL without a scheme and the same URL with `https://` are one URL to the handler. */
  lemma SchemeIsOptional(url: string, parse: UrlParser, md5: Digest)
    requires !HasScheme(url)
    ensures IsValidUrl(url, parse) == IsValidUrl("https://" + url, parse)
    ensures IndexKey(url, md5) == IndexKey("https://" + url, md5)
  {
    assert StartsWith("https://" + url, "https://");
  }

  /**
   * Every admitted request starts by reading the index key of its normalised
   * URL, and issues at most eight commands: the lookup, then either the
   * renewal (at most three) or up to five checks and two writes.
   */
  lemma LookupComesFirst(io: Io, url: string, spanish: bool, ctx: Context, fault: nat -> bool, now: nat)
    ensures var io' := Admitted(io, url, spanish, ctx, fault, now).2;
      && |io.trace| < |io'.trace| <= |io.trace| + 8
      && io'.trace[..|io.trace| + 1] == io.trace + [GetCall(IndexKey(url, ctx.md5))]
  {
    var key := IndexKey(url, ctx.md5);
    IssueGet(io, key, fault, now);
    var (found, io1) := Issue(io, GetCall(key), fault, now);
    var io' := Admitted(io, url, spanish, ctx, fault, now).2;
    if Found(found) {
      assert io' == Renew(io1, found.v.value, key, NormalizeUrl(url), fault, now);
      RenewTrace(io1, found.v.value, key, NormalizeUrl(url), fault, now);
    } else {
      assert io' == MintNew(io1, NormalizeUrl(url), key, spanish, ctx, fault, now).2;
      MintNewTrace(io1, NormalizeUrl(url), key, spanish, ctx, fault, now);
    }
    assert io1.trace <= io'.trace;
    assert io'.trace[..|io1.trace|] == io1.trace;
  }

  /**
   * A failing lookup is taken for a miss: a new id is minted, and the first
   * candidate is checked next.
   */
  lemma LookupFailureMints(io: Io, url: string, spanish: bool, ctx: Context, fault: nat -> bool, now: nat)
    requires fault(|io.trace|)
    ensures var (_, path, io') := Admitted(io, url, spanish, ctx, fault, now);
      && (path == Minted || path == Exhausted || path == WriteFailed)
      && |io'.trace| > |io.trace| + 1
      && io'.trace[|io.trace| + 1] == ExistsCall(Candidate(ctx.draw, 0))
  {    var key := IndexKey(url, ctx.md5);
    var io1 := Io(io.storage, io.trace + [GetCall(key)]);
    assert Issue(io, GetCall(key), fault, now) == (Threw, io1);
    assert Admitted(io, url, spanish, ctx, fault, now) == MintNew(io1, NormalizeUrl(url), key, spanish, ctx, fault, now);
    MintLoopChecks(io1, 0, ctx.draw, fault, now);
    var (attempts, io2) := MintLoop(io1, 0, ctx.draw, fault, now);
    assert io2.trace[|io1.trace|] == ExistsCall(Candidate(ctx.draw, 0));
    if attempts < MaxAttempts {
      SaveNewTrace(io2, Candidate(ctx.draw, attempts), NormalizeUrl(url), key, spanish, ctx, fault, now);
    }
  }

  /**
   * An index hit whose id is still live: both the id and the index key are
   * given a fresh 24-hour TTL, no new id is drawn, and the same id is answered.
   */
  lemma RenewsLiveId(m: Storage, url: string, spanish: bool, ctx: Context, fault: nat -> bool, now: nat, id: string)
    requires NoFaults(fault)
    requires Lookup(m, IndexKey(url, ctx.md5), now) == Some(id) && id != ""
    requires Lookup(m, id, now).Some?
    ensures var key := IndexKey(url, ctx.md5);
      var (resp, path, io') := Admitted(Io(m, []), url, spanish, ctx, fault, now);
      && resp == Answer(ctx, id) && path == IndexHit
      && io'.trace == [GetCall(key), ExistsCall(id), ExpireCall(id, TtlSeconds), ExpireCall(key, TtlSeconds)]
      && io'.storage == m[id := Entry(m[id].value, Deadline(now))][key := Entry(id, Deadline(now))]
  {
    var key := IndexKey(url, ctx.md5);
    IssueGet(Io(m, []), key, fault, now);
    var io1 := Io(m, [GetCall(key)]);
    assert !fault(0) && GetOp(m, key, now).1 == m && [] + [GetCall(key)] == [GetCall(key)];
    assert Issue(Io(m, []), GetCall(key), fault, now) == (Value(Some(id)), io1);
    assert Admitted(Io(m, []), url, spanish, ctx, fault, now) ==
      (Answer(ctx, id), IndexHit, Renew(io1, id, key, NormalizeUrl(url), fault, now));
    RenewLive(io1, id, key, NormalizeUrl(url), fault, now);
    assert [GetCall(key)] + [ExistsCall(id), ExpireCall(id, TtlSeconds), ExpireCall(key, TtlSeconds)] ==
      [GetCall(key), ExistsCall(id), ExpireCall(id, TtlSeconds), ExpireCall(key, TtlSeconds)];
  }

  /**
   * An index hit whose id has expired (the index outlived it): the id is
   * written again with the URL for 24 hours, the index entry is left as it
   * is, and the same id is answered.
   */
  lemma RestoresExpiredId(m: Storage, url: string, spanish: bool, ctx: Context, fault: nat -> bool, now: nat, id: string)
    requires NoFaults(fault)
    requires Lookup(m, IndexKey(url, ctx.md5), now) == Some(id) && id != ""
    requires Lookup(m, id, now).None?
    ensures var key := IndexKey(url, ctx.md5);
      var (resp, path, io') := Admitted(Io(m, []), url, spanish, ctx, fault, now);
      && resp == Answer(ctx, id) && path == IndexHit
      && io'.trace == [GetCall(key), ExistsCall(id), SetCall(id, NormalizeUrl(url), Some(TtlSeconds))]
      && io'.storage == m[id := Entry(NormalizeUrl(url), Deadline(now))]
      && io'.storage[key] == m[key]
  {
    var key := IndexKey(url, ctx.md5);
    IssueGet(Io(m, []), key, fault, now);
    var io1 := Io(m, [GetCall(key)]);
    assert !fault(0) && GetOp(m, key, now).1 == m && [] + [GetCall(key)] == [GetCall(key)];
    assert Issue(Io(m, []), GetCall(key), fault, now) == (Value(Some(id)), io1);
    assert Admitted(Io(m, []), url, spanish, ctx, fault, now) ==
      (Answer(ctx, id), IndexHit, Renew(io1, id, key, NormalizeUrl(url), fault, now));
    RenewExpired(io1, id, key, NormalizeUrl(url), fault, now);
    assert [GetCall(key)] + [ExistsCall(id), SetCall(id, NormalizeUrl(url), Some(TtlSeconds))] ==
      [GetCall(key), ExistsCall(id), SetCall(id, NormalizeUrl(url), Some(TtlSeconds))];
    assert id != key;
  }

  /**
   * Lines 68-71: once the lookup has answered an id, any failure during the
   * renewal is swallowed. Whichever later command fails, the same id is
   * answered, and the renewal issues one to three commands after the lookup,
   * the first of them the id's existence check.
   */
  lemma RenewalFailuresSwallowed(io: Io, url: string, spanish: bool, ctx: Context, fault: nat -> bool, now: nat, id: string)
    requires !fault(|io.trace|)
    requires Lookup(io.storage, IndexKey(url, ctx.md5), now) == Some(id) && id != ""
    ensures var (resp, path, io') := Admitted(io, url, spanish, ctx, fault, now);
      && resp == Answer(ctx, id) && path == IndexHit
      && |io.trace| + 2 <= |io'.trace| <= |io.trace| + 4
      && io'.trace[|io.trace|] == GetCall(IndexKey(url, ctx.md5))
      && io'.trace[|io.trace| + 1] == ExistsCall(id)
  {
    var key := IndexKey(url, ctx.md5);
    IssueGet(io, key, fault, now);
    var io1 := Io(GetOp(io.storage, key, now).1, io.trace + [GetCall(key)]);
    RenewTrace(io1, id, key, NormalizeUrl(url), fault, now);
  }

  /**
   * Line 21: a url or lang that cannot be turned into a string makes the log
   * line throw before validation, into the generic 500 (Spanish only for
   * `lang: "es"`), and no store command is issued.
   */
  lemma UnprintableFieldIs500(io: Io, url: Field, lang: Field, ctx: Context, fault: nat -> bool, now: nat)
    requires url.Unprintable? || lang.Unprintable?
    ensures PostSpec(io, Json(url, lang), ctx, fault, now) ==
      (Failure(500, GeneralError, lang == Str("es")), Rejected, io)
  {
  }

  /**
   * Five taken candidates in a row: a 500 "could not generate a unique ID",
   * nothing written, and exactly five checks after the lookup. The only
   * change to the store is the lookup's eviction, which no reader can see.
   */
  lemma ExhaustedWritesNothing(io: Io, url: string, spanish: bool, ctx: Context, fault: nat -> bool, now: nat)
    ensures var (resp, path, io') := Admitted(io, url, spanish, ctx, fault, now);
      path == Exhausted ==>
        && resp == Failure(500, NoUniqueId, spanish)
        && io'.trace == io.trace + [GetCall(IndexKey(url, ctx.md5))] + Checks(ctx.draw, 0, MaxAttempts)
        && SameView(io.storage, io'.storage, now)
  {    var key := IndexKey(url, ctx.md5);
    var (found, io1) := Issue(io, GetCall(key), fault, now);
    if !Found(found) {
      assert Admitted(io, url, spanish, ctx, fault, now) == MintNew(io1, NormalizeUrl(url), key, spanish, ctx, fault, now);
      MintLoopChecks(io1, 0, ctx.draw, fault, now);
      var (attempts, io2) := MintLoop(io1, 0, ctx.draw, fault, now);
      if attempts >= MaxAttempts {
        assert MintNew(io1, NormalizeUrl(url), key, spanish, ctx, fault, now) == (Failure(500, NoUniqueId, spanish), Exhausted, io2);
        assert SameView(io.storage, io1.storage, now) by {
          if !fault(|io.trace|) {
            assert io1.storage == GetOp(io.storage, key, now).1;
          }
        }
      } else {
        assert MintNew(io1, NormalizeUrl(url), key, spanish, ctx, fault, now) ==
          SaveNew(io2, Candidate(ctx.draw, attempts), NormalizeUrl(url), key, spanish, ctx, fault, now);
      }
    }
  }

  /**
   * The two writes of a new id: on success `id -> url` and then
   * `url:<md5> -> id`, both live until 24 hours from now; on a failure a
   * 500, and the index key reads as it did before.
   */
  lemma SaveNewShape(io: Io, id: string, url: string, urlKey: string, spanish: bool, ctx: Context, fault: nat -> bool, now: nat)
    requires id != urlKey
    ensures var (resp, path, io') := SaveNew(io, id, url, urlKey, spanish, ctx, fault, now);
      && (path == Minted || path == WriteFailed)
      && (path == Minted <==> !fault(|io.trace|) && !fault(|io.trace| + 1))
      && (path == Minted ==>
        && resp == Answer(ctx, id)
        && io'.trace == io.trace + [SetCall(id, url, Some(TtlSeconds)), SetCall(urlKey, id, Some(TtlSeconds))]
        && io'.storage == io.storage[id := Entry(url, Deadline(now))][urlKey := Entry(id, Deadline(now))]
        && Lookup(io'.storage, id, now) == Some(url)
        && Lookup(io'.storage, urlKey, now) == Some(id))
      && (path == WriteFailed ==>
        && resp == Failure(500, SaveFailed, spanish)
        && Lookup(io'.storage, urlKey, now) == Lookup(io.storage, urlKey, now))
  {
  }

  /**
   * A new id is one of the first five candidates: six alphabet characters,
   * never equal to the index key, and written exactly as SaveNewShape says.
   */
  lemma MintedIdShape(io: Io, url: string, spanish: bool, ctx: Context, fault: nat -> bool, now: nat)
    ensures var (resp, path, io') := Admitted(io, url, spanish, ctx, fault, now);
      path == Minted ==>
        && resp.Success?
        && (exists k: nat :: k < MaxAttempts && resp.shortId == Candidate(ctx.draw, k))
        && |resp.shortId| == DefaultIdLength
        && (forall i :: 0 <= i < |resp.shortId| ==> Unambiguous(resp.shortId[i]))
        && resp == Answer(ctx, resp.shortId)
        && Lookup(io'.storage, resp.shortId, now) == Some(NormalizeUrl(url))
        && Lookup(io'.storage, IndexKey(url, ctx.md5), now) == Some(resp.shortId)
        && io'.storage[resp.shortId] == Entry(NormalizeUrl(url), Deadline(now))
        && io'.storage[IndexKey(url, ctx.md5)] == Entry(resp.shortId, Deadline(now))
  {
    var key := IndexKey(url, ctx.md5);
    var (found, io1) := Issue(io, GetCall(key), fault, now);
    if !Found(found) {
      var (k, io2) := MintLoop(io1, 0, ctx.draw, fault, now);
      if k < MaxAttempts {
        IdIsNotIndexKey(ctx.draw, k * DefaultIdLength, DefaultIdLength, NormalizeUrl(url), ctx.md5);
        GeneratedIdShape(ctx.draw, k * DefaultIdLength, DefaultIdLength);
        SaveNewShape(io2, Candidate(ctx.draw, k), NormalizeUrl(url), key, spanish, ctx, fault, now);
      }
    }
  }

  /** A failed write never leaves the index key bound to the new id. */
  lemma WriteFailureAnswers500(io: Io, url: string, spanish: bool, ctx: Context, fault: nat -> bool, now: nat)
    ensures var (resp, path, io') := Admitted(io, url, spanish, ctx, fault, now);
      path == WriteFailed ==>
        && resp == Failure(500, SaveFailed, spanish)
        && Lookup(io'.storage, IndexKey(url, ctx.md5), now) == Lookup(io.storage, IndexKey(url, ctx.md5), now)
  {
    var key := IndexKey(url, ctx.md5);
    var (found, io1) := Issue(io, GetCall(key), fault, now);
    if !Found(found) {
      MintLoopChecks(io1, 0, ctx.draw, fault, now);
      var (k, io2) := MintLoop(io1, 0, ctx.draw, fault, now);
      if k < MaxAttempts {
        IdIsNotIndexKey(ctx.draw, k * DefaultIdLength, DefaultIdLength, NormalizeUrl(url), ctx.md5);
        SaveNewShape(io2, Candidate(ctx.draw, k), NormalizeUrl(url), key, spanish, ctx, fault, now);
        assert Lookup(io1.storage, key, now) == Lookup(io.storage, key, now);
      }
    }
  }

  /**
   * Every success carries the short URL built from the host, the promised
   * 24-hour expiration, and (as written) `isExistingUrl` true, whichever
   * path was taken; success is exactly the index-hit and minted paths, and
   * a failure is a 500.
   */
  lemma SuccessShape(io: Io, url: string, spanish: bool, ctx: Context, fault: nat -> bool, now: nat)
    ensures var (resp, path, _) := Admitted(io, url, spanish, ctx, fault, now);
      && path != Rejected
      && (resp.Success? <==> path == IndexHit || path == Minted)
      && (resp.Success? ==>
        && resp.shortUrl == ShortUrl(Host(ctx), resp.shortId)
        && resp.expirationSeconds == 86400
        && resp.isExistingUrl)
      && (resp.Failure? ==> resp.status == 500)
  {
    var key := IndexKey(url, ctx.md5);
    var (found, io1) := Issue(io, GetCall(key), fault, now);
    if !Found(found) {
      var (k, io2) := MintLoop(io1, 0, ctx.draw, fault, now);
      if k < MaxAttempts {
        if Candidate(ctx.draw, k) != key {
          SaveNewShape(io2, Candidate(ctx.draw, k), NormalizeUrl(url), key, spanish, ctx, fault, now);
        } else {
          IdIsNotIndexKey(ctx.draw, k * DefaultIdLength, DefaultIdLength, NormalizeUrl(url), ctx.md5);
        }
      }
    }
  }

  /**
   * As written, a URL never seen before is reported as existing: on an empty
   * store with no failure the handler mints a new id and still answers
   * `isExistingUrl: true`.
   */
  lemma NewUrlReportedExisting(url: string, spanish: bool, ctx: Context, fault: nat -> bool, now: nat)
    requires NoFaults(fault)
    ensures var (resp, path, _) := Admitted(Io(map[], []), url, spanish, ctx, fault, now);
      path == Minted && resp.Success? && resp.isExistingUrl
  {
    var key := IndexKey(url, ctx.md5);
    var (found, io1) := Issue(Io(map[], []), GetCall(key), fault, now);
    assert io1.storage == map[];
    assert MintLoop(io1, 0, ctx.draw, fault, now).0 == 0;
    var io2 := MintLoop(io1, 0, ctx.draw, fault, now).1;
    IdIsNotIndexKey(ctx.draw, 0, DefaultIdLength, NormalizeUrl(url), ctx.md5);
    SaveNewShape(io2, Candidate(ctx.draw, 0), NormalizeUrl(url), key, spanish, ctx, fault, now);
  }

  /** The handler with `isExistingUrl` meaning what its name says: the index already held an id. */
  function PostSpecCorrected(io: Io, body: Body, ctx: Context, fault: nat -> bool, now: nat): (Response, Path, Io) {
    var (resp, path, io') := PostSpec(io, body, ctx, fault, now);
    (if resp.Success? then resp.(isExistingUrl := path == IndexHit) else resp, path, io')
  }

  /**
   * With the correction, a success reports an existing URL exactly when the
   * lookup ran and found a non-empty id under the URL's index key; it
   * differs from the handler as written in nothing else.
   */
  lemma CorrectedExistingFlag(io: Io, body: Body, ctx: Context, fault: nat -> bool, now: nat)
    requires Screen(body, ctx.parse).Admit?
    ensures var (resp, path, io') := PostSpecCorrected(io, body, ctx, fault, now);
      var (resp0, path0, io0) := PostSpec(io, body, ctx, fault, now);
      && (resp.Success? ==>
        (resp.isExistingUrl <==> !fault(|io.trace|) && Truthy(Lookup(io.storage, IndexKey(Screen(body, ctx.parse).url, ctx.md5), now))))
      && path == path0 && io' == io0
      && (resp.Success? <==> resp0.Success?)
      && (resp.Success? ==> resp == resp0.(isExistingUrl := resp.isExistingUrl))
      && (resp.Failure? ==> resp == resp0)
  {
    var url := Screen(body, ctx.parse).url;
    var key := IndexKey(url, ctx.md5);
    var (found, io1) := Issue(io, GetCall(key), fault, now);
    if !Found(found) {
      var (k, io2) := MintLoop(io1, 0, ctx.draw, fault, now);
      if k < MaxAttempts {
        IdIsNotIndexKey(ctx.draw, k * DefaultIdLength, DefaultIdLength, NormalizeUrl(url), ctx.md5);
        SaveNewShape(io2, Candidate(ctx.draw, k), NormalizeUrl(url), key, Screen(body, ctx.parse).spanish, ctx, fault, now);
      }
    }
  }
}
