/**
 * app/api/shorten/route.ts: `POST /api/shorten`. The handler validates and
 * normalises the URL, looks it up in the reverse index `url:<md5>`, and
 * either renews the existing short id or mints a new one, checking each
 * candidate against the store at most five times, then writes
 * `id -> url` and `url:<md5> -> id`, both for 24 hours.
 *
 * The handler is the method Post over a MockRedis store; it is proved to do
 * exactly what the function PostSpec says, and the properties below are
 * lemmas about PostSpec. Random draws, the URL parser, MD5, the host header
 * and `process.env.VERCEL_URL` enter through a Context, the clock as `now`,
 * and store failures through `fault` (the n-th command of the request throws).
 */
module Shorten {
  import opened Wrappers
  import opened Strings
  import opened UrlUtils
  import opened Redis

  /** The TTL the handler writes and renews: `60 * 60 * 24` seconds. */
  const TtlSeconds: int := 60 * 60 * 24

  /** The number of store checks the collision loop makes at most. */
  const MaxAttempts: nat := 5

  /** A property of the request's JSON body. */
  datatype Field =
    | Absent                     // `undefined`
    | Str(s: string)             // a JSON string
    | NonStr(truthy: bool)       // a number, boolean, null, array or object
    | Unprintable                // an object whose string conversion throws, like `{"toString": 0}`

  /** The request body as `request.json()` leaves it. */
  datatype Body =
    | Malformed                  // `request.json()` throws
    | NullBody                   // the JSON value `null`: destructuring it throws
    | Json(url: Field, lang: Field)  // any other JSON value; a non-object has both fields Absent

  /** The error messages of the handler; each comes in Spanish and English. */
  datatype Message = InvalidJson | InvalidUrl | NoUniqueId | SaveFailed | GeneralError

  /** The JSON response; `formatted` (a locale date string) is not modelled. */
  datatype Response =
    | Failure(status: int, error: Message, spanish: bool)
    | Success(shortUrl: string, shortId: string, expirationSeconds: int, isExistingUrl: bool)

  /** Which way the request went; not part of the response. */
  datatype Path =
    | Rejected     // answered before the store was touched
    | IndexHit     // the reverse index held an id: renewed or restored
    | Minted       // a new id was written with its index entry
    | Exhausted    // five candidates in a row were taken
    | WriteFailed  // one of the two writes threw

  /** What the handler gets from outside its own code. */
  datatype Context = Context(
    parse: UrlParser,
    md5: Digest,
    draw: RandomDraws,
    hostHeader: Option<string>,
    vercelUrl: Option<string>)

  /** A JavaScript value used as a condition. */
  predicate FieldTruthy(f: Field) {
    match f
    case Absent => false
    case Str(s) => s != ""
    case NonStr(t) => t
    case Unprintable => true
  }

  /** `lang === "es"` after `const { lang = "es" }`: an absent lang means Spanish. */
  predicate SpanishWithDefault(lang: Field) {
    lang == Absent || lang == Str("es")
  }

  /** The body before any store command: refused with a response, or a URL to shorten. */
  datatype Admission = Refuse(resp: Response) | Admit(url: string, spanish: bool)

  /**
   * Lines 10-29: malformed JSON is a 400 in Spanish; a null body makes the
   * destructuring throw, a url or lang that cannot be converted to a string
   * makes the log line's template (line 21) throw, and a truthy url that is
   * not a string makes `isValidUrl` throw, all into the generic 500 whose
   * language comes from `requestData?.lang` without the default; a falsy or
   * invalid url is a 400.
   */
  function Screen(body: Body, parse: UrlParser): (a: Admission)
    ensures a.Admit? <==>
      body.Json? && body.url.Str? && body.url.s != "" && IsValidUrl(body.url.s, parse) && !body.lang.Unprintable?
    ensures a.Admit? ==> a.url == body.url.s && a.spanish == SpanishWithDefault(body.lang)
    ensures body.Malformed? ==> a == Refuse(Failure(400, InvalidJson, true))
    ensures (a.Refuse? && a.resp.Failure? && a.resp.status == 500) <==>
      (|| body.NullBody?
       || (body.Json? && (body.url.Unprintable? || body.lang.Unprintable?))
       || (body.Json? && body.url.NonStr? && body.url.truthy))
    ensures body.Json? && (body.url.Unprintable? || body.lang.Unprintable?) ==>
      a == Refuse(Failure(500, GeneralError, body.lang == Str("es")))
    ensures a.Refuse? ==> a.resp.Failure? && (a.resp.status == 400 || a.resp.status == 500)
  {
    match body
    case Malformed => Refuse(Failure(400, InvalidJson, true))
    case NullBody => Refuse(Failure(500, GeneralError, false))
    case Json(url, lang) =>
      var spanish := SpanishWithDefault(lang);
      if url.Unprintable? || lang.Unprintable? then Refuse(Failure(500, GeneralError, lang == Str("es")))
      else if !FieldTruthy(url) then Refuse(Failure(400, InvalidUrl, spanish))
      else if url.NonStr? then Refuse(Failure(500, GeneralError, lang == Str("es")))
      else if !IsValidUrl(url.s, parse) then Refuse(Failure(400, InvalidUrl, spanish))
      else Admit(url.s, spanish)
  }

  /** The host part of the short URL: the Host header, else VERCEL_URL, else `localhost:3000`. */
  function Host(ctx: Context): string {
    OrElse(ctx.hostHeader, OrElse(ctx.vercelUrl, "localhost:3000"))
  }

  /** Lines 120-122: `http` exactly when the host mentions localhost, then `/go/<id>`. */
  function ShortUrl(host: string, id: string): (u: string)
    ensures Contains(host, "localhost") ==> u == "http://" + host + "/go/" + id
    ensures !Contains(host, "localhost") ==> u == "https://" + host + "/go/" + id
  {
    var protocol := if Contains(host, "localhost") then "http" else "https";
    protocol + "://" + host + "/go/" + id
  }

  /** The `k`-th candidate id: the `k + 1`-th call of `generateShortId()`. */
  function Candidate(draw: RandomDraws, k: nat): string {
    IdFromDraws(draw, k * DefaultIdLength, DefaultIdLength)
  }

  /**
   * Lines 54-71: with the id still live both keys get a fresh TTL, otherwise
   * the id is written again with the URL; a failing command ends the block
   * quietly.
   */
  function Renew(io: Io, id: string, urlKey: string, url: string, fault: nat -> bool, now: nat): Io {
    var (present, io1) := Issue(io, ExistsCall(id), fault, now);
    if present == Threw then io1
    else if present != Count(0) then
      var (r, io2) := Issue(io1, ExpireCall(id, TtlSeconds), fault, now);
      if r == Threw then io2 else Issue(io2, ExpireCall(urlKey, TtlSeconds), fault, now).1
    else Issue(io1, SetCall(id, url, Some(TtlSeconds)), fault, now).1
  }

  /**
   * Lines 79-90 from the `attempts`-th candidate on: a free candidate or a
   * failing check stops the loop; a taken one moves to the next. Returns the
   * final attempt count, which is also the index of the candidate in hand.
   */
  function MintLoop(io: Io, attempts: nat, draw: RandomDraws, fault: nat -> bool, now: nat): (r: (nat, Io))
    requires attempts <= MaxAttempts
    decreases MaxAttempts - attempts
    ensures attempts <= r.0 <= MaxAttempts
  {
    if attempts >= MaxAttempts then (attempts, io)
    else
      var (present, io1) := Issue(io, ExistsCall(Candidate(draw, attempts)), fault, now);
      if present == Threw || present == Count(0) then (attempts, io1)
      else MintLoop(io1, attempts + 1, draw, fault, now)
  }

  /** The success response, as written: `isExistingUrl` is `shortId !== null`. */
  function Answer(ctx: Context, id: string): Response {
    Success(ShortUrl(Host(ctx), id), id, TtlSeconds, true)
  }

  /** What one request does, from the store and the trace before it. */
  function PostSpec(io: Io, body: Body, ctx: Context, fault: nat -> bool, now: nat): (r: (Response, Path, Io))
    ensures r.1 == Rejected <==> Screen(body, ctx.parse).Refuse?
    ensures r.1 == Rejected ==> r.0.Failure? && r.2 == io
    ensures r.0.Success? <==> r.1 == IndexHit || r.1 == Minted
    ensures r.0.Failure? && r.1 != Rejected ==> r.0.status == 500
  {
    match Screen(body, ctx.parse)
    case Refuse(resp) => (resp, Rejected, io)
    case Admit(url, spanish) => Admitted(io, url, spanish, ctx, fault, now)
  }

  /** The reverse-index key of a URL: the MD5 key of its normalised form (lines 32-36). */
  function IndexKey(url: string, md5: Digest): string {
    GenerateUrlKey(NormalizeUrl(url), md5)
  }

  /** Lines 32-117 for a URL that passed validation: look it up, then renew or mint. */
  function Admitted(io: Io, url: string, spanish: bool, ctx: Context, fault: nat -> bool, now: nat): (Response, Path, Io) {
    var normalizedUrl := NormalizeUrl(url);
    var urlKey := IndexKey(url, ctx.md5);
    var (found, io1) := Issue(io, GetCall(urlKey), fault, now);
    if Found(found) then
      (Answer(ctx, found.v.value), IndexHit, Renew(io1, found.v.value, urlKey, normalizedUrl, fault, now))
    else MintNew(io1, normalizedUrl, urlKey, spanish, ctx, fault, now)
  }

  /** Lines 74-99: run the collision loop; five taken candidates are a 500. */
  function MintNew(io: Io, url: string, urlKey: string, spanish: bool, ctx: Context, fault: nat -> bool, now: nat): (Response, Path, Io) {
    var (attempts, io1) := MintLoop(io, 0, ctx.draw, fault, now);
    if attempts >= MaxAttempts then (Failure(500, NoUniqueId, spanish), Exhausted, io1)
    else SaveNew(io1, Candidate(ctx.draw, attempts), url, urlKey, spanish, ctx, fault, now)
  }

  /** Lines 101-116: write `id -> url`, then `url:<md5> -> id`; a failure of either is a 500. */
  function SaveNew(io: Io, id: string, url: string, urlKey: string, spanish: bool, ctx: Context, fault: nat -> bool, now: nat): (Response, Path, Io) {
    var (w1, io1) := Issue(io, SetCall(id, url, Some(TtlSeconds)), fault, now);
    if w1 == Threw then (Failure(500, SaveFailed, spanish), WriteFailed, io1)
    else
      var (w2, io2) := Issue(io1, SetCall(urlKey, id, Some(TtlSeconds)), fault, now);
      if w2 == Threw then (Failure(500, SaveFailed, spanish), WriteFailed, io2)
      else (Answer(ctx, id), Minted, io2)
  }

  /** Lines 54-71 on a store. */
  method RenewOn(store: MockRedis, id: string, urlKey: string, url: string, fault: nat -> bool, now: nat, trace0: seq<Call>)
    returns (trace: seq<Call>)
    modifies store
    ensures Io(store.storage, trace) == Renew(Io(old(store.storage), trace0), id, urlKey, url, fault, now)
  {
    var present, r;
    present, trace := store.IssueCall(ExistsCall(id), fault, now, trace0);
    if present != Threw {
      if present != Count(0) {
        r, trace := store.IssueCall(ExpireCall(id, TtlSeconds), fault, now, trace);
        if r != Threw {
          r, trace := store.IssueCall(ExpireCall(urlKey, TtlSeconds), fault, now, trace);
        }
      } else {
        r, trace := store.IssueCall(SetCall(id, url, Some(TtlSeconds)), fault, now, trace);
      }
    }
  }

  /** Lines 74-90 on a store: the final attempt count and the candidate in hand. */
  method MintOn(store: MockRedis, draw: RandomDraws, fault: nat -> bool, now: nat, trace0: seq<Call>)
    returns (shortId: string, attempts: nat, trace: seq<Call>)
    modifies store
    ensures (attempts, Io(store.storage, trace)) == MintLoop(Io(old(store.storage), trace0), 0, draw, fault, now)
    ensures shortId == Candidate(draw, attempts)
  {
    ghost var io0 := Io(store.storage, trace0);
    trace := trace0;
    shortId := GenerateShortId(DefaultIdLength, draw, 0);
    attempts := 0;
    while attempts < MaxAttempts
      invariant attempts <= MaxAttempts
      invariant shortId == Candidate(draw, attempts)
      invariant MintLoop(io0, 0, draw, fault, now) == MintLoop(Io(store.storage, trace), attempts, draw, fault, now)
      decreases MaxAttempts - attempts
    {
      var present;
      ghost var before := Io(store.storage, trace);
      present, trace := store.IssueCall(ExistsCall(shortId), fault, now, trace);
      ghost var after := Io(store.storage, trace);
      assert (present, after) == Issue(before, ExistsCall(Candidate(draw, attempts)), fault, now);
      if present == Threw || present == Count(0) {
        assert MintLoop(before, attempts, draw, fault, now) == (attempts, after);
        break;
      }
      assert MintLoop(before, attempts, draw, fault, now) == MintLoop(after, attempts + 1, draw, fault, now);
      shortId := GenerateShortId(DefaultIdLength, draw, (attempts + 1) * DefaultIdLength);
      attempts := attempts + 1;
    }
  }

  /**
   * The handler on a store: every command goes through `store.IssueCall`
   * and is recorded in `trace`, which starts empty for the request.
   */
  method Post(store: MockRedis, body: Body, ctx: Context, fault: nat -> bool, now: nat)
    returns (resp: Response, path: Path, trace: seq<Call>)
    modifies store
    ensures (resp, path, Io(store.storage, trace)) == PostSpec(Io(old(store.storage), []), body, ctx, fault, now)
  {
    trace := [];
    var admission := Screen(body, ctx.parse);
    if admission.Refuse? {
      return admission.resp, Rejected, trace;
    }
    var url, spanish := admission.url, admission.spanish;
    var normalizedUrl := NormalizeUrl(url);
    var urlKey := IndexKey(url, ctx.md5);

    var found;
    found, trace := store.IssueCall(GetCall(urlKey), fault, now, trace);
    var shortId: string;
    if Found(found) {
      shortId := found.v.value;
      trace := RenewOn(store, shortId, urlKey, normalizedUrl, fault, now, trace);
      path := IndexHit;
    } else {
      var attempts;
      shortId, attempts, trace := MintOn(store, ctx.draw, fault, now, trace);
      if attempts >= MaxAttempts {
        return Failure(500, NoUniqueId, spanish), Exhausted, trace;
      }
      var w;
      w, trace := store.IssueCall(SetCall(shortId, normalizedUrl, Some(TtlSeconds)), fault, now, trace);
      if w == Threw {
        return Failure(500, SaveFailed, spanish), WriteFailed, trace;
      }
      w, trace := store.IssueCall(SetCall(urlKey, shortId, Some(TtlSeconds)), fault, now, trace);
      if w == Threw {
        return Failure(500, SaveFailed, spanish), WriteFailed, trace;
      }
      path := Minted;
    }
    resp := Answer(ctx, shortId);
  }
}
