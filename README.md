# TermiLink short links, modelled in Dafny

TermiLink is a Next.js URL shortener. A long URL becomes a 6-character id that
lives 24 hours in a key-value store (Upstash Redis, or an in-memory mock of it).
This project models the short-link lifecycle and proves properties of the model:

- `POST /api/shorten`: validation, the reverse-index lookup under `url:<md5>`,
  the renewal of a known id, the bounded collision loop, and the two writes;
- the id, URL and key helpers of `lib/utils.ts`;
- the in-memory TTL store, with `set`, `get`, `exists`, `incr` and `del`, and the
  rules that choose it over the real client;
- the admin queries and the delete sequence of `lib/admin-utils.ts`;
- the 1000-entry log buffer and the `GET /api/logs` query pipeline;
- the logger's level gating and message suppression;
- cookie and header redaction in the auth debug route, the language switcher's
  path rewrite, `isAdmin`, the admin credential check, and dictionary selection.

Layout, one module per file:

- **`wrappers.dfy`** (Wrappers): `Option`.
- **`strings.dfy`** (Strings) and **`js_runtime.dfy`** (JsRuntime): the
  JavaScript string, number, `parseInt`, `slice` and `filter` behaviour the
  source relies on.
- **`utils.dfy`** (UrlUtils): the helpers of `lib/utils.ts`.
- **`redis.dfy`** (Redis): the store.
  - Pure functions on a `Storage` map say what each command does.
  - The class `MockRedis` updates its map in place, and each of its methods is
    proved to follow one of those functions.
  - A request issues commands through `Issue`, which appends each command to a
    trace. A `fault` oracle says which command fails (throws) and so has no effect.
- **`shorten.dfy`** (Shorten): the handler.
  - `Post` is the handler as a method on a `MockRedis`.
  - It is proved equal to the function `PostSpec`.
- **`shorten_laws.dfy`** (ShortenLaws): what the handler promises, proved about
  `PostSpec`.
- **`admin.dfy`** (Admin): the admin queries and `deleteUrl`.
- **`lifecycle.dfy`** (Lifecycle): several requests in a row.
- **`logs.dfy`** (Logs): the class `LogBuffer` with `AddLog` and `Get`.
- **`logger.dfy`** (Logging): the logger: its configuration, a matcher for its
  suppression patterns, and the class `Logger`.
- **The small route and component files**: `auth_debug.dfy`,
  `language_switcher.dfy`, `admin_role.dfy`, `credentials.dfy` and
  `dictionaries.dfy`.

Foreign primitives enter as parameters:

- `Math.random` is a `RandomDraws` oracle whose n-th draw is an index below 57;
- the WHATWG `URL` parser is a `UrlParser` (the hostname, or None when it throws);
- MD5 is a `Digest`;
- `Date.now()` is `now`;
- the Host header and `VERCEL_URL` come in through a `Context`;
- the Supabase session check of the logs route is an `Auth` value.

Some behaviour of the code worth knowing:

- The id alphabet has 57 symbols.
- `isValidUrl` has no IP-address or length check (`UrlUtils.IpHostAccepted`).
- An index hit whose id has expired writes the URL again under the same id; it
  does not mint a new one (`ShortenLaws.RestoresExpiredId`).
- `isExistingUrl` is always true (see Findings).

## Model

| member | source | states |
|---|---|---|
| UrlUtils.GenerateShortId | lib/utils.ts:14-23 | the id is exactly `length` characters, the one the draws `start ..` pick, each a member of the alphabet |
| UrlUtils.AlphabetLayout | lib/utils.ts:10-11 | the alphabet is 57 symbols: 25 lower-case letters without `l`, 24 upper-case without `I` and `O`, then `2`-`9` |
| UrlUtils.AlphabetMembership | lib/utils.ts:10-11 | a character is in the alphabet exactly when it is an unambiguous ASCII letter or digit |
| UrlUtils.GeneratedIdShape | lib/utils.ts:18-20 | every character of a generated id is unambiguous (no `0`, `O`, `1`, `l`, `I`) |
| UrlUtils.NormalizeUrl | lib/utils.ts:43-48 | the result always has an `http://` or `https://` scheme, and equals the input exactly when the input already had one |
| UrlUtils.NormalizeKeepsUrl | lib/utils.ts:43-48 | normalising only prepends `https://`: the result is the URL itself or `https://` + URL, and ends with the URL |
| UrlUtils.NormalizeIdempotent | lib/utils.ts:43-48 | normalising twice is normalising once |
| UrlUtils.IsValidUrl | lib/utils.ts:26-40 | valid exactly when the parser accepts the normalised URL and its hostname contains a dot |
| UrlUtils.ValidityThroughNormalize | lib/utils.ts:28-31 | `isValidUrl(normalizeUrl(u)) == isValidUrl(u)` |
| UrlUtils.IpHostAccepted | lib/utils.ts:33-39 | a dotted-quad host that parses is accepted: there is no IP rejection |
| UrlUtils.GenerateUrlKey | lib/utils.ts:51-55 | the key starts with `url:` |
| UrlUtils.UrlKeyCarriesDigest | lib/utils.ts:51-55 | the key is `url:` then the digest, so two URLs share a key exactly when their digests agree |
| UrlUtils.IdIsNotIndexKey | lib/utils.ts:11-55 | no generated id equals an index key (`:` is not in the alphabet) |
| Strings.IndexOf | components/language-switcher.tsx:30 | `indexOf`: None exactly when there is no occurrence, otherwise the first occurrence |
| Strings.ReplaceFirst | components/language-switcher.tsx:30 | `replace` with a string pattern leaves a string without the pattern unchanged; otherwise exactly one occurrence's length is traded for the replacement's |
| Strings.SplitJoin | app/api/auth/debug/route.ts:33 | `split` is undone by joining with the same separator |
| Strings.SplitPieces | app/api/auth/debug/route.ts:33-38 | no piece holds the separator, and there is one piece more than separators |
| Strings.Trim | app/api/auth/debug/route.ts:37 | the result has no white space at either end |
| Strings.TrimOccursInInput | app/api/auth/debug/route.ts:37 | trimming only cuts the ends: the result occurs in the input |
| Strings.ToLower | app/api/logs/route.ts:79-83 | lower-cases each ASCII letter in place and leaves no upper-case ASCII letter |
| JsRuntime.ParseIntOfToString | lib/redis.ts:88-89 | `parseInt(String(n))` gives back `n`, NaN included |
| JsRuntime.FilterAppend | app/api/logs/route.ts:75 | filtering a concatenation filters each part, so order is kept |
| JsRuntime.FilterIdempotent | app/api/logs/route.ts:75 | filtering twice with the same test is filtering once |
| JsRuntime.RelIndex | app/api/logs/route.ts:88 | `slice`'s reading of a relative index: negative counts from the end, clamped to the length |
| Redis.Live | lib/redis.ts:68-87 | `exists` and `incr` call an entry live exactly when `get` would not evict it |
| Redis.ExpiryFor | lib/redis.ts:56 | the expiry is `now + ex*1000`, or `now + 86400*1000` when `ex` is absent or 0 |
| Redis.SetOp | lib/redis.ts:54-60 | `set` overwrites the entry with the value and that expiry |
| Redis.GetOp | lib/redis.ts:61-76 | `get` answers what a reader sees, and changes the map only by evicting an expired entry of its key |
| Redis.ExistsOp | lib/redis.ts:77-82 | `exists` is 1 exactly when `get` would return a value, else 0 |
| Redis.IncrOp | lib/redis.ts:83-97 | on a live key: `parseInt(value)+1` with the old expiry; otherwise 1 for 24 hours; the stored text is the returned number |
| Redis.DelOp | lib/redis.ts:98-102 | `del` removes the key and answers 1 exactly when it was present, expired or not |
| Redis.ExpireOp | app/api/shorten/route.ts:59-61 | `expire`, which the mock lacks, resets a live key's expiry and answers 1; otherwise it answers 0 and changes nothing |
| Redis.GetEvictionIsInvisible | lib/redis.ts:68-71 | the eviction a `get` may do changes what no reader sees |
| Redis.ApplyTouchesOnlyItsKey | lib/redis.ts:54-102 | every command, `expire` included, leaves every other key's entry as it was |
| Redis.IssueTouchesOnlyItsKey | lib/redis.ts:54-102 | an issued command, failed or not, changes at most its own key |
| Redis.SetThenLookup | lib/redis.ts:54-76 | a value written with `ex` seconds is read back until its expiry and not after |
| Redis.IncrReadsBack | lib/redis.ts:88-89 | the text `incr` stores parses back to the number it returned |
| Redis.IncrTwiceFromAbsent | lib/redis.ts:83-97 | two increments of an absent counter give 2 |
| Redis.Apply | lib/redis.ts:54-102 | a command that does not fail never answers as a failure |
| Redis.Issue | app/api/shorten/route.ts:40-46 | the command joins the trace; it fails exactly when the oracle says so, and a failed command leaves the store alone |
| Redis.MockRedis.constructor | lib/redis.ts:51 | the store starts empty |
| Redis.MockRedis.Set | lib/redis.ts:54-60 | the new map is `SetOp` of the old one, and the reply is `OK` |
| Redis.MockRedis.Get | lib/redis.ts:61-76 | the answer and the new map are `GetOp`'s |
| Redis.MockRedis.Exists | lib/redis.ts:77-82 | the answer is `ExistsOp`'s and nothing changes |
| Redis.MockRedis.Incr | lib/redis.ts:83-97 | the answer and the new map are `IncrOp`'s |
| Redis.MockRedis.Del | lib/redis.ts:98-102 | the answer and the new map are `DelOp`'s |
| Redis.MockRedis.Expire | app/api/shorten/route.ts:59-61 | the answer and the new map are `ExpireOp`'s |
| Redis.MockRedis.Perform | lib/redis.ts:53-103 | runs any command as `Apply` says |
| Redis.MockRedis.IssueCall | app/api/shorten/route.ts:40-46 | issues a command as `Issue` says |
| Redis.CreateRedisClient | lib/redis.ts:4-46 | the mock without KV variables (also with only `REDIS_URL`); the Upstash client exactly when the chosen KV URL starts with `https://` and construction does not throw; that client gets the REST URL before `KV_URL`, and the token |
| Shorten.Screen | app/api/shorten/route.ts:10-29 | admits exactly a non-empty string URL that is valid, with a `lang` that converts to a string. Malformed JSON is a Spanish 400. A null body, a `url` or `lang` whose string conversion throws, or a truthy non-string URL lands in the generic 500. Everything else refused is a 400 |
| Shorten.ShortUrl | app/api/shorten/route.ts:120-122 | `http` exactly when the host contains `localhost`, else `https`, then `://host/go/id` |
| Shorten.MintLoop | app/api/shorten/route.ts:74-90 | the loop ends with between 0 and 5 attempts |
| Shorten.RenewOn | app/api/shorten/route.ts:54-71 | the renewal block on a store does what `Renew` says |
| Shorten.MintOn | app/api/shorten/route.ts:74-90 | the collision loop on a store gives `MintLoop`'s attempt count and store, and holds the candidate of that count |
| Shorten.PostSpec | app/api/shorten/route.ts:5-159 | a request is rejected before any command exactly when validation refuses it, and then the store and trace are unchanged. Success is exactly the index-hit and minted paths. Every failure after validation is a 500 |
| Shorten.Post | app/api/shorten/route.ts:5-159 | the handler on a store: response, path, final store and command trace are `PostSpec`'s |
| ShortenLaws.Checks | app/api/shorten/route.ts:79-81 | the checks of a run of candidates, one per candidate, in order |
| ShortenLaws.MintLoopChecks | app/api/shorten/route.ts:74-90 | the loop never changes the store, and checks candidates 0, 1, ... in order, at most 5. Every candidate it passes over was taken. The one it stops at was free or its check failed |
| ShortenLaws.MintLoopTrace | app/api/shorten/route.ts:79-90 | the loop leaves the store alone and issues exactly the checks of the candidates it tried |
| ShortenLaws.MintLoopTaken | app/api/shorten/route.ts:81-89 | the candidates passed over were live; the one stopped at early was free or its check threw |
| ShortenLaws.MintLoopPasses | app/api/shorten/route.ts:81-89 | every candidate passed over was checked without failure and found live |
| ShortenLaws.MintLoopStops | app/api/shorten/route.ts:82-85 | an early stop means the check threw or found the candidate free |
| ShortenLaws.MintLoopStep | app/api/shorten/route.ts:79-90 | one turn: a taken candidate moves on to the next, anything else stops the loop |
| ShortenLaws.IssueExists | lib/redis.ts:77-82 | an existence check answers `exists` unless it fails, and never changes the store |
| ShortenLaws.ChecksSplit | app/api/shorten/route.ts:79-81 | a run of checks is its first check and then the rest |
| ShortenLaws.RenewTrace | app/api/shorten/route.ts:54-71 | the renewal issues one to three commands after those already issued |
| ShortenLaws.SaveNewTrace | app/api/shorten/route.ts:101-116 | the writes issue one or two commands |
| ShortenLaws.MintNewTrace | app/api/shorten/route.ts:74-116 | the loop and the writes issue one to seven commands |
| ShortenLaws.IssueGet | lib/redis.ts:61-76 | the index lookup answers what a reader sees, and may only evict an expired entry |
| ShortenLaws.RenewLive | app/api/shorten/route.ts:56-62 | a live id: both keys get a fresh 24-hour TTL, in that order, values kept |
| ShortenLaws.RenewExpired | app/api/shorten/route.ts:63-67 | an expired id: the id is written again with the URL for 24 hours |
| ShortenLaws.RefusedIssuesNothing | app/api/shorten/route.ts:10-29 | a refused request issues no store command and answers the screening's response; an admitted one issues at least one |
| ShortenLaws.SchemeIsOptional | app/api/shorten/route.ts:32-36 | `example.com/p` and `https://example.com/p` are equally valid and share one index key |
| ShortenLaws.LookupComesFirst | app/api/shorten/route.ts:36-46 | every admitted request first reads the index key of its normalised URL, and issues at most eight commands |
| ShortenLaws.LookupFailureMints | app/api/shorten/route.ts:40-46 | a failing lookup is taken as a miss: the new-id path runs and checks the first candidate next |
| ShortenLaws.RenewsLiveId | app/api/shorten/route.ts:49-62 | an index hit on a live id answers that id, draws no new one, and gives both keys a fresh 24-hour TTL with these four commands |
| ShortenLaws.RestoresExpiredId | app/api/shorten/route.ts:63-67 | an index hit on an expired id writes the normalised URL under the same id for 24 hours, leaves the index entry alone, and answers the same id |
| ShortenLaws.RenewalFailuresSwallowed | app/api/shorten/route.ts:49-71 | once the lookup answers an id, any later failure is swallowed: the same id is answered on the index-hit path, and the renewal issues one to three commands, the id's existence check first |
| ShortenLaws.UnprintableFieldIs500 | app/api/shorten/route.ts:20-21 | a `url` or `lang` whose string conversion throws gives the generic 500, in Spanish only for `lang: "es"`, with no store command |
| ShortenLaws.ExhaustedWritesNothing | app/api/shorten/route.ts:74-99 | five taken candidates give a 500 "could not generate a unique ID" after exactly five checks, and nothing a reader can see changes |
| ShortenLaws.SaveNewShape | app/api/shorten/route.ts:101-116 | minted exactly when neither write fails: `id -> url`, then `url:<md5> -> id`, both live for 24 hours; a failed write is a 500 and the index key reads as before |
| ShortenLaws.MintedIdShape | app/api/shorten/route.ts:74-116 | a minted id is one of the first five candidates, six unambiguous characters, stored with the normalised URL and indexed under its key until 24 hours from now |
| ShortenLaws.WriteFailureAnswers500 | app/api/shorten/route.ts:109-116 | a failed write answers 500 and never leaves the index key bound to the new id |
| ShortenLaws.SuccessShape | app/api/shorten/route.ts:119-150 | success is exactly the index-hit and minted paths: the short URL is built from the host, the expiration is 86400 seconds and `isExistingUrl` is true; any other outcome is a 500 |
| ShortenLaws.NewUrlReportedExisting | app/api/shorten/route.ts:149 | as written, a URL never seen before is minted and still reported as existing |
| ShortenLaws.CorrectedExistingFlag | app/api/shorten/route.ts:149 | corrected, `isExistingUrl` holds exactly when the lookup ran and found an id; nothing else differs |
| Admin.LiveValues | lib/admin-utils.ts:40-57 | the values the queries read are exactly what `get` answers for each key |
| Admin.UrlKeys | lib/admin-utils.ts:30-32 | keeps exactly the listed keys that are not `stats:` or `url:` keys and are 3 to 12 characters long |
| Admin.MintedIdIsUrlKey | lib/admin-utils.ts:30-32 | every id the shortening handler mints counts as a URL key |
| Admin.IndexAndStatsKeysAreNotUrlKeys | lib/admin-utils.ts:30-32 | no index key and no counter key counts as a URL key |
| Admin.ClicksOfCounter | lib/admin-utils.ts:40-41 | a missing counter counts 0, and a counter written by `incr` counts as its number |
| Admin.ClickCounts | lib/admin-utils.ts:39-44 | one click count per URL key, in order |
| Admin.SumDefined | lib/admin-utils.ts:45 | the sum is a number exactly when every term is, so one unparsable counter makes the total NaN |
| Admin.TotalClicksDefined | lib/admin-utils.ts:39-45 | the total is a number exactly when every URL key's counter parses |
| Admin.SumShift | lib/admin-utils.ts:45 | the start of the reduction can be added afterwards |
| Admin.SumAppend | lib/admin-utils.ts:45 | reducing a concatenation reduces the first part, then the second |
| Admin.TotalClicksAppend | lib/admin-utils.ts:39-45 | the totals over two runs of slugs add up |
| Admin.SystemMetrics | lib/admin-utils.ts:26-84 | on a store error, zeroed metrics. Otherwise `totalUrls` is the number of URL keys and `totalClicks` their summed clicks. The average is 0 exactly when there is no URL. `lastUrl` is null exactly when there is no URL, and otherwise is the row of the first URL key |
| Admin.LatestUrls | lib/admin-utils.ts:87-113 | on a store error, `[]`; otherwise one row per slug of `slice(0, limit)` of the URL keys |
| Admin.LatestUrlsBound | lib/admin-utils.ts:90-106 | at most `limit` rows (10 by default) in key order, fewer for a negative limit, none for NaN |
| Admin.FindUrlBySlug | lib/admin-utils.ts:116-135 | a row exactly when the slug is non-empty, the store answers, and the slug holds a non-empty URL; the row carries that URL and its clicks |
| Admin.FindAgreesWithLatest | lib/admin-utils.ts:96-130 | a listed slug with a URL is found with the same row |
| Admin.DeleteWith | lib/admin-utils.ts:138-163 | an empty slug is false with no command. Otherwise the first command is `get(slug)`, and at most four commands are issued. On success the slug and its counter are gone |
| Admin.DeleteUrl | lib/admin-utils.ts:138-163 | the delete sequence on a store does what `DeleteWith` says |
| Admin.DeleteOutcome | lib/admin-utils.ts:138-163 | an empty slug is false with no command. Otherwise the result is false exactly when a command failed. On success the store is the old one without the slug, its counter and the index key of the URL it held, and nothing else changes |
| Admin.DeleteFrame | lib/admin-utils.ts:138-163 | whatever the outcome, every key other than the slug, its counter and the index key of its URL keeps its presence and its entry |
| Admin.RawKeyIsNotHashedKey | lib/admin-utils.ts:154 | `url:` + raw URL is never the MD5 key of that URL |
| Admin.DeleteUrlLeavesIndex | lib/admin-utils.ts:152-156 | as written, a successful delete leaves the URL's real index entry naming the deleted id |
| Admin.DeleteUrlCorrectedClearsIndex | lib/admin-utils.ts:152-156 | corrected, the delete removes the id, its counter and its index entry |
| Lifecycle.SecondRequestReusesId | app/api/shorten/route.ts:49-62 | shortening a URL again within 24 hours answers the same id and renews both keys until 24 hours after the second request |
| Lifecycle.DeletedLinkComesBack | lib/admin-utils.ts:154 | as written, after a delete the next request for the URL finds the stale index entry and writes the deleted id again |
| Lifecycle.CorrectedDeleteForgetsUrl | lib/admin-utils.ts:154 | with the corrected delete, the next request for the URL takes the new-id path |
| Logs.Appended | app/api/logs/route.ts:15-27 | below 1000 entries the entry is appended; at 1000 the oldest is dropped first |
| Logs.AppendedShape | app/api/logs/route.ts:17-26 | never more than 1000 entries. The new entry is last, and the older ones keep their order. All the older ones survive unless the buffer was full, when exactly the oldest is gone |
| Logs.ByLevel | app/api/logs/route.ts:74-76 | keeps exactly the entries of the given level |
| Logs.BySearch | app/api/logs/route.ts:78-85 | keeps exactly the entries whose lower-cased message or serialised details contain the lower-cased text |
| Logs.Tail | app/api/logs/route.ts:88 | the result is a suffix of the list |
| Logs.LogBuffer.constructor | app/api/logs/route.ts:7-12 | the buffer starts empty |
| Logs.LogBuffer.AddLog | app/api/logs/route.ts:15-27 | the buffer becomes `Appended` of the old one, and stays within 1000 entries |
| Logs.LogBuffer.Get | app/api/logs/route.ts:55-102 | without a session a 401 that changes nothing. Otherwise the listing is the selection over the old buffer, the access is logged afterwards, and `total` counts that entry |
| Logs.ByLevelKeepsOrder | app/api/logs/route.ts:74-76 | the level filter preserves order |
| Logs.ContainsToLower | app/api/logs/route.ts:79-83 | lower-casing keeps an occurrence |
| Logs.SearchFindsMessage | app/api/logs/route.ts:78-85 | an entry whose message holds the text, in any case, is kept |
| Logs.SearchIgnoresCase | app/api/logs/route.ts:79 | the case of the search text does not matter |
| Logs.TailShape | app/api/logs/route.ts:88 | a positive limit keeps the last `min(limit, n)` entries; 0 and NaN keep all; a negative one drops the first `-limit` |
| Logs.DefaultLimit | app/api/logs/route.ts:68 | without a `limit` parameter the limit is 100 |
| Logs.PipelineShape | app/api/logs/route.ts:72-88 | the listing holds only buffer entries, of the requested level and matching the search when given, and at most `limit` of them |
| Logging.DefaultConfig | lib/logger.ts:22-46 | `minLevel` is debug with `DEBUG`, else info in production, else debug; `forceLogsInProduction` is `DEBUG`; the default prefixes and patterns |
| Logging.Merge | lib/logger.ts:64 | each supplied field replaces the default and every other keeps it |
| Logging.MergeLaws | lib/logger.ts:62-64 | no overrides keep the defaults; a full override replaces them all |
| Logging.Compile | lib/logger.ts:35-43 | a pattern's atoms are its characters read one by one |
| Logging.Advance | lib/logger.ts:85 | a match ends inside the message |
| Logging.AdvanceAppend | lib/logger.ts:85 | matching two pieces is matching one after the other |
| Logging.AdvanceLiteral | lib/logger.ts:85 | a pattern without metacharacters matches exactly where its text occurs |
| Logging.PlainRegexIsContains | lib/logger.ts:83-88 | such a pattern behaves like `includes` |
| Logging.NothingLeftToRead | lib/logger.ts:36 | at the end of the input nothing that reads a character can match |
| Logging.CreateFactoryNeverMatches | lib/logger.ts:36 | `/Warning: React.createFactory$$$$ is deprecated/` matches no message at all |
| Logging.SuppressPatternsCorrected | lib/logger.ts:33-45 | the list with only the createFactory entry replaced by the warning's text |
| Logging.Rank | lib/logger.ts:49-55 | a level's rank is its place in the order debug, info, warn, error, none |
| Logging.ShouldSuppress | lib/logger.ts:77-90 | suppressed exactly when DEBUG is off, the message is a non-empty string, and some pattern of the list matches it |
| Logging.ShouldLog | lib/logger.ts:92-99 | in production an error is always written. Outside it, minLevel none writes no level, and minLevel debug writes every level |
| Logging.Emit | lib/logger.ts:102-124 | a level method writes exactly when `shouldLog` holds and `shouldSuppress` does not, and writes the level's prefix followed by the arguments |
| Logging.Logger.constructor | lib/logger.ts:62-64 | the configuration is the defaults merged with the overrides |
| Logging.Logger.LogDebug | lib/logger.ts:102-106 | writes what `Emit` says for debug |
| Logging.Logger.LogInfo | lib/logger.ts:108-112 | writes what `Emit` says for info |
| Logging.Logger.LogWarn | lib/logger.ts:114-118 | writes what `Emit` says for warn |
| Logging.Logger.LogError | lib/logger.ts:120-124 | writes what `Emit` says for error |
| Logging.LevelsAreOrdered | lib/logger.ts:49-98 | outside production, every level at or above a logged one logs too |
| Logging.SilentSilencesAll | lib/logger.ts:98 | `minLevel` none silences every method outside production |
| Logging.DebugShowsEverything | lib/logger.ts:79-95 | with `DEBUG=true` the default logger writes everything |
| Logging.ProductionShowsOnlyErrors | lib/logger.ts:94-96 | in production without `DEBUG`, only unsuppressed errors are written |
| Logging.DevelopmentShowsAllLevels | lib/logger.ts:24-98 | outside production without `DEBUG`, every level passes and only suppression filters |
| Logging.OnlyTextIsSuppressed | lib/logger.ts:81 | a first argument that is not a non-empty string is never suppressed |
| Logging.RedisMockNoticeSuppressed | lib/logger.ts:43 | the mock-client notice is suppressed exactly when `DEBUG` is off |
| Logging.NoticeMatchesItself | lib/logger.ts:43 | the mock-client pattern matches the notice |
| Logging.CorrectedListHidesCreateFactory | lib/logger.ts:36 | the corrected list hides the createFactory warning exactly when `DEBUG` is off |
| AuthDebug.CookieValue | app/api/auth/debug/route.ts:38 | a value exactly when the cookie holds an `=` |
| AuthDebug.FirstFive | app/api/auth/debug/route.ts:41 | a prefix of at most five characters, exactly five when there are enough |
| AuthDebug.Redact | app/api/auth/debug/route.ts:37-44 | a cookie with an empty or non-sensitive name is shown as it came. A sensitive one is shown as its name and `=` followed by at most nine characters |
| AuthDebug.FilteredCookies | app/api/auth/debug/route.ts:33-44 | one shown cookie per `;`-piece of the header, each the redaction of the trimmed piece |
| AuthDebug.EmptyHeader | app/api/auth/debug/route.ts:33-37 | a missing or empty header gives the single entry `""` |
| AuthDebug.OtherCookiesUnchanged | app/api/auth/debug/route.ts:40-43 | a cookie without a sensitive name is shown as it came |
| AuthDebug.SensitiveCookieShape | app/api/auth/debug/route.ts:38-41 | a sensitive cookie shows `name=` and at most five characters then `...`, or `undefined`; only the text between the first and second `=` counts |
| AuthDebug.SensitiveWithoutValue | app/api/auth/debug/route.ts:38-41 | a sensitive cookie without `=` shows `name=undefined` |
| AuthDebug.SplitOfNoSep | app/api/auth/debug/route.ts:38 | text without the separator splits into itself |
| AuthDebug.SplitAfterSep | app/api/auth/debug/route.ts:38 | `a=b` with no `=` in `a` splits into `a` and the pieces of `b` |
| AuthDebug.FromEntries | app/api/auth/debug/route.ts:60-64 | the keys are exactly the entry names |
| AuthDebug.FromEntriesLastWins | app/api/auth/debug/route.ts:60-64 | the value under each name is that of the name's last entry |
| AuthDebug.ShownHeaders | app/api/auth/debug/route.ts:60-64 | no shown header name holds `authorization` or `cookie` |
| AuthDebug.ShownHeadersArePart | app/api/auth/debug/route.ts:60-64 | filtering the entries first equals building the whole header object and keeping its shown names, values included |
| AuthDebug.ShownHeadersExactly | app/api/auth/debug/route.ts:60-64 | exactly the request headers whose names hold neither `authorization` nor `cookie` are shown, each with the value of its last entry in the request |
| LanguageSwitcher.SwitchToLocale | components/language-switcher.tsx:25-33 | no navigation exactly when the locale is the current one; otherwise the path starts with `/` + new locale |
| LanguageSwitcher.RemovesFirstOccurrence | components/language-switcher.tsx:30-31 | the old path with its first `/`+current-locale cut out, wherever it is, after `/` + new locale; the path is kept whole without an occurrence |
| LanguageSwitcher.SwapsLeadingLocale | components/language-switcher.tsx:30-31 | a leading locale segment is swapped |
| LanguageSwitcher.SwitchBackRestores | components/language-switcher.tsx:30-31 | switching A to B and back restores a path beginning with `/A` |
| AdminRole.IsAdmin | lib/supabase.ts:30-34 | no user is not admin; role `admin` is admin; it throws exactly when `endsWith` meets a non-string email |
| AdminRole.AdminExactly | lib/supabase.ts:33 | admin exactly for role `admin` or an email ending in `@admin.com` |
| AdminRole.SuffixIsCaseSensitive | lib/supabase.ts:33 | `@ADMIN.COM` does not make an administrator |
| Credentials.Verify | app/api/admin/verify-credentials/route.ts:4-21 | a readable body gives 200, anything else 500 and false; success exactly when both fields equal the expected account |
| Credentials.DefaultAccount | app/api/admin/verify-credentials/route.ts:9-12 | with the variables unset only `admin@example.com` / `password123` succeeds |
| Credentials.ConfiguredAccountReplacesDefault | app/api/admin/verify-credentials/route.ts:10-12 | a configured password makes the default one fail |
| Dictionaries.GetDictionary | dictionaries/index.ts:7-16 | English exactly for `en` |
| Dictionaries.GetDictionaryClient | dictionaries/index.ts:19-28 | English exactly for `en` |
| Dictionaries.SelectorsAgree | dictionaries/index.ts:7-28 | both selectors agree on every locale, and every locale but `en` gets Spanish |

## Left out

- The `/go/[id]` redirect and visit counting: that resolver is not part of this model.
- Redis.ExpireOp: the mock has no `expire`. The model adds it as "reset the expiry of a live key, else answer 0", like Redis's own `EXPIRE`.
- The real Upstash client, including its `keys` command.
  - The admin queries read a `StoreView` snapshot: the key listing and the live values.
  - Any store error collapses to `Unreachable`.
  - The mock has no `keys`, so on it `getSystemMetrics` and `getLatestUrls` take their fallback. `findUrlBySlug` uses only `get` and answers normally on the mock.
- The shortening response's `expiration.formatted` (`toLocaleString`, lines 125-139 of the route) is not modelled. Locale date formatting is outside Dafny.
- Admin.SystemMetrics: `averageClicksPerUrl` is left symbolic as `Rounded(total, urls)`. `Math.round` of a floating-point quotient is not modelled.
- JavaScript numbers are integers or NaN; floating point and the 2^53 precision limit are not modelled.
- `toLowerCase` maps only ASCII letters.
- Strings are sequences of Unicode code points, where JavaScript's `length`, `substring` and regex `.` count UTF-16 code units. A character outside the Basic Multilingual Plane therefore counts once here and twice in JavaScript. That changes `Admin.UrlKeys`' 3-12 length test, `AuthDebug.FirstFive`'s five characters, and what the logger's `.` matches. Keys and cookies the program writes itself are ASCII and are not affected.
- The logger's regular expressions are interpreted only for the metacharacters their sources use, `.` and `$`.
- Concurrency: requests are modelled one after another on the store the previous one left. Simultaneous shortening requests are not modelled.
- Console plumbing: `overrideConsole`, `restoreConsole`, `suppressWarnings`, `initializeLogger` and the global `logger` instance are not modelled (lines 127-194). They rebind global `console` methods.
- Logs.LogBuffer.Get: the wrapping of `logger.debug/info/warn/error` (lines 29-53 of the logs route) is not modelled, nor its 500 path (lines 103-107).
  - An entry's details are taken as their `JSON.stringify` text.
  - The message is taken to be a string.
  - Query parameters arrive already parsed.
- Logging.Merge: an override key that is present but explicitly `undefined` is treated as absent.
- The environment is one value that the default configuration and every call both read.
- The Supabase session lookup is outside the model. The logs route receives it as an `Auth` value. The auth debug route's session and environment fields are not modelled.
- Timestamps (`new Date().toISOString()`) enter as parameters.
- The console logging of every route is not modelled. Only its one effect on a response is: a `url` or `lang` that cannot be converted to a string makes line 21 of the shortening route throw (`Shorten.Screen`, its `Unprintable` field).
- One clock reading per request: `now` is read once and serves every store command of the request. The mock reads `Date.now()` in each command (lib/redis.ts:56-92), so the id written at line 105 of the shortening route can expire a few milliseconds before the index key written at line 107. In that window the later request takes the stale-index path (`ShortenLaws.RestoresExpiredId`). The model's "both keys share one deadline" holds only because of the single reading.
- A failing store command has no effect in the model. A real client's write can be applied and still report a failure. `ShortenLaws.WriteFailureAnswers500`'s "the index is not bound to the new id" relies on this.
- MD5, the `URL` parser and `Math.random` are parameters: an arbitrary digest, parser and uniform draws. Their own behaviour is not modelled.

## Findings

| source | as written | input that shows it | evidently intended | confidence | as-written member | corrected member |
|---|---|---|---|---|---|---|
| lib/admin-utils.ts:154 | `deleteUrl` deletes `url:` + the raw URL, but the index key is `url:` + MD5 of the normalised URL | shorten `https://a.b/c`, then delete its id: `url:<md5(https://a.b/c)>` survives and still names the id, so the next request for the URL restores the deleted link | delete `generateUrlKey(originalUrl)` | not executed | Admin.DeleteUrlLeavesIndex, Lifecycle.DeletedLinkComesBack | Admin.DeleteUrlCorrectedClearsIndex, Lifecycle.CorrectedDeleteForgetsUrl |
| app/api/shorten/route.ts:149 | `isExistingUrl: shortId !== null` is always true, since `shortId` is set on every successful path | the first request for a new URL on an empty store answers `isExistingUrl: true` | true only when the reverse index already held an id | not executed | ShortenLaws.NewUrlReportedExisting | ShortenLaws.CorrectedExistingFlag |
| lib/logger.ts:36 | `/Warning: React.createFactory$$$$ is deprecated/`: `$` asserts the end of input, so the pattern can never match | the message `Warning: React.createFactory() is deprecated` is not suppressed | suppress that warning (its text as a plain string) | not executed | Logging.CreateFactoryNeverMatches | Logging.CorrectedListHidesCreateFactory |
