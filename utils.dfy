/**
 * lib/utils.ts: short-id generation, URL normalisation and validation, and
 * the reverse-index key. `Math.random`, the WHATWG `URL` parser and MD5 are
 * foreign primitives and enter as parameters.
 */
module UrlUtils {
  import opened Wrappers
  import opened Strings

  /** The id alphabet: no `l`, `I`, `O`, `0` or `1`. */
  const CHARACTERS: string := "abcdefghijkmnopqrstuvwxyzABCDEFGHJKLMNPQRSTUVWXYZ23456789"

  /** `generateShortId()` without an argument makes ids of this length. */
  const DefaultIdLength: nat := 6

  /** `Math.floor(Math.random() * CHARACTERS.length)`: always below 57. */
  type CharIndex = i: nat | i < 57

  /** A source of random draws: the n-th call of `Math.random` picks `draw(n)`. */
  type RandomDraws = nat -> CharIndex

  /** `new URL(s).hostname`, or None when the constructor throws. */
  type UrlParser = string -> Option<string>

  /** The MD5 hex digest of a string (`createHash("md5")...digest("hex")`). */
  type Digest = string -> string

  /** A character the alphabet admits: an ASCII letter or digit that is not visually ambiguous. */
  predicate Unambiguous(c: char) {
    ('a' <= c <= 'z' && c != 'l') || ('A' <= c <= 'Z' && c != 'I' && c != 'O') || ('2' <= c <= '9')
  }

  /** The characters that draws `start .. start + length - 1` pick. */
  function IdFromDraws(draw: RandomDraws, start: nat, length: nat): (id: string)
    ensures |id| == length
  {
    seq(length, i requires 0 <= i < length => CHARACTERS[draw(start + i)])
  }

  /**
   * `generateShortId(length)`: appends one randomly drawn alphabet character
   * per iteration; the draws used are `start .. start + length - 1`.
   */
  method GenerateShortId(length: nat, draw: RandomDraws, start: nat) returns (id: string)
    ensures id == IdFromDraws(draw, start, length)
    ensures |id| == length
    ensures forall i :: 0 <= i < |id| ==> id[i] in CHARACTERS
  {
    id := "";
    for i := 0 to length
      invariant |id| == i
      invariant forall k :: 0 <= k < i ==> id[k] == CHARACTERS[draw(start + k)]
    {
      id := id + [CHARACTERS[draw(start + i)]];
    }
  }

  // The alphabet in runs of consecutive code points.
  const LowerA: string := "abcdefghijk"
  const LowerB: string := "mnopqrstuvwxyz"
  const UpperA: string := "ABCDEFGH"
  const UpperB: string := "JKLMN"
  const UpperC: string := "PQRSTUVWXYZ"
  const Digits: string := "23456789"

  lemma RunMembers(c: char)
    ensures c in LowerA <==> 'a' <= c <= 'k'
    ensures c in LowerB <==> 'm' <= c <= 'z'
    ensures c in UpperA <==> 'A' <= c <= 'H'
    ensures c in UpperB <==> 'J' <= c <= 'N'
    ensures c in UpperC <==> 'P' <= c <= 'Z'
    ensures c in Digits <==> '2' <= c <= '9'
  {
  }

  /**
   * The alphabet has 57 symbols: the 25 lower-case letters other than `l`,
   * then the 24 upper-case letters other than `I` and `O`, then `2`-`9`
   * (each run's members are given by RunMembers).
   */
  lemma AlphabetLayout()
    ensures CHARACTERS == (LowerA + LowerB) + (UpperA + UpperB + UpperC) + Digits
    ensures |CHARACTERS| == 57
    ensures |LowerA + LowerB| == 25 && |UpperA + UpperB + UpperC| == 24 && |Digits| == 8
  {
    ThreeRuns();
    LowerRuns();
    UpperRuns();
  }

  lemma ThreeRuns()
    ensures CHARACTERS == "abcdefghijkmnopqrstuvwxyz" + "ABCDEFGHJKLMNPQRSTUVWXYZ" + "23456789"
  {
    LowerThenRest();
    UpperThenDigits();
  }

  lemma LowerThenRest()
    ensures CHARACTERS == "abcdefghijkmnopqrstuvwxyz" + "ABCDEFGHJKLMNPQRSTUVWXYZ23456789"
  {
  }

  lemma UpperThenDigits()
    ensures "ABCDEFGHJKLMNPQRSTUVWXYZ23456789" == "ABCDEFGHJKLMNPQRSTUVWXYZ" + "23456789"
  {
  }

  lemma LowerRuns()
    ensures "abcdefghijkmnopqrstuvwxyz" == LowerA + LowerB
  {
  }

  lemma UpperRuns()
    ensures "ABCDEFGHJKLMNPQRSTUVWXYZ" == UpperA + UpperB + UpperC
  {
  }

  /** A character is in the alphabet exactly when it is unambiguous. */
  lemma AlphabetMembership(c: char)
    ensures c in CHARACTERS <==> Unambiguous(c)
  {
    AlphabetLayout();
    RunMembers(c);
  }

  /** Every character of a generated id is an unambiguous ASCII letter or digit. */
  lemma GeneratedIdShape(draw: RandomDraws, start: nat, length: nat)
    ensures forall i :: 0 <= i < length ==> Unambiguous(IdFromDraws(draw, start, length)[i])
  {
    forall i | 0 <= i < length ensures Unambiguous(IdFromDraws(draw, start, length)[i]) {
      AlphabetMembership(IdFromDraws(draw, start, length)[i]);
    }
  }

  /** The string carries an `http://` or `https://` scheme. */
  predicate HasScheme(url: string) {
    StartsWith(url, "http://") || StartsWith(url, "https://")
  }

  /** `normalizeUrl(url)`: prepend `https://` unless a scheme is already there. */
  function NormalizeUrl(url: string): (r: string)
    ensures HasScheme(r)
    ensures HasScheme(url) <==> r == url
  {
    if !StartsWith(url, "http://") && !StartsWith(url, "https://") then "https://" + url else url
  }

  /** Normalising only ever adds a prefix: the URL is what the result ends with. */
  lemma NormalizeKeepsUrl(url: string)
    ensures EndsWith(NormalizeUrl(url), url)
    ensures NormalizeUrl(url) == url || NormalizeUrl(url) == "https://" + url
  {
    var r := NormalizeUrl(url);
    if r != url {
      assert r[|r| - |url|..] == url;
    }
  }

  /** Normalising twice is normalising once. */
  lemma NormalizeIdempotent(url: string)
    ensures NormalizeUrl(NormalizeUrl(url)) == NormalizeUrl(url)
  {
  }

  /**
   * `isValidUrl(url)`: the URL handed to the parser is the one `normalizeUrl`
   * would produce (the source repeats that test inline), and it is valid
   * exactly when parsing succeeds and the hostname holds a dot.
   */
  predicate IsValidUrl(url: string, parse: UrlParser)
    ensures IsValidUrl(url, parse) <==> parse(NormalizeUrl(url)).Some? && Contains(parse(NormalizeUrl(url)).value, ".")
  {
    var urlToCheck := if !StartsWith(url, "http://") && !StartsWith(url, "https://") then "https://" + url else url;
    match parse(urlToCheck)
    case None => false
    case Some(hostname) => Contains(hostname, ".")
  }

  /** Validity is decided on the normalised URL, so normalising first changes nothing. */
  lemma ValidityThroughNormalize(url: string, parse: UrlParser)
    ensures IsValidUrl(NormalizeUrl(url), parse) == IsValidUrl(url, parse)
  {
    NormalizeIdempotent(url);
  }

  /** No IP check: a dotted-quad host that parses is accepted. */
  lemma IpHostAccepted(parse: UrlParser)
    requires parse("http://1.2.3.4/x") == Some("1.2.3.4")
    ensures IsValidUrl("http://1.2.3.4/x", parse)
  {
    assert StartsWith("http://1.2.3.4/x", "http://");
    assert OccursAt("1.2.3.4", ".", 1);
  }

  /** The reverse-index key prefix. */
  const IndexPrefix: string := "url:"

  /** `generateUrlKey(url)`: `url:` followed by the MD5 hex digest of `url`. */
  function GenerateUrlKey(url: string, md5: Digest): (key: string)
    ensures StartsWith(key, IndexPrefix)
  {
    IndexPrefix + md5(url)
  }

  /** Two URLs share an index key exactly when their digests agree; the key holds the digest after `url:`. */
  lemma UrlKeyCarriesDigest(u1: string, u2: string, md5: Digest)
    ensures GenerateUrlKey(u1, md5)[|IndexPrefix|..] == md5(u1)
    ensures GenerateUrlKey(u1, md5) == GenerateUrlKey(u2, md5) <==> md5(u1) == md5(u2)
  {
    var k1, k2 := GenerateUrlKey(u1, md5), GenerateUrlKey(u2, md5);
    assert k1[|IndexPrefix|..] == md5(u1);
    assert k2[|IndexPrefix|..] == md5(u2);
  }

  /** A generated id never collides with an index key: `:` is not in the alphabet. */
  lemma IdIsNotIndexKey(draw: RandomDraws, start: nat, length: nat, url: string, md5: Digest)
    ensures IdFromDraws(draw, start, length) != GenerateUrlKey(url, md5)
  {
    var id := IdFromDraws(draw, start, length);
    var key := GenerateUrlKey(url, md5);
    if id == key {
      assert key[3] == ':';
      AlphabetMembership(id[3]);
    }
  }
}
