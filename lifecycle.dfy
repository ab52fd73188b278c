/**
 * The life of one short link across requests: shortening the same URL
 * twice, and shortening it again after an administrator deleted it. Each
 * request starts a fresh command trace on the store the previous one left.
 */
module Lifecycle {
  import opened Wrappers
  import opened UrlUtils
  import opened Redis
  import opened Shorten
  import opened ShortenLaws
  import opened Admin

  /**
   * Within 24 hours of minting, shortening the same URL again finds the
   * index entry: the same answer and id, no new id, and both keys renewed
   * for 24 hours from the second request. The store is the one a mint
   * leaves in this model (MintedIdShape): the id holds the URL and the index
   * key holds the id, both until the same deadline, because one clock
   * reading serves the whole request. The mock reads the clock in every
   * command, so there the id written first can expire a few milliseconds
   * before its index entry.
   */
  lemma SecondRequestReusesId(m: Storage, id: string, url: string, spanish: bool, ctx: Context, fault: nat -> bool, later: nat, deadline: int)
    requires NoFaults(fault) && id != "" && later <= deadline
    requires id in m && m[id] == Entry(NormalizeUrl(url), deadline)
    requires IndexKey(url, ctx.md5) in m && m[IndexKey(url, ctx.md5)] == Entry(id, deadline)
    ensures var (r2, p2, io2) := Admitted(Io(m, []), url, spanish, ctx, fault, later);
      && p2 == IndexHit && r2 == Answer(ctx, id)
      && io2.storage[id] == Entry(NormalizeUrl(url), Deadline(later))
      && io2.storage[IndexKey(url, ctx.md5)] == Entry(id, Deadline(later))
  {
    var key := IndexKey(url, ctx.md5);
    assert Lookup(m, key, later) == Some(id);
    assert Lookup(m, id, later).Some?;
    RenewsLiveId(m, url, spanish, ctx, fault, later, id);
    if id == key {
      assert NormalizeUrl(url) == id;
    }
  }

  /**
   * As written, a deleted link comes back: the index entry that survives
   * the delete sends the next request for the same URL down the index-hit
   * path, which writes the deleted id again.
   */
  lemma DeletedLinkComesBack(m: Storage, id: string, url: string, spanish: bool, ctx: Context, fault: nat -> bool, now: nat)
    requires Shortened(m, id, url, ctx.md5, now) && HasScheme(url) && HexDigest(ctx.md5)
    requires id != GenerateUrlKey(url, ctx.md5) && NoFaults(fault)
    ensures var m' := DeleteUrlSpec(Io(m, []), id, fault, now).1.storage;
      var (resp, path, io') := Admitted(Io(m', []), url, spanish, ctx, fault, now);
      && Lookup(m', id, now) == None
      && path == IndexHit && resp == Answer(ctx, id)
      && Lookup(io'.storage, id, now) == Some(url)
  {
    DeleteUrlLeavesIndex(m, id, url, ctx.md5, fault, now);
    var m' := DeleteUrlSpec(Io(m, []), id, fault, now).1.storage;
    assert NormalizeUrl(url) == url;
    assert IndexKey(url, ctx.md5) == GenerateUrlKey(url, ctx.md5);
    RestoresExpiredId(m', url, spanish, ctx, fault, now, id);
  }

  /**
   * With the corrected delete the URL is forgotten: the next request for it
   * misses the index and takes the new-id path.
   */
  lemma CorrectedDeleteForgetsUrl(m: Storage, id: string, url: string, spanish: bool, ctx: Context, fault: nat -> bool, now: nat)
    requires Shortened(m, id, url, ctx.md5, now) && HasScheme(url) && NoFaults(fault)
    ensures var m' := DeleteUrlCorrected(Io(m, []), id, ctx.md5, fault, now).1.storage;
      var (_, path, _) := Admitted(Io(m', []), url, spanish, ctx, fault, now);
      path == Minted || path == Exhausted || path == WriteFailed
  {
    DeleteUrlCorrectedClearsIndex(m, id, url, ctx.md5, fault, now);
    var m' := DeleteUrlCorrected(Io(m, []), id, ctx.md5, fault, now).1.storage;
    assert NormalizeUrl(url) == url;
    var key := IndexKey(url, ctx.md5);
    assert key == GenerateUrlKey(url, ctx.md5);
    var (found, io1) := Issue(Io(m', []), GetCall(key), fault, now);
    assert !Found(found);
    var (k, io2) := MintLoop(io1, 0, ctx.draw, fault, now);
    if k < MaxAttempts {
      IdIsNotIndexKey(ctx.draw, k * DefaultIdLength, DefaultIdLength, url, ctx.md5);
      SaveNewShape(io2, Candidate(ctx.draw, k), url, key, spanish, ctx, fault, now);
    }
  }
}
