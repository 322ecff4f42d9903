/**
 * What callers of the persistent cache can rely on from one call to the next, with no other process at
 * work in between: what is stored is found, what is renewed is found for longer, what was hit last is
 * evicted last, and a flush of one scope is felt by no other.
 */
module DiskLaws {
  import opened Wrappers
  import opened Schemas
  import opened CacheKeys
  import opened CacheControls
  import opened DiskModel
  import opened DiskProtocol
  import opened DiskRoom
  import opened DiskTraces
  import opened DiskPublication
  import opened DiskCaptures
  import opened DiskCaches

  // -------------------------------------------------------- stored, then looked up

  /**
   * After a commit that stored, a lookup hits exactly before the deadline, unless another schema is
   * expected, and the hit replays the capture.
   */
  method StoreThenLookup(cache: DiskCache, key: CacheKey, capture: DiskCapture, lens: seq<nat>, d: Deadline,
                         control: Option<CacheControl>, createdMs: nat, now: nat, fault: Option<Fault>,
                         expected: Option<Schema>, moment: nat, later: Fs, foreign: set<ObjPath>)
    returns (outcome: Outcome, hit: Option<Hit>)
    requires cache.Valid() && capture.Valid()
    requires |lens| == |capture.content.parts| && forall i | 0 <= i < |lens| :: lens[i] > 0
    requires capture.root == cache.root ==> FreshName(cache.fs, cache.LocksNow(foreign), capture.generation)
    modifies cache
    ensures outcome.Stored? ==>
              && (hit.Some? <==> moment < d.expiresMs && (expected.Some? ==> expected.value == capture.content.schema))
              && (hit.Some? ==>
                    && ObjOf(hit.value.record) in cache.fs.objects
                    && Replays(cache.fs.objects[ObjOf(hit.value.record)], hit.value.record, capture.content)
                    && hit.value.record.createdMs == createdMs && hit.value.record.expiresMs == d.expiresMs)
  {
    hide *;
    ghost var content := capture.content;
    ghost var admitted, job;
    outcome, admitted, job := cache.Commit(key, capture, lens, d, control, createdMs, now, fault, foreign);
    ghost var fs := cache.fs;
    if outcome.Stored? {
      FoundMeans(fs, key, content, d.expiresMs, control.value, expected, moment);
    }
    hit := cache.Lookup(key, expected, false, moment, later, foreign);
  }

  lemma FoundMeans(fs: Fs, key: CacheKey, content: Content, expiresMs: nat, control: CacheControl,
                   expected: Option<Schema>, now: nat)
    requires FoundAsStored(fs, key, content, expiresMs, control)
    ensures RefAt(fs, PathOf(key)).Some?
    ensures var r := RefAt(fs, PathOf(key)).value;
            ObjOf(r) in fs.objects && Replays(fs.objects[ObjOf(r)], r, content)
    ensures Servable(fs, PathOf(key), expected, false, now) <==>
              now < expiresMs && (expected.Some? ==> expected.value == content.schema)
  {
  }

  // -------------------------------------------------------------- what misses leave

  /** On a sound disk a lookup that finds nothing to serve leaves the ref for a revalidation, or removes it. */
  lemma MissKeepsIff(fs: Fs, leased: set<ObjPath>, p: RefPath, allowStale: bool, now: nat)
    requires Sound(fs, leased) && p in fs.refs
    ensures var r := fs.refs[p].record;
            var validator := r.revalidatable && (r.etag.Some? || r.lastModified.Some?);
            QuietMiss(fs, p, allowStale, now) <==>
              if r.expiresMs <= now then validator && !allowStale else allowStale && !validator
  {
    assert RefOk(p, fs.refs[p], fs.objects);
  }

  // ----------------------------------------------------------------------- renewed

  lemma RenewedServes(fs: Fs, leased: set<ObjPath>, p: RefPath, r: Record, renewed: Record, expected: Option<Schema>,
                      now: nat)
    requires Sound(fs, leased) && RefAt(fs, p) == Some(r) && SameSeal(r, renewed)
    ensures var o := ObjOf(r);
            && o in fs.objects
            && (Servable(fs.(refs := fs.refs[p := Parsed(renewed)]), p, expected, false, now) <==>
                  now < renewed.expiresMs && ValidHit(r, fs.objects[o], expected))
  {
    assert RefOk(p, fs.refs[p], fs.objects);
  }

  /** A renewal that succeeds makes the entry one that lookups hit until the new deadline, and from then on not. */
  method RenewThenLookup(cache: DiskCache, key: CacheKey, hit: Hit, control: CacheControl, d: Deadline,
                         expiredBefore: bool, expiredAfter: bool, now: nat, expected: Option<Schema>, moment: nat,
                         later: Fs, foreign: set<ObjPath>)
    returns (done: bool, found: Option<Hit>)
    requires cache.Valid() && Sound(cache.fs, cache.LocksNow(foreign).All())
    requires PathOf(key) == RefPath(hit.record.identityDigest, hit.record.keyDigest)
    modifies cache
    ensures done ==>
              && ObjOf(hit.record) in old(cache.fs).objects
              && (found.Some? <==>
                    moment < d.expiresMs && ValidHit(hit.record, old(cache.fs).objects[ObjOf(hit.record)], expected))
              && (found.Some? ==> found.value.target == ObjOf(hit.record) && found.value.record.createdMs == now)
  {
    hide Servable, Revalidated, ValidHit, Sound, MayRenew, CleanedUp, QuietMiss;
    ghost var fs := cache.fs;
    ghost var leased := cache.LocksNow(foreign).All();
    done := cache.RevalidateFreshness(hit, control, d, expiredBefore, expiredAfter, now, foreign);
    if done {
      RenewedServes(fs, leased, PathOf(key), hit.record, RefAt(cache.fs, PathOf(key)).value, expected, moment);
    }
    found := cache.Lookup(key, expected, false, moment, later, foreign);
  }

  // ------------------------------------------------------------------------ recency

  /** The mark of `p` is later than any other mark, and than the creation of whatever has none. */
  predicate UsedLast(refs: map<RefPath, RefFile>, access: map<RefPath, nat>, p: RefPath) {
    && p in access
    && forall q | q in refs && q != p && refs[q].Parsed? ::
         (if q in access then access[q] else refs[q].record.createdMs) < access[p]
  }

  /** The ref used last goes only when all others but the one to be replaced have gone. */
  lemma UsedLastGoesLast(refs0: map<RefPath, RefFile>, access0: map<RefPath, nat>, refs: map<RefPath, RefFile>,
                         replacing: Option<RefPath>, now: nat, p: RefPath)
    requires EvictsOldest(refs0, access0, refs, replacing, now) && UsedLast(refs0, access0, p)
    requires forall q | q in refs :: q in refs0 && refs[q] == refs0[q]
    requires p in refs0 && refs0[p].Parsed? && p !in refs
    requires refs0[p].record.expiresMs > now || refs0[p].record.revalidatable
    ensures forall q | q in refs && refs[q].Parsed? :: Some(q) == replacing
  {
  }

  /**
   * A lookup that hits, at a moment later than any mark and any creation on record, keeps its entry from
   * eviction until every other entry has been evicted.
   */
  method HitThenMakeRoom(cache: DiskCache, key: CacheKey, expected: Option<Schema>, now: nat, later: Fs, incoming: nat,
                         replacing: Option<RefPath>, foreign: set<ObjPath>)
    returns (hit: Option<Hit>, ok: bool)
    requires cache.Valid()
    requires forall q | q in cache.fs.refs && cache.fs.refs[q].Parsed? ::
               (if q in cache.access then cache.access[q] else cache.fs.refs[q].record.createdMs) < now
    modifies cache
    ensures hit.Some? && PathOf(key) !in cache.fs.refs ==>
              forall q | q in cache.fs.refs && cache.fs.refs[q].Parsed? :: Some(q) == replacing
  {
    hide Servable, CleanedUp, QuietMiss, EvictsOldest, LruEvicted, Sweeps, Room, Swept, Matching, LastEviction;
    hit := cache.Lookup(key, expected, false, now, later, foreign);
    ghost var refs0, access0 := cache.fs.refs, cache.access;
    ghost var last;
    ok, last := cache.MakeRoom(incoming, replacing, now, foreign);
    if hit.Some? && PathOf(key) !in cache.fs.refs {
      UsedLastGoesLast(refs0, access0, cache.fs.refs, replacing, now, PathOf(key));
    }
  }

  // ------------------------------------------------------------------------- flushes

  lemma OtherScopeServes(fs: Fs, locks: Locks, scope: Utf8, key: CacheKey, expected: Option<Schema>, allowStale: bool,
                         now: nat)
    requires Sound(fs, locks.All())
    ensures var fs' := Swept(fs, locks, Matching(fs, InScope(OfScope(scope))));
            Servable(fs', PathOf(key), expected, allowStale, now) <==>
              key.identityScope != scope && Servable(fs, PathOf(key), expected, allowStale, now)
  {
    hide ValidHit, Blocked;
    var p := PathOf(key);
    var ps := Matching(fs, InScope(OfScope(scope)));
    if key.identityScope != scope && RefAt(fs, p).Some? {
      var r := RefAt(fs, p).value;
      assert RefOk(p, fs.refs[p], fs.objects);
      forall q | q in ps && RefAt(fs, q).Some?
        ensures ObjOf(RefAt(fs, q).value) != ObjOf(r)
      {
        assert RefOk(q, fs.refs[q], fs.objects);
      }
      assert ObjOf(r) !in SweptObjects(fs, locks, ps);
    }
  }

  /** After a flush of one scope, lookups of its keys miss, and those of all other keys find what they found before. */
  method FlushThenLookup(cache: DiskCache, scope: Utf8, key: CacheKey, expected: Option<Schema>, allowStale: bool,
                         now: nat, later: Fs, foreign: set<ObjPath>)
    returns (removed: nat, hit: Option<Hit>)
    requires cache.Valid() && Sound(cache.fs, cache.LocksNow(foreign).All())
    modifies cache
    ensures hit.Some? <==>
              key.identityScope != scope && Servable(old(cache.fs), PathOf(key), expected, allowStale, now)
    ensures hit.Some? ==> RefAt(old(cache.fs), PathOf(key)) == Some(hit.value.record)
  {
    hide Servable, CleanedUp, QuietMiss, Sweeps, Swept, Matching, Sound;
    ghost var fs, locks := cache.fs, cache.LocksNow(foreign);
    removed := cache.FlushScope(scope, foreign);
    OtherScopeServes(fs, locks, scope, key, expected, allowStale, now);
    hit := cache.Lookup(key, expected, allowStale, now, later, foreign);
  }
}
