/**
 * One instance of the persistent cache, method by method.  What the code reads from outside is
 * passed in: clock readings, the generations other processes hold leases on, an injected fault,
 * and, where the code drops one lock to take another, the disk it finds afterwards.
 */
module DiskCaches {
  import opened Wrappers
  import opened Schemas
  import opened Sums
  import opened CacheKeys
  import opened CacheControls
  import opened DiskModel
  import opened DiskProtocol
  import opened DiskRuns
  import opened DiskSections
  import opened DiskBounds
  import opened DiskRoom
  import opened DiskTraces
  import opened DiskCaptures
  import opened DiskPublication

  datatype Filter = InScope(identity: Mac) | OfCatalog(catalog: Utf8) | Everything | Expired(now: nat)

  predicate Selects(filter: Filter, p: RefPath, r: Record) {
    match filter
    case InScope(identity) => p.identity == identity
    case OfCatalog(catalog) => r.catalog == catalog
    case Everything => true
    case Expired(now) => r.expiresMs <= now && !r.revalidatable
  }

  function Matching(fs: Fs, filter: Filter): set<RefPath> {
    set p | p in ParsedRefs(fs) && Selects(filter, p, ParsedRefs(fs)[p])
  }

  /** What the scan for invalid refs lets stand, short of reading the object. */
  predicate RefStands(fs: Fs, p: RefPath) {
    && RefAt(fs, p).Some?
    && var r := RefAt(fs, p).value;
    && r.version == FORMAT_VERSION && r.keyDigest == p.key && r.identityDigest == p.identity
    && ObjOf(r) in fs.objects && fs.objects[ObjOf(r)].lease && !fs.objects[ObjOf(r)].manifest.NoManifest?
  }

  /** A readable ref of this format, filed under its own digests, whose object has its lease file and its manifest. */
  predicate Standing(fs: Fs, p: RefPath) {
    && p in fs.refs && fs.refs[p].Parsed?
    && var r := fs.refs[p].record;
    && r.version == 1 && p == RefPath(r.identityDigest, r.keyDigest)
    && var o := ObjPath(r.identityDigest, r.generation);
    && o in fs.objects && fs.objects[o].lease && fs.objects[o].manifest != NoManifest
  }

  function InvalidRefs(fs: Fs): set<RefPath> {
    set p | p in fs.refs && !RefStands(fs, p)
  }

  lemma ReadableMatch(fs: Fs, p: RefPath)
    requires p in fs.refs
    ensures p in Matching(fs, Everything) <==> RefAt(fs, p).Some?
  {
  }

  lemma UnreadableInvalid(fs0: Fs, fs: Fs, p: RefPath)
    requires fs.refs == fs0.refs - Matching(fs0, Everything) && p in fs.refs
    ensures p in InvalidRefs(fs)
  {
    ReadableMatch(fs0, p);
  }

  lemma KeysApart(refs: map<RefPath, RefFile>, gone: set<RefPath>, rest: map<RefPath, RefFile>)
    requires gone <= refs.Keys && rest == refs - gone
    ensures |gone| + |rest.Keys| == |refs|
  {
    assert refs.Keys == gone + rest.Keys;
  }

  /** What is left after sweeping every readable ref is invalid, and the two counts add up. */
  lemma FlushedRefs(fs0: Fs, fs: Fs)
    requires fs.refs == fs0.refs - Matching(fs0, Everything)
    ensures fs.refs - InvalidRefs(fs) == map[]
    ensures |Matching(fs0, Everything)| + |InvalidRefs(fs)| == |fs0.refs|
  {
    AllInvalid(fs0, fs);
    MinusKeys(fs.refs, InvalidRefs(fs));
    KeysApart(fs0.refs, Matching(fs0, Everything), fs.refs);
  }

  lemma AllInvalid(fs0: Fs, fs: Fs)
    requires fs.refs == fs0.refs - Matching(fs0, Everything)
    ensures InvalidRefs(fs) == fs.refs.Keys
  {
    forall p | p in fs.refs
      ensures p in InvalidRefs(fs)
    {
      UnreadableInvalid(fs0, fs, p);
    }
  }

  lemma GoneAreMatching(fs: Fs, locks: Locks, filter: Filter)
    ensures var fs' := Swept(fs, locks, Matching(fs, filter));
            fs.refs.Keys - fs'.refs.Keys == Matching(fs, filter) && OnlyEvicts(fs, fs')
  {
  }

  lemma MinusKeys(refs: map<RefPath, RefFile>, gone: set<RefPath>)
    requires gone == refs.Keys
    ensures refs - gone == map[]
  {
  }

  /** When a ref was last used, as far as this instance knows. */
  function Recency(access: map<RefPath, nat>, p: RefPath, r: Record): nat {
    if p in access then access[p] else r.createdMs
  }

  /** `p` went before `q`: no use of `p` is later than one of `q`. */
  predicate NoLater(access: map<RefPath, nat>, refs: map<RefPath, Record>, p: RefPath, q: RefPath) {
    p in refs && q in refs && Recency(access, p, refs[p]) <= Recency(access, q, refs[q])
  }

  /** Of two refs neither of which is replaced or expired, the one evicted was used no later. */
  ghost predicate LruEvicted(fs0: Fs, access0: map<RefPath, nat>, fs: Fs, replacing: Option<RefPath>,
                             gone: set<RefPath>) {
    forall p, q | p in ParsedRefs(fs0) && p !in gone && p !in fs.refs && q in ParsedRefs(fs) && Some(q) != replacing ::
      NoLater(access0, ParsedRefs(fs0), p, q)
  }

  /**
   * Of readable refs that had not expired, one that went was used no later, by the mark of its last hit or
   * else since its creation, than any that is left and is not to be replaced.
   */
  ghost predicate EvictsOldest(refs0: map<RefPath, RefFile>, access0: map<RefPath, nat>, refs: map<RefPath, RefFile>,
                               replacing: Option<RefPath>, now: nat) {
    forall p, q | && p in refs0 && refs0[p].Parsed? && p !in refs
                  && !(refs0[p].record.expiresMs <= now && !refs0[p].record.revalidatable)
                  && q in refs && refs[q].Parsed? && Some(q) != replacing ::
      (if p in access0 then access0[p] else refs0[p].record.createdMs)
      <= (if q in access0 then access0[q] else refs[q].record.createdMs)
  }

  lemma NoneEvicted(fs: Fs, access: map<RefPath, nat>, replacing: Option<RefPath>, now: nat)
    ensures EvictsOldest(ValidOnly(fs).refs, access, fs.refs, replacing, now)
  {
  }

  lemma EvictedByMarks(fs0: Fs, access0: map<RefPath, nat>, fs: Fs, replacing: Option<RefPath>, now: nat)
    requires Narrowed(fs0, fs) && LruEvicted(fs0, access0, fs, replacing, Matching(fs0, Expired(now)))
    ensures EvictsOldest(fs0.refs, access0, fs.refs, replacing, now)
  {
    var refs0, refs := fs0.refs, fs.refs;
    forall p, q | && p in refs0 && refs0[p].Parsed? && p !in refs
                  && !(refs0[p].record.expiresMs <= now && !refs0[p].record.revalidatable)
                  && q in refs && refs[q].Parsed? && Some(q) != replacing
      ensures (if p in access0 then access0[p] else refs0[p].record.createdMs)
           <= (if q in access0 then access0[q] else refs[q].record.createdMs)
    {
      assert p in ParsedRefs(fs0) && p !in Matching(fs0, Expired(now)) && q in ParsedRefs(fs);
      assert NoLater(access0, ParsedRefs(fs0), p, q);
    }
  }

  /** Only removals: what is left is as it was, and nothing unreadable was touched. */
  ghost predicate Narrowed(fs0: Fs, fs: Fs) {
    && OnlyEvicts(fs0, fs)
    && (forall p | p in fs0.refs && fs0.refs[p].Unparsed? :: p in fs.refs)
    && (forall o | o in fs.objects :: o in fs0.objects && fs.objects[o] == fs0.objects[o])
  }

  /** The ref to be replaced is not evicted to make room for its successor. */
  predicate KeepsReplaced(fs0: Fs, fs: Fs, replacing: Option<RefPath>, gone: set<RefPath>) {
    replacing.Some? && replacing.value in fs0.refs && replacing.value !in gone ==> replacing.value in fs.refs
  }

  /** `before` is the disk at the last eviction: without it there was no room, and it took one ref. */
  ghost predicate LastEviction(before: Fs, fs: Fs, locks: Locks, replacing: Option<RefPath>, incoming: nat,
                               limits: Limits) {
    && !Room(before, locks, replacing, incoming, limits)
    && exists p, r :: RefAt(before, p) == Some(r) && Some(p) != replacing && fs == Dropped(before, locks, p, r)
  }

  /** What every iteration of the eviction loop keeps. */
  ghost predicate Evicting(fs0: Fs, access0: map<RefPath, nat>, fs: Fs, access: map<RefPath, nat>, locks: Locks,
                           replacing: Option<RefPath>, gone: set<RefPath>) {
    && Narrowed(fs0, fs) && KeepsReplaced(fs0, fs, replacing, gone)
    && SameAccess(access0, fs, access, gone)
    && LruEvicted(fs0, access0, fs, replacing, gone)
    && Sweeps(fs0, fs, locks)
    && (OrphansHeld(fs0, locks) ==> OrphansHeld(fs, locks))
  }

  lemma SweepStart(fs0: Fs, access0: map<RefPath, nat>, locks: Locks, replacing: Option<RefPath>, gone: set<RefPath>)
    requires gone <= ParsedRefs(fs0).Keys
    ensures Evicting(fs0, access0, Swept(fs0, locks, gone), access0 - gone, locks, replacing, gone)
  {
    SweptSweeps(fs0, locks, gone);
    if OrphansHeld(fs0, locks) {
      SweptOrphans(fs0, locks, gone);
    }
  }

  lemma EvictOne(fs0: Fs, access0: map<RefPath, nat>, fs: Fs, access: map<RefPath, nat>, locks: Locks,
                 replacing: Option<RefPath>, gone: set<RefPath>, victim: RefPath)
    requires Evicting(fs0, access0, fs, access, locks, replacing, gone)
    requires victim in OthersThan(ParsedRefs(fs), replacing)
    requires forall q | q in OthersThan(ParsedRefs(fs), replacing) ::
               NoLater(access, OthersThan(ParsedRefs(fs), replacing), victim, q)
    ensures Evicting(fs0, access0, Dropped(fs, locks, victim, ParsedRefs(fs)[victim]), access - {victim}, locks,
                     replacing, gone)
  {
    var r := ParsedRefs(fs)[victim];
    EvictSweeps(fs0, fs, locks, victim, r);
    EvictOldest(fs0, access0, fs, access, locks, replacing, gone, victim);
    EvictNarrows(fs0, fs, locks, replacing, gone, victim, r);
    EvictAccess(access0, fs, access, locks, gone, victim, r);
  }

  /** What is known of the use of the refs that are left is what was known at first. */
  ghost predicate SameAccess(access0: map<RefPath, nat>, fs: Fs, access: map<RefPath, nat>, gone: set<RefPath>) {
    forall p | p in fs.refs ::
      p !in gone && (p in access <==> p in access0) && (p in access ==> access[p] == access0[p])
  }

  lemma EvictAccess(access0: map<RefPath, nat>, fs: Fs, access: map<RefPath, nat>, locks: Locks, gone: set<RefPath>,
                    victim: RefPath, r: Record)
    requires SameAccess(access0, fs, access, gone)
    ensures SameAccess(access0, Dropped(fs, locks, victim, r), access - {victim}, gone)
  {
  }

  lemma EvictSweeps(fs0: Fs, fs: Fs, locks: Locks, victim: RefPath, r: Record)
    requires Sweeps(fs0, fs, locks) && RefAt(fs, victim) == Some(r)
    requires OrphansHeld(fs0, locks) ==> OrphansHeld(fs, locks)
    ensures Sweeps(fs0, Dropped(fs, locks, victim, r), locks)
    ensures OrphansHeld(fs0, locks) ==> OrphansHeld(Dropped(fs, locks, victim, r), locks)
  {
    DroppedSweeps(fs, locks, victim, r);
    SweepsTrans(fs0, fs, Dropped(fs, locks, victim, r), locks);
    if OrphansHeld(fs0, locks) {
      DroppedOrphans(fs, locks, victim, r);
    }
  }

  lemma EvictNarrows(fs0: Fs, fs: Fs, locks: Locks, replacing: Option<RefPath>, gone: set<RefPath>, victim: RefPath,
                     r: Record)
    requires Narrowed(fs0, fs) && KeepsReplaced(fs0, fs, replacing, gone)
    requires RefAt(fs, victim) == Some(r) && Some(victim) != replacing
    ensures Narrowed(fs0, Dropped(fs, locks, victim, r))
    ensures KeepsReplaced(fs0, Dropped(fs, locks, victim, r), replacing, gone)
  {
  }

  lemma DroppedRefs(fs: Fs, locks: Locks, p: RefPath, r: Record)
    ensures ParsedRefs(Dropped(fs, locks, p, r)) == ParsedRefs(fs) - {p}
  {
  }

  lemma FewerKeys<K, V>(m: map<K, V>, k: K)
    requires k in m
    ensures |m - {k}| < |m|
  {
    assert (m - {k}).Keys == m.Keys - {k};
  }

  lemma OneFewer(fs: Fs, locks: Locks, replacing: Option<RefPath>, victim: RefPath)
    requires victim in OthersThan(ParsedRefs(fs), replacing)
    ensures |OthersThan(ParsedRefs(Dropped(fs, locks, victim, ParsedRefs(fs)[victim])), replacing)|
          < |OthersThan(ParsedRefs(fs), replacing)|
  {
    DroppedRefs(fs, locks, victim, ParsedRefs(fs)[victim]);
    if replacing.Some? {
      assert ParsedRefs(fs) - {victim} - {replacing.value} == ParsedRefs(fs) - {replacing.value} - {victim};
    }
    FewerKeys(OthersThan(ParsedRefs(fs), replacing), victim);
  }

  lemma EvictionIsLast(fs: Fs, locks: Locks, replacing: Option<RefPath>, victim: RefPath, incoming: nat, limits: Limits)
    requires victim in OthersThan(ParsedRefs(fs), replacing) && !Room(fs, locks, replacing, incoming, limits)
    ensures var fs' := Dropped(fs, locks, victim, OthersThan(ParsedRefs(fs), replacing)[victim]);
            && LastEviction(fs, fs', locks, replacing, incoming, limits)
            && |OthersThan(ParsedRefs(fs'), replacing)| < |OthersThan(ParsedRefs(fs), replacing)|
  {
    assert RefAt(fs, victim) == Some(OthersThan(ParsedRefs(fs), replacing)[victim]);
    OneFewer(fs, locks, replacing, victim);
  }

  lemma EvictOldest(fs0: Fs, access0: map<RefPath, nat>, fs: Fs, access: map<RefPath, nat>, locks: Locks,
                    replacing: Option<RefPath>, gone: set<RefPath>, victim: RefPath)
    requires OnlyEvicts(fs0, fs) && LruEvicted(fs0, access0, fs, replacing, gone)
    requires SameAccess(access0, fs, access, gone)
    requires victim in OthersThan(ParsedRefs(fs), replacing)
    requires forall q | q in OthersThan(ParsedRefs(fs), replacing) ::
               NoLater(access, OthersThan(ParsedRefs(fs), replacing), victim, q)
    ensures LruEvicted(fs0, access0, Dropped(fs, locks, victim, ParsedRefs(fs)[victim]), replacing, gone)
  {
    var fs' := Dropped(fs, locks, victim, ParsedRefs(fs)[victim]);
    forall p, q | p in ParsedRefs(fs0) && p !in gone && p !in fs'.refs && q in ParsedRefs(fs') && Some(q) != replacing
      ensures NoLater(access0, ParsedRefs(fs0), p, q)
    {
      assert q in OthersThan(ParsedRefs(fs), replacing);
      if p == victim {
        assert NoLater(access, OthersThan(ParsedRefs(fs), replacing), victim, q);
      }
    }
  }

  // ----------------------------------------------------------------- lookups

  /** The record carries a validator that may be sent on a conditional request. */
  predicate Conditional(r: Record) {
    r.revalidatable && (r.etag.Some? || r.lastModified.Some?)
  }

  /** A fresh lookup serves the unexpired; a revalidation lookup serves whatever has a validator. */
  predicate Usable(r: Record, allowStale: bool, now: nat) {
    if allowStale then Conditional(r) else now < r.expiresMs
  }

  /** There is something under the key that may be handed out, and it is whole. */
  predicate Servable(fs: Fs, p: RefPath, expected: Option<Schema>, allowStale: bool, now: nat) {
    && RefAt(fs, p).Some?
    && var r := RefAt(fs, p).value;
    && HeaderOk(p, r) && Usable(r, allowStale, now)
    && ObjOf(r) in fs.objects && fs.objects[ObjOf(r)].lease
    && ValidHit(r, fs.objects[ObjOf(r)], expected)
  }

  /** On a sound disk every usable ref is served, unless another schema is expected. */
  lemma SoundServes(fs: Fs, leased: set<ObjPath>, p: RefPath, content: Content, expected: Option<Schema>,
                    allowStale: bool, now: nat)
    requires Sound(fs, leased) && RefAt(fs, p).Some?
    requires Replays(fs.objects[ObjOf(RefAt(fs, p).value)], RefAt(fs, p).value, content)
    ensures var r := RefAt(fs, p).value;
            Servable(fs, p, expected, allowStale, now) <==>
              && (if allowStale then r.revalidatable && (r.etag.Some? || r.lastModified.Some?) else now < r.expiresMs)
              && (expected.Some? ==> expected.value == content.schema)
  {
    var r := RefAt(fs, p).value;
    assert RefOk(p, fs.refs[p], fs.objects);
    ValidWithSchema(r, fs.objects[ObjOf(r)], content, expected);
  }

  predicate HeaderOk(p: RefPath, r: Record) {
    r.version == FORMAT_VERSION && r.keyDigest == p.key && r.identityDigest == p.identity
  }

  /** Misses that change nothing: no ref, a stale one kept for revalidation, a fresh one without validator. */
  predicate QuietMiss(fs: Fs, p: RefPath, allowStale: bool, now: nat) {
    p in fs.refs ==>
      && fs.refs[p].Parsed? && HeaderOk(p, fs.refs[p].record)
      && var r := fs.refs[p].record;
      if r.expiresMs <= now then Conditional(r) && !allowStale else allowStale && !Conditional(r)
  }

  datatype Hit = Hit(record: Record, target: ObjPath)

  /** What a lookup that found something unusable leaves: that very ref gone, if it is still there. */
  function CleanedUp(later: Fs, locks: Locks, p: RefPath, seen: RefFile): Fs {
    if seen.Parsed? then IfCurrentDropped(later, locks, p, seen.record)
    else if p in later.refs && later.refs[p] == seen then Apply(Unbind(p), later)
    else later
  }

  // ----------------------------------------------------------------- commits

  datatype Fault = AfterObjectRename | AfterRefPublish

  datatype Skip =
    | NotCacheable | TransactionScoped | UnsupportedScope | NoFreshness | EntryTooLarge | Disabled | Capacity

  datatype Outcome = Stored(bytes: nat, rows: nat, partitions: nat) | Skipped(reason: Skip) | Failed | WrongRoot

  /** The deadline of a result, and what the clock says of it at each of the four checks. */
  datatype Deadline = Deadline(expiresMs: nat, immediate: bool, start: bool, locked: bool, admitted: bool,
                               published: bool)

  /** A zero lifetime is admissible when the worker gave a validator to send. */
  predicate ImmediateRevalidation(d: Deadline, control: Option<CacheControl>) {
    d.immediate && control.Some? && ValidRevalidation(control.value)
  }

  function PolicySkip(control: Option<CacheControl>, d: Deadline, limits: Limits): Option<Skip> {
    if control.None? || control.value.noStore then Some(NotCacheable)
    else if control.value.scope == SCOPE_TRANSACTION then Some(TransactionScoped)
    else if control.value.scope != SCOPE_CATALOG then Some(UnsupportedScope)
    else if d.start && !ImmediateRevalidation(d, control) then Some(NoFreshness)
    else if limits.maxEntries == 0 || limits.maxBytes == 0 then Some(Disabled)
    else None
  }

  /** A not-modified answer may slide freshness only for a stored, cacheable, conditional entry. */
  predicate MayRenew(r: Record, control: CacheControl, d: Deadline, expired: bool) {
    && !control.noStore && control.scope == SCOPE_CATALOG
    && !(d.immediate && !ValidRevalidation(control))
    && Conditional(r)
    && (expired ==> d.immediate)
  }

  function Renewed(r: Record, control: CacheControl, d: Deadline, now: nat): Record {
    r.(createdMs := now, expiresMs := d.expiresMs, etag := control.etag, lastModified := control.lastModified,
       revalidatable := ValidRevalidation(control),
       staleIfError := if ValidRevalidation(control) then PositiveSeconds(control.staleIfError) else None)
  }

  /** Expired, and not a zero lifetime that the worker backs with a validator. */
  predicate TooLate(expired: bool, d: Deadline, control: Option<CacheControl>) {
    expired && !ImmediateRevalidation(d, control)
  }

  lemma SoundHasNoInvalid(fs: Fs, leased: set<ObjPath>)
    requires Sound(fs, leased)
    ensures InvalidRefs(fs) == {} && fs.refs - InvalidRefs(fs) == fs.refs
  {
    forall p | p in fs.refs
      ensures RefStands(fs, p)
    {
      assert RefOk(p, fs.refs[p], fs.objects);
    }
  }

  /** Refusals before anything on disk is looked at, in the order the checks are made. */
  function EarlySkip(limitExceeded: bool, control: Option<CacheControl>, d: Deadline, bytes: nat,
                     limits: Limits): Option<Skip> {
    if limitExceeded then Some(EntryTooLarge)
    else if PolicySkip(control, d, limits).Some? then PolicySkip(control, d, limits)
    else if bytes > limits.maxBytes then Some(EntryTooLarge)
    else if TooLate(d.locked, d, control) then Some(NoFreshness)
    else None
  }

  /**
   * Which early refusal a commit meets, in the fields of its arguments.  Without one there is a control that
   * allows storing for the catalog, the entry fits the byte limit, and an expired result is backed by a validator.
   */
  lemma EarlySkips(limitExceeded: bool, control: Option<CacheControl>, d: Deadline, bytes: nat, limits: Limits)
    ensures var early := EarlySkip(limitExceeded, control, d, bytes, limits);
            var stated := !limitExceeded && control.Some? && !control.value.noStore;
            var backed := d.immediate && control.Some? && control.value.revalidatable
                          && (control.value.etag.Some? || control.value.lastModified.Some?);
            var timely := stated && control.value.scope == "catalog" && (d.start ==> backed);
            var enabled := timely && limits.maxEntries > 0 && limits.maxBytes > 0;
            && early != Some(Capacity)
            && (early == Some(NotCacheable) <==> !limitExceeded && (control.None? || control.value.noStore))
            && (early == Some(TransactionScoped) <==> stated && control.value.scope == "transaction")
            && (early == Some(UnsupportedScope) <==>
                  stated && control.value.scope != "catalog" && control.value.scope != "transaction")
            && (early == Some(Disabled) <==> timely && (limits.maxEntries == 0 || limits.maxBytes == 0))
            && (early == Some(EntryTooLarge) <==> limitExceeded || (enabled && bytes > limits.maxBytes))
            && (early == Some(NoFreshness) <==>
                  || (stated && control.value.scope == "catalog" && d.start && !backed)
                  || (enabled && bytes <= limits.maxBytes && d.locked && !backed))
            && (early.None? <==> enabled && bytes <= limits.maxBytes && (d.locked ==> backed))
  {
    assert |"catalog"| == 7 && |"transaction"| == 11;
  }

  lemma TooLateIff(expired: bool, d: Deadline, control: Option<CacheControl>)
    ensures TooLate(expired, d, control) <==>
              expired && !(d.immediate && control.Some? && control.value.revalidatable
                           && (control.value.etag.Some? || control.value.lastModified.Some?))
  {
  }

  /** How the disk may change before a commit is admitted: unreadable refs and others go, nothing is added. */
  ghost predicate Pruned(fs0: Fs, fs: Fs) {
    && OnlyEvicts(fs0, fs)
    && (forall o | o in fs.objects :: o in fs0.objects && fs.objects[o] == fs0.objects[o])
  }

  /** The job a capture is sealed into. */
  function JobOf(key: CacheKey, generation: nat, content: Content, codec: Codec, lens: seq<nat>, createdMs: nat,
                 d: Deadline, control: CacheControl): Job
    requires |lens| == |content.parts|
  {
    JobFor(generation, key, content, codec, lens, createdMs, d.expiresMs, control)
  }

  lemma JobOfOk(key: CacheKey, generation: nat, content: Content, codec: Codec, lens: seq<nat>, createdMs: nat,
                d: Deadline, control: CacheControl)
    requires |lens| == |content.parts| > 0 && forall i | 0 <= i < |lens| :: lens[i] > 0
    ensures var j := JobOf(key, generation, content, codec, lens, createdMs, d, control);
            && JobOk(j) && j.key == key && j.record.generation == generation
            && j.record.storedBytes == SumSeq(lens) && SumSeq(lens) > 0
            && j.record.rows == SumSeq(RowCounts(content.parts)) && j.record.partitions == |lens|
  {
    SumSeqPositive(lens);
  }

  /** The record a job is published under, field by field. */
  lemma JobRecord(key: CacheKey, generation: nat, content: Content, codec: Codec, lens: seq<nat>, createdMs: nat,
                  d: Deadline, control: CacheControl)
    requires |lens| == |content.parts|
    ensures var r := JobOf(key, generation, content, codec, lens, createdMs, d, control).record;
            && r.createdMs == createdMs && r.expiresMs == d.expiresMs && r.generation == generation
            && r.keyDigest == OfKey(key) && r.identityDigest == OfScope(key.identityScope)
            && r.catalog == key.catalog && r.functionName == key.functionName && r.at == key.at
            && r.storedBytes == SumSeq(lens) && r.rows == SumSeq(RowCounts(content.parts))
            && r.partitions == |lens| && r.batches == SumSeq(BatchCounts(content.parts)) && r.codec == codec
            && r.etag == control.etag && r.lastModified == control.lastModified
            && r.revalidatable == (control.revalidatable && (control.etag.Some? || control.lastModified.Some?))
            && r.staleIfError == (if control.staleIfError.Some? && control.staleIfError.value > 0
                                  then Some(control.staleIfError.value) else None)
  {
  }

  /**
   * A lookup of `key` finds what was captured: a fresh one exactly before the deadline, a revalidating one
   * exactly if a validator was given, and neither when another schema is expected.
   */
  ghost predicate FoundAsStored(fs: Fs, key: CacheKey, content: Content, expiresMs: nat, control: CacheControl) {
    && RefAt(fs, PathOf(key)).Some?
    && var r := RefAt(fs, PathOf(key)).value;
    && ObjOf(r) in fs.objects && Replays(fs.objects[ObjOf(r)], r, content)
    && forall expected: Option<Schema>, now: nat ::
         && (Servable(fs, PathOf(key), expected, false, now) <==>
               now < expiresMs && (expected.Some? ==> expected.value == content.schema))
         && (Servable(fs, PathOf(key), expected, true, now) <==>
               && control.revalidatable && (control.etag.Some? || control.lastModified.Some?)
               && (expected.Some? ==> expected.value == content.schema))
  }

  lemma KeptIsThere(fs: Fs, locks: Locks, j: Job)
    requires JobOk(j)
    ensures RefAt(Kept(fs, locks, j), PathOf(j.key)) == Some(j.record)
    ensures ObjOf(j.record) in Kept(fs, locks, j).objects && Kept(fs, locks, j).objects[ObjOf(j.record)] == JobDir(j)
  {
  }

  lemma SealedServes(fs: Fs, j: Job, expected: Option<Schema>, allowStale: bool, now: nat)
    requires JobOk(j) && j.record.keyDigest == OfKey(j.key) && RefAt(fs, PathOf(j.key)) == Some(j.record)
    requires ObjOf(j.record) in fs.objects && fs.objects[ObjOf(j.record)] == JobDir(j)
    ensures Servable(fs, PathOf(j.key), expected, allowStale, now) <==>
              && (if allowStale then j.record.revalidatable && (j.record.etag.Some? || j.record.lastModified.Some?)
                  else now < j.record.expiresMs)
              && (expected.Some? ==> expected.value == j.content.schema)
  {
    hide ValidHit, Describes;
    SealedPasses(j.key, j.content, j.codec, j.lens, j.record, expected);
  }

  lemma SealedReplays(j: Job)
    requires JobOk(j)
    ensures Replays(JobDir(j), j.record, j.content)
  {
  }

  lemma StoredIsFound(admitted: Fs, locks: Locks, key: CacheKey, generation: nat, content: Content, codec: Codec,
                      lens: seq<nat>, createdMs: nat, d: Deadline, control: CacheControl)
    requires |lens| == |content.parts| > 0 && forall i | 0 <= i < |lens| :: lens[i] > 0
    ensures var j := JobOf(key, generation, content, codec, lens, createdMs, d, control);
            JobOk(j) && FoundAsStored(Kept(admitted, locks, j), key, content, d.expiresMs, control)
  {
    hide Servable, Kept, JobOk, Replays, RefAt, JobDir;
    var j := JobOf(key, generation, content, codec, lens, createdMs, d, control);
    JobOfOk(key, generation, content, codec, lens, createdMs, d, control);
    JobRecord(key, generation, content, codec, lens, createdMs, d, control);
    KeptIsThere(admitted, locks, j);
    SealedReplays(j);
    var fs := Kept(admitted, locks, j);
    forall expected: Option<Schema>, now: nat
      ensures Servable(fs, PathOf(key), expected, false, now) <==>
                now < d.expiresMs && (expected.Some? ==> expected.value == content.schema)
      ensures Servable(fs, PathOf(key), expected, true, now) <==>
                && control.revalidatable && (control.etag.Some? || control.lastModified.Some?)
                && (expected.Some? ==> expected.value == content.schema)
    {
      SealedServes(fs, j, expected, false, now);
      SealedServes(fs, j, expected, true, now);
    }
  }

  /** What a stored commit guarantees: only protocol steps, one key changed, and both limits met. */
  lemma StoredGuarantees(fs0: Fs, admitted: Fs, locks: Locks, j: Job, limits: Limits)
    requires Sound(fs0, locks.All()) && Sweeps(fs0, admitted, locks)
    requires JobOk(j) && FreshName(admitted, locks, j.record.generation) && j.record.storedBytes > 0
    requires Room(admitted, locks, Some(PathOf(j.key)), j.record.storedBytes, limits)
    ensures Reaches(fs0, Kept(admitted, locks, j), locks.All())
    ensures StoredView(admitted, Kept(admitted, locks, j), j)
    ensures InBounds(Kept(admitted, locks, j).objects, limits)
  {
    SweepsReaches(fs0, admitted, locks);
    KeptReaches(admitted, locks, j);
    ReachesTrans(fs0, admitted, Kept(admitted, locks, j), locks.All());
    KeptIsStoredView(admitted, locks, j);
    KeptInBounds(admitted, locks, j, limits);
  }

  /** The leased generations and the incoming entry alone exceed a bound. */
  ghost predicate LeasesExceed(fs: Fs, locks: Locks, incoming: nat, limits: Limits) {
    || Total(Weights(LeasedOnly(fs.objects, locks.All()))) + incoming > limits.maxBytes
    || |LeasedOnly(fs.objects, locks.All())| + 1 > limits.maxEntries
  }

  lemma RefusalIsForLeases(fs0: Fs, fs: Fs, locks: Locks, p: RefPath, incoming: nat, limits: Limits)
    requires Sound(fs0, locks.All()) && Sweeps(fs0, fs, locks) && OrphansHeld(fs, locks) && incoming > 0
    requires OthersThan(ParsedRefs(fs), Some(p)) == map[] && !Room(fs, locks, Some(p), incoming, limits)
    ensures LeasesExceed(fs, locks, incoming, limits)
  {
    SweepsReaches(fs0, fs, locks);
    RefusedOnlyForLeases(fs, locks, p, incoming, limits);
  }

  /**
   * What a commit leaves, from a sound disk: removals alone lead to the disk it is admitted on, and
   * allowed steps to the one it leaves; if it was published, even to be rolled back, there was room;
   * if stored, one key changed and both limits hold; if refused for capacity, the leases alone are to blame.
   */
  ghost predicate CommitGuarantee(fs0: Fs, admitted: Fs, fs: Fs, locks: Locks, job: Option<Job>, bytes: nat,
                                  outcome: Outcome, limits: Limits) {
    Sound(fs0, locks.All()) ==>
      && Sweeps(fs0, admitted, locks) && Reaches(fs0, fs, locks.All())
      && (outcome.Stored? || outcome == Failed ==>
        job.Some? && KeptOrUndone(admitted, fs, locks, job.value, outcome, limits))
      && (outcome.Stored? ==> InBounds(fs.objects, limits) && StoredView(admitted, fs, job.value))
      && (!outcome.Stored? ==> fs == admitted)
      && (outcome == Skipped(Capacity) ==> LeasesExceed(fs, locks, bytes, limits))
  }

  /** The job was admitted, and then either kept or rolled back. */
  ghost predicate KeptOrUndone(admitted: Fs, fs: Fs, locks: Locks, j: Job, outcome: Outcome, limits: Limits) {
    && JobOk(j) && j.record.storedBytes > 0
    && Room(admitted, locks, Some(PathOf(j.key)), j.record.storedBytes, limits)
    && fs == if outcome.Stored? then Kept(admitted, locks, j) else admitted
  }

  lemma EarlyGuarantee(fs: Fs, locks: Locks, job: Option<Job>, bytes: nat, limits: Limits, early: Skip)
    requires early != Capacity
    ensures CommitGuarantee(fs, fs, fs, locks, job, bytes, Skipped(early), limits)
    ensures CommitGuarantee(fs, fs, fs, locks, job, bytes, WrongRoot, limits) && Pruned(fs, fs)
  {
    SweepsSelf(fs, locks);
    ReachesSelf(fs, locks.All());
  }

  /** A commit that got as far as its publication. */
  lemma PublishedGuarantee(fs0: Fs, admitted: Fs, fs: Fs, locks: Locks, j: Job, outcome: Outcome, limits: Limits)
    requires MadeRoom(fs0, admitted, locks, PathOf(j.key), j.record.storedBytes, limits, true)
    requires JobOk(j) && j.record.storedBytes > 0 && FreshName(admitted, locks, j.record.generation)
    requires outcome != Skipped(Capacity) && fs == if outcome.Stored? then Kept(admitted, locks, j) else admitted
    ensures CommitGuarantee(fs0, admitted, fs, locks, Some(j), j.record.storedBytes, outcome, limits)
  {
    if Sound(fs0, locks.All()) {
      SweepsReaches(fs0, admitted, locks);
      if outcome.Stored? {
        StoredGuarantees(fs0, admitted, locks, j, limits);
      }
    }
  }

  /** What making room for a commit of `bytes` under `p` leaves: others evicted, until it fits or none is left. */
  ghost predicate MadeRoom(fs0: Fs, fs: Fs, locks: Locks, p: RefPath, bytes: nat, limits: Limits, ok: bool) {
    && (ok <==> Room(fs, locks, Some(p), bytes, limits))
    && (!ok ==> OthersThan(ParsedRefs(fs), Some(p)) == map[])
    && Pruned(fs0, fs) && OrphansHeld(fs, locks)
    && (Sound(fs0, locks.All()) ==> Sweeps(fs0, fs, locks))
  }

  lemma AdmitGuarantee(fs0: Fs, fs: Fs, locks: Locks, p: RefPath, bytes: nat, limits: Limits, ok: bool)
    requires (ok <==> Room(fs, locks, Some(p), bytes, limits)) && (!ok ==> OthersThan(ParsedRefs(fs), Some(p)) == map[])
    requires Narrowed(Reaped(ValidOnly(fs0), locks), fs) && Sweeps(Reaped(ValidOnly(fs0), locks), fs, locks)
    requires OrphansHeld(Reaped(ValidOnly(fs0), locks), locks) ==> OrphansHeld(fs, locks)
    ensures MadeRoom(fs0, fs, locks, p, bytes, limits, ok)
    ensures Reaped(ValidOnly(fs0), locks).refs == ValidOnly(fs0).refs
  {
    hide Room, Sweeps;
    var valid := ValidOnly(fs0);
    ReapedHeld(valid, locks);
    if Sound(fs0, locks.All()) {
      SoundHasNoInvalid(fs0, locks.All());
      ReapedSweeps(valid, locks);
      SweepsTrans(valid, Reaped(valid, locks), fs, locks);
    }
  }

  lemma RoomDecides(fs0: Fs, fs: Fs, locks: Locks, p: RefPath, bytes: nat, limits: Limits, ok: bool)
    requires MadeRoom(fs0, fs, locks, p, bytes, limits, ok)
    ensures ok <==> Room(fs, locks, Some(p), bytes, limits)
  {
  }

  /** A commit that stopped before its publication. */
  lemma RefusedGuarantee(fs0: Fs, fs: Fs, locks: Locks, j: Job, limits: Limits, ok: bool)
    requires MadeRoom(fs0, fs, locks, PathOf(j.key), j.record.storedBytes, limits, ok) && j.record.storedBytes > 0
    ensures Pruned(fs0, fs)
    ensures CommitGuarantee(fs0, fs, fs, locks, Some(j), j.record.storedBytes,
                            Skipped(if ok then NoFreshness else Capacity), limits)
  {
    if Sound(fs0, locks.All()) {
      SweepsReaches(fs0, fs, locks);
      if !ok {
        RefusalIsForLeases(fs0, fs, locks, PathOf(j.key), j.record.storedBytes, limits);
      }
    }
  }

  lemma AdmittedFresh(fs0: Fs, fs: Fs, locks: Locks, j: Job, limits: Limits)
    requires MadeRoom(fs0, fs, locks, PathOf(j.key), j.record.storedBytes, limits, true)
    requires FreshName(fs0, locks, j.record.generation)
    ensures FreshName(fs, locks, j.record.generation) && Pruned(fs0, fs)
  {
  }

  function ValidOnly(fs: Fs): Fs {
    fs.(refs := fs.refs - InvalidRefs(fs))
  }

  /** Without invalid refs, expired entries and free orphans. */
  function SweptAll(fs: Fs, locks: Locks, now: nat): Fs {
    Reaped(Swept(ValidOnly(fs), locks, Matching(ValidOnly(fs), Expired(now))), locks)
  }

  lemma SweptAllHeld(fs: Fs, locks: Locks, now: nat)
    ensures OrphansHeld(SweptAll(fs, locks, now), locks)
  {
    ReapedHeld(Swept(ValidOnly(fs), locks, Matching(ValidOnly(fs), Expired(now))), locks);
  }

  lemma SweptAllPruned(fs0: Fs, locks: Locks, now: nat, fs: Fs)
    requires Narrowed(SweptAll(fs0, locks, now), fs)
    ensures Pruned(fs0, fs)
  {
  }

  /** After a sweep of the expired and of the orphans, no expired ref is left, whatever is evicted next. */
  lemma NoneExpired(fs0: Fs, locks: Locks, now: nat, fs: Fs)
    requires Narrowed(SweptAll(fs0, locks, now), fs)
    ensures Matching(fs, Expired(now)) == {}
  {
  }

  lemma SweptAllSweeps(fs: Fs, locks: Locks, now: nat)
    requires Sound(fs, locks.All())
    ensures Sweeps(fs, SweptAll(fs, locks, now), locks)
  {
    SoundHasNoInvalid(fs, locks.All());
    var unexpired := Swept(fs, locks, Matching(fs, Expired(now)));
    SweptSweeps(fs, locks, Matching(fs, Expired(now)));
    ReapedSweeps(unexpired, locks);
    SweepsTrans(fs, unexpired, Reaped(unexpired, locks), locks);
  }

  lemma NoRefsLeft(fs: Fs, leased: set<ObjPath>)
    requires Sound(fs, leased)
    ensures ParsedRefs(fs) == map[] ==> fs.refs == map[]
  {
    forall p | p in fs.refs
      ensures p in ParsedRefs(fs)
    {
      assert RefOk(p, fs.refs[p], fs.objects);
    }
  }

  /** With nothing coming in, there is room exactly if all objects are within both limits. */
  lemma RoomAtRest(fs: Fs, locks: Locks, limits: Limits)
    requires Sound(fs, locks.All())
    ensures Room(fs, locks, None, 0, limits) <==> InBounds(fs.objects, limits)
  {
    SoundAccounted(fs, locks.All());
    PartsAddUp(ParsedRefs(fs), fs.objects);
  }

  lemma ReapGuarantee(fs0: Fs, locks: Locks, now: nat, fs: Fs, limits: Limits, ok: bool)
    requires Narrowed(SweptAll(fs0, locks, now), fs) && Sweeps(SweptAll(fs0, locks, now), fs, locks)
    requires (ok <==> Room(fs, locks, None, 0, limits)) && (!ok ==> OthersThan(ParsedRefs(fs), None) == map[])
    ensures Pruned(fs0, fs) && Matching(fs, Expired(now)) == {}
    ensures Room(fs, locks, None, 0, limits) || ParsedRefs(fs) == map[]
    ensures Sound(fs0, locks.All()) ==>
              Sweeps(fs0, fs, locks) && (InBounds(fs.objects, limits) || fs.refs == map[])
  {
    SweptAllPruned(fs0, locks, now, fs);
    NoneExpired(fs0, locks, now, fs);
    if Sound(fs0, locks.All()) {
      SweptAllSweeps(fs0, locks, now);
      SweepsTrans(fs0, SweptAll(fs0, locks, now), fs, locks);
      SweepsReaches(fs0, fs, locks);
      RoomAtRest(fs, locks, limits);
      NoRefsLeft(fs, locks.All());
    }
  }

  /** What a sweep leaves stood before and has not expired, and nothing else of the kind is swept. */
  lemma ReapedStand(fs0: Fs, locks: Locks, now: nat, fs: Fs)
    requires Narrowed(SweptAll(fs0, locks, now), fs)
    ensures forall p | p in fs.refs ::
              && Standing(fs0, p) && fs.refs[p] == fs0.refs[p]
              && (fs.refs[p].record.expiresMs > now || fs.refs[p].record.revalidatable)
    ensures forall p | p in fs0.refs ::
              p in SweptAll(fs0, locks, now).refs <==>
                && Standing(fs0, p)
                && (fs0.refs[p].record.expiresMs > now || fs0.refs[p].record.revalidatable)
  {
    forall p | p in fs0.refs
      ensures RefStands(fs0, p) <==> Standing(fs0, p)
    {
    }
  }

  lemma SweptOnce(fs: Fs, locks: Locks, now: nat)
    ensures var swept := SweptAll(fs, locks, now);
            Swept(swept, locks, Matching(swept, Expired(now))) == swept
  {
    var swept := SweptAll(fs, locks, now);
    NoneExpired(fs, locks, now, swept);
    assert swept.refs - {} == swept.refs && swept.objects - {} == swept.objects;
  }

  /** A capture directory: whether its lease file is there, and when it was last changed. */
  datatype Temp = Temp(lease: bool, modifiedMs: nat)

  const TEMP_GRACE_MS := 3_600_000

  /** Held by a capture of this instance or, through its lease, by one of another process; or too young to tell. */
  predicate TempStays(temps: map<nat, Temp>, active: set<nat>, heldElsewhere: set<nat>, now: nat, g: nat)
    requires g in temps
  {
    g in active || (temps[g].lease && g in heldElsewhere) || now - temps[g].modifiedMs < TEMP_GRACE_MS
  }

  /** Captures in progress, here or elsewhere. */
  function HeldTemps(temps: map<nat, Temp>, active: set<nat>, heldElsewhere: set<nat>): set<nat> {
    active + set g | g in temps && temps[g].lease && g in heldElsewhere
  }

  /** What is left once the ref at `p` is gone with its object, if it still is the record `r`. */
  function IfCurrentDropped(fs: Fs, locks: Locks, p: RefPath, r: Record): Fs {
    if RefAt(fs, p) == Some(r) then Dropped(fs, locks, p, r) else fs
  }

  lemma IfCurrentSweeps(fs: Fs, locks: Locks, p: RefPath, r: Record)
    ensures Sweeps(fs, IfCurrentDropped(fs, locks, p, r), locks)
  {
    if RefAt(fs, p) == Some(r) {
      DroppedSweeps(fs, locks, p, r);
    } else {
      SweepsSelf(fs, locks);
    }
  }

  /** What a revalidation leaves: the record renewed, and gone again if its new lifetime did not `last`. */
  function Revalidated(fs: Fs, locks: Locks, p: RefPath, seen: Record, renewed: Record, last: bool): Fs {
    if RefAt(fs, p) != Some(seen) then fs
    else if last then Apply(Bind(p, Parsed(renewed)), fs)
    else Dropped(Apply(Bind(p, Parsed(renewed)), fs), locks, p, renewed)
  }

  class DiskCache {
    const root: nat
    const limits: Limits
    var fs: Fs
    var leases: map<ObjPath, nat>
    var access: map<RefPath, nat>
    var temps: map<nat, Temp>
    var active: set<nat>

    /** A generation is listed as leased only while some hit or reader holds it. */
    predicate Valid()
      reads this`leases
    {
      forall o | o in leases :: leases[o] > 0
    }

    function LocksNow(foreign: set<ObjPath>): Locks
      reads this`leases
    {
      Locks(leases.Keys, foreign)
    }

    method RemoveObjectIfUnleased(o: ObjPath, foreign: set<ObjPath>)
      modifies this`fs
      ensures fs == Removed(old(fs), LocksNow(foreign), o)
    {
      if o in leases {
        return;
      }
      if o in fs.objects && fs.objects[o].lease && o in foreign {
        return;
      }
      fs := fs.(objects := fs.objects - {o});
    }

    method RemoveRecord(p: RefPath, r: Record, foreign: set<ObjPath>)
      modifies this`fs, this`access
      ensures fs == Dropped(old(fs), LocksNow(foreign), p, r)
      ensures access == old(access) - {p}
    {
      fs := Apply(Unbind(p), fs);
      access := access - {p};
      RemoveObjectIfUnleased(ObjOf(r), foreign);
    }

    method RemoveRecordIfCurrent(p: RefPath, expected: Record, foreign: set<ObjPath>) returns (removed: bool)
      modifies this`fs, this`access
      ensures removed <==> RefAt(old(fs), p) == Some(expected)
      ensures fs == IfCurrentDropped(old(fs), LocksNow(foreign), p, expected)
      ensures access == if removed then old(access) - {p} else old(access)
      ensures Sweeps(old(fs), fs, LocksNow(foreign))
    {
      removed := RefAt(fs, p) == Some(expected);
      if removed {
        RemoveRecord(p, expected, foreign);
      }
      IfCurrentSweeps(old(fs), LocksNow(foreign), p, expected);
    }

    method RemoveAll(ps: set<RefPath>, foreign: set<ObjPath>)
      requires forall p | p in ps :: RefAt(fs, p).Some?
      modifies this`fs, this`access
      ensures fs == Swept(old(fs), LocksNow(foreign), ps)
      ensures access == old(access) - ps
    {
      ghost var locks, fs0, access0 := LocksNow(foreign), fs, access;
      var todo := ps;
      ghost var done: set<RefPath> := {};
      while todo != {}
        invariant done + todo == ps && done !! todo
        invariant fs == Swept(fs0, locks, done)
        invariant access == access0 - done
        decreases todo
      {
        var p :| p in todo;
        SweepOneMore(fs0, locks, done, p, RefAt(fs0, p).value);
        RemoveRecord(p, fs.refs[p].record, foreign);
        assert access0 - done - {p} == access0 - (done + {p});
        done := done + {p};
        todo := todo - {p};
      }
      assert done == ps;
    }

    /** flush_scope, flush_catalog and the removal of expired entries. */
    method RemoveMatching(filter: Filter, foreign: set<ObjPath>) returns (removed: nat)
      modifies this`fs, this`access
      ensures fs == Swept(old(fs), LocksNow(foreign), Matching(old(fs), filter))
      ensures access == old(access) - Matching(old(fs), filter)
      ensures removed == |Matching(old(fs), filter)|
      ensures Sweeps(old(fs), fs, LocksNow(foreign))
    {
      var ps := Matching(fs, filter);
      RemoveAll(ps, foreign);
      removed := |ps|;
      SweptSweeps(old(fs), LocksNow(foreign), ps);
    }

    method RemoveInvalidRefs() returns (removed: nat)
      modifies this`fs
      ensures fs == ValidOnly(old(fs))
      ensures removed == |InvalidRefs(old(fs))|
      ensures forall p | p in old(fs).refs :: p in fs.refs <==> Standing(old(fs), p)
    {
      var todo := InvalidRefs(fs);
      ghost var done: set<RefPath> := {};
      removed := 0;
      while todo != {}
        invariant done + todo == InvalidRefs(old(fs)) && done !! todo
        invariant fs == old(fs).(refs := old(fs).refs - done)
        invariant removed == |done|
        decreases todo
      {
        var p :| p in todo;
        fs := Apply(Unbind(p), fs);
        removed := removed + 1;
        assert old(fs).refs - done - {p} == old(fs).refs - (done + {p});
        done := done + {p};
        todo := todo - {p};
      }
      assert done == InvalidRefs(old(fs));
    }

    /** The readable refs of one identity go, whatever else they are. */
    method FlushScope(scope: Utf8, foreign: set<ObjPath>) returns (removed: nat)
      modifies this`fs, this`access
      ensures forall p | p in old(fs).refs ::
                p !in fs.refs <==> old(fs).refs[p].Parsed? && p.identity == OfScope(scope)
      ensures OnlyEvicts(old(fs), fs) && removed == |old(fs).refs.Keys - fs.refs.Keys|
      ensures fs == Swept(old(fs), LocksNow(foreign), Matching(old(fs), InScope(OfScope(scope))))
      ensures Sweeps(old(fs), fs, LocksNow(foreign))
    {
      removed := RemoveMatching(InScope(OfScope(scope)), foreign);
      GoneAreMatching(old(fs), LocksNow(foreign), InScope(OfScope(scope)));
    }

    /** The readable refs of one catalog go, in whatever scope. */
    method FlushCatalog(catalog: Utf8, foreign: set<ObjPath>) returns (removed: nat)
      modifies this`fs, this`access
      ensures forall p | p in old(fs).refs ::
                p !in fs.refs <==> old(fs).refs[p].Parsed? && old(fs).refs[p].record.catalog == catalog
      ensures OnlyEvicts(old(fs), fs) && removed == |old(fs).refs.Keys - fs.refs.Keys|
      ensures Sweeps(old(fs), fs, LocksNow(foreign))
    {
      removed := RemoveMatching(OfCatalog(catalog), foreign);
      GoneAreMatching(old(fs), LocksNow(foreign), OfCatalog(catalog));
    }

    /** Every ref goes, readable or not, and every object that no lease holds and a readable ref named. */
    method FlushAll(foreign: set<ObjPath>) returns (removed: nat)
      modifies this`fs, this`access
      ensures fs.refs == map[] && removed == |old(fs).refs|
      ensures fs.objects == Swept(old(fs), LocksNow(foreign), Matching(old(fs), Everything)).objects
      ensures Sound(old(fs), LocksNow(foreign).All()) ==> Sweeps(old(fs), fs, LocksNow(foreign))
    {
      removed := RemoveMatching(Everything, foreign);
      ghost var swept := fs;
      FlushedRefs(old(fs), fs);
      var more := RemoveInvalidRefs();
      removed := removed + more;
      if Sound(old(fs), LocksNow(foreign).All()) {
        SweepsReaches(old(fs), swept, LocksNow(foreign));
        SoundHasNoInvalid(swept, LocksNow(foreign).All());
      }
    }

    method RemoveOrphanObjects(foreign: set<ObjPath>)
      modifies this`fs
      ensures fs == Reaped(old(fs), LocksNow(foreign))
    {
      var referenced := RefObjects(ParsedRefs(fs));
      var todo := fs.objects.Keys - referenced;
      ghost var done: set<ObjPath> := {};
      ghost var locks := LocksNow(foreign);
      while todo != {}
        invariant done + todo == Orphans(old(fs)).Keys && done !! todo
        invariant fs == old(fs).(objects := old(fs).objects - (done * FreeOrphans(old(fs), locks)))
        decreases todo
      {
        var o :| o in todo;
        RemoveObjectIfUnleased(o, foreign);
        done := done + {o};
        todo := todo - {o};
      }
      assert done * FreeOrphans(old(fs), locks) == FreeOrphans(old(fs), locks);
    }

    // ------------------------------------------------------------- making room

    /** Encoded bytes and number of the given refs. */
    method Usage(refs: map<RefPath, Record>) returns (bytes: nat, entries: nat)
      ensures bytes == Total(RecordBytes(refs)) && entries == |refs|
    {
      bytes, entries := 0, 0;
      var todo := refs;
      while todo != map[]
        invariant bytes + Total(RecordBytes(todo)) == Total(RecordBytes(refs))
        invariant entries + |todo| == |refs|
        decreases |todo|
      {
        var p :| p in todo;
        TotalRemove(RecordBytes(todo), p);
        assert RecordBytes(todo) - {p} == RecordBytes(todo - {p});
        assert (todo - {p}).Keys == todo.Keys - {p};
        bytes := bytes + todo[p].storedBytes;
        entries := entries + 1;
        todo := todo - {p};
      }
      assert RecordBytes(todo) == map[];
    }

    method OrphanUsage() returns (entries: nat, bytes: nat)
      ensures entries == |Orphans(fs)| && bytes == Total(Weights(Orphans(fs)))
    {
      entries, bytes := 0, 0;
      var orphans := Orphans(fs);
      var todo := orphans;
      while todo != map[]
        invariant bytes + Total(Weights(todo)) == Total(Weights(orphans))
        invariant entries + |todo| == |orphans|
        decreases |todo|
      {
        var o :| o in todo;
        NothingGone(todo, o);
        bytes := bytes + ObjectBytes(todo[o]);
        entries := entries + 1;
        todo := todo - {o};
      }
      assert Weights(todo) == map[];
    }

    /** The ref used least recently; of equals, any. */
    method LeastRecent(refs: map<RefPath, Record>) returns (victim: RefPath)
      requires refs != map[]
      ensures victim in refs
      ensures forall q | q in refs :: NoLater(access, refs, victim, q)
      ensures forall q | q in refs ::
                (if victim in access then access[victim] else refs[victim].createdMs)
                <= (if q in access then access[q] else refs[q].createdMs)
    {
      victim :| victim in refs;
      var todo := refs - {victim};
      while todo != map[]
        invariant victim in refs && todo.Keys <= refs.Keys && victim !in todo
        invariant forall q | q in refs && q !in todo :: NoLater(access, refs, victim, q)
        invariant forall q | q in todo :: todo[q] == refs[q]
        decreases |todo|
      {
        var p :| p in todo;
        assert (todo - {p}).Keys == todo.Keys - {p};
        if Recency(access, p, refs[p]) < Recency(access, victim, refs[victim]) {
          victim := p;
        }
        todo := todo - {p};
      }
    }

    /** The two bounds, with the incoming entry counted in. */
    method HasRoom(incoming: nat, replacing: Option<RefPath>, foreign: set<ObjPath>) returns (fits: bool)
      ensures fits <==> Room(fs, LocksNow(foreign), replacing, incoming, limits)
    {
      var referencedBytes, referencedEntries := Usage(OthersThan(ParsedRefs(fs), replacing));
      var orphanEntries, orphanBytes := OrphanUsage();
      var retainedEntries, retainedBytes := 0, 0;
      if Retained(fs, LocksNow(foreign), replacing) {
        retainedEntries, retainedBytes := 1, RefAt(fs, replacing.value).value.storedBytes;
      }
      var newEntries := if incoming > 0 then 1 else 0;
      RoomFormula(fs, LocksNow(foreign), replacing, incoming, limits, referencedBytes, referencedEntries,
                  orphanBytes, orphanEntries, retainedBytes, retainedEntries);
      fits := referencedBytes + orphanBytes + retainedBytes + incoming <= limits.maxBytes
           && referencedEntries + orphanEntries + retainedEntries + newEntries <= limits.maxEntries;
    }

    /**
     * Removes what has expired, then the least recently used refs one by one, until the incoming
     * entry fits or no other ref is left.  `before` is the disk at the last eviction, if any.
     */
    method MakeRoom(incoming: nat, replacing: Option<RefPath>, now: nat, foreign: set<ObjPath>)
      returns (ok: bool, ghost before: Option<Fs>)
      modifies this`fs, this`access
      ensures ok <==> Room(fs, LocksNow(foreign), replacing, incoming, limits)
      ensures !ok ==> OthersThan(ParsedRefs(fs), replacing) == map[]
      ensures before.Some? ==> LastEviction(before.value, fs, LocksNow(foreign), replacing, incoming, limits)
      ensures before.None? ==> fs == Swept(old(fs), LocksNow(foreign), Matching(old(fs), Expired(now)))
      ensures before.Some? ==> !Room(Swept(old(fs), LocksNow(foreign), Matching(old(fs), Expired(now))),
                                     LocksNow(foreign), replacing, incoming, limits)
      ensures Narrowed(old(fs), fs) && KeepsReplaced(old(fs), fs, replacing, Matching(old(fs), Expired(now)))
      ensures LruEvicted(old(fs), old(access), fs, replacing, Matching(old(fs), Expired(now)))
      ensures EvictsOldest(old(fs).refs, old(access), fs.refs, replacing, now)
      ensures Sweeps(old(fs), fs, LocksNow(foreign))
      ensures OrphansHeld(old(fs), LocksNow(foreign)) ==> OrphansHeld(fs, LocksNow(foreign))
    {
      hide EvictsOldest, Room, RefAt;
      ghost var locks := LocksNow(foreign);
      ghost var gone := Matching(fs, Expired(now));
      var _ := RemoveMatching(Expired(now), foreign);
      SweepStart(old(fs), old(access), locks, replacing, gone);
      before := None;
      while true
        invariant Evicting(old(fs), old(access), fs, access, locks, replacing, gone)
        invariant before.Some? ==> LastEviction(before.value, fs, locks, replacing, incoming, limits)
        invariant before.None? ==> fs == Swept(old(fs), locks, gone)
        invariant before.Some? ==> !Room(Swept(old(fs), locks, gone), locks, replacing, incoming, limits)
        decreases |OthersThan(ParsedRefs(fs), replacing)|
      {
        ok := HasRoom(incoming, replacing, foreign);
        if ok {
          EvictedByMarks(old(fs), old(access), fs, replacing, now);
          return;
        }
        var others := OthersThan(ParsedRefs(fs), replacing);
        if others == map[] {
          EvictedByMarks(old(fs), old(access), fs, replacing, now);
          return;
        }
        var victim := LeastRecent(others);
        EvictOne(old(fs), old(access), fs, access, locks, replacing, gone, victim);
        EvictionIsLast(fs, locks, replacing, victim, incoming, limits);
        before := Some(fs);
        RemoveRecord(victim, others[victim], foreign);
      }
    }

    // ------------------------------------------------------------------ leases

    method AcquireLease(o: ObjPath) returns (found: bool)
      requires Valid()
      modifies this`leases
      ensures Valid()
      ensures found <==> o in fs.objects && fs.objects[o].lease
      ensures leases == if found then old(leases)[o := (if o in old(leases) then old(leases)[o] else 0) + 1]
              else old(leases)
    {
      found := o in fs.objects && fs.objects[o].lease;
      if found {
        leases := leases[o := (if o in leases then leases[o] else 0) + 1];
      }
    }

    /** Drop of the last owner of one lease. */
    method ReleaseLease(o: ObjPath)
      requires Valid()
      modifies this`leases
      ensures Valid()
      ensures o in old(leases) ==>
                leases == if old(leases)[o] == 1 then old(leases) - {o} else old(leases)[o := old(leases)[o] - 1]
      ensures o !in old(leases) ==> leases == old(leases)
    {
      if o in leases {
        leases := leases[o := leases[o] - 1];
        if leases[o] == 0 {
          leases := leases - {o};
        }
      }
    }

    /** Reads one partition file of an object and compares it with the manifest. */
    method CheckPart(m: Manifest, dir: ObjectDir, i: nat) returns (schema: Option<Schema>)
      requires i < |m.parts|
      ensures schema.Some? <==> PartOk(m, dir, i)
      ensures schema.Some? ==> schema.value == m.schemaSha.content
    {
      var part := m.parts[i];
      if part.file != PartName(i) || i >= |dir.parts| || dir.parts[i].Missing? {
        return None;
      }
      var file := dir.parts[i];
      if file.bytes != part.bytes || Sha256(file) != part.sha || !file.Arrow? || Sha256(file.schema) != m.schemaSha {
        return None;
      }
      return Some(file.schema);
    }

    /** Every partition in turn: one schema, and the totals of what was read. */
    method CheckParts(m: Manifest, dir: ObjectDir) returns (ok: bool, schema: Option<Schema>, bytes: nat, rows: nat)
      ensures ok <==> forall i: nat | i < |m.parts| :: PartOk(m, dir, i)
      ensures ok ==> bytes == SumSeq(PartLengths(m.parts)) && rows == SumSeq(PartRows(m.parts))
      ensures ok ==> (schema.Some? <==> |m.parts| > 0) && (schema.Some? ==> schema.value == m.schemaSha.content)
    {
      ghost var lengths, counts := PartLengths(m.parts), PartRows(m.parts);
      schema, bytes, rows := None, 0, 0;
      for i := 0 to |m.parts|
        invariant forall k: nat | k < i :: PartOk(m, dir, k)
        invariant schema.Some? <==> i > 0
        invariant schema.Some? ==> schema.value == m.schemaSha.content
        invariant bytes == SumSeq(lengths[..i]) && rows == SumSeq(counts[..i])
      {
        var found := CheckPart(m, dir, i);
        if found.None? || (schema.Some? && schema != found) {
          return false, schema, bytes, rows;
        }
        schema := found;
        SumSeqAppend(lengths[..i], lengths[i]);
        SumSeqAppend(counts[..i], counts[i]);
        assert lengths[..i] + [lengths[i]] == lengths[..i + 1];
        assert counts[..i] + [counts[i]] == counts[..i + 1];
        bytes, rows := bytes + m.parts[i].bytes, rows + m.parts[i].rows;
      }
      assert lengths[..|m.parts|] == lengths && counts[..|m.parts|] == counts;
      ok := true;
    }

    /** Reads manifest and partition files of an object and compares them with its ref. */
    method ValidateHit(r: Record, dir: ObjectDir, expected: Option<Schema>) returns (ok: bool)
      ensures ok <==> ValidHit(r, dir, expected)
    {
      if Sha256(dir.manifest) != r.manifestSha || !dir.manifest.Json? {
        return false;
      }
      var m := dir.manifest.manifest;
      if m.version != FORMAT_VERSION || m.keyDigest != r.keyDigest || m.rows != r.rows
         || m.storedBytes != r.storedBytes || |m.parts| != r.partitions || m.codec != r.codec {
        return false;
      }
      var whole, schema, bytes, rows := CheckParts(m, dir);
      if !whole || bytes != m.storedBytes || rows != m.rows || schema.None? {
        return false;
      }
      ok := expected.None? || expected.value == schema.value;
    }

    /** Takes a lease on the object of a usable record, and keeps it only if the object is whole. */
    method Serve(r: Record, expected: Option<Schema>) returns (ok: bool)
      requires Valid()
      modifies this`leases
      ensures Valid()
      ensures ok <==>
                ObjOf(r) in fs.objects && fs.objects[ObjOf(r)].lease && ValidHit(r, fs.objects[ObjOf(r)], expected)
      ensures ok ==> ObjOf(r) in leases && leases.Keys == old(leases).Keys + {ObjOf(r)}
      ensures !ok ==> leases == old(leases)
    {
      var o := ObjOf(r);
      var found := AcquireLease(o);
      if !found {
        return false;
      }
      ok := ValidateHit(r, fs.objects[o], expected);
      if !ok {
        ReleaseLease(o);
      }
    }

    /** The ref at `p`, read earlier as `seen`, goes if it is still the same on the disk found now. */
    method CleanUp(p: RefPath, seen: RefFile, later: Fs, foreign: set<ObjPath>)
      modifies this`fs, this`access
      ensures fs == CleanedUp(later, LocksNow(foreign), p, seen)
      ensures access == if seen.Parsed? && RefAt(later, p) == Some(seen.record) then old(access) - {p} else old(access)
    {
      fs := later;
      if seen.Parsed? {
        var _ := RemoveRecordIfCurrent(p, seen.record, foreign);
      } else if p in fs.refs && fs.refs[p] == seen {
        fs := Apply(Unbind(p), fs);
      }
    }

    /**
     * `later` is the disk found when the exclusive lock is taken to clean up: any process may have
     * been at work since the ref was read.
     */
    method Lookup(key: CacheKey, expected: Option<Schema>, allowStale: bool, now: nat, later: Fs, foreign: set<ObjPath>)
      returns (hit: Option<Hit>)
      requires Valid()
      modifies this
      ensures Valid()
      ensures hit.Some? <==> Servable(old(fs), PathOf(key), expected, allowStale, now)
      ensures hit.Some? ==>
                && RefAt(old(fs), PathOf(key)) == Some(hit.value.record) && hit.value.target == ObjOf(hit.value.record)
                && fs == old(fs) && hit.value.target in leases
                && leases.Keys == old(leases).Keys + {hit.value.target}
                && access == (if allowStale then old(access) else old(access)[PathOf(key) := now])
                && var r := hit.value.record;
                && r.version == 1 && PathOf(key) == RefPath(r.identityDigest, r.keyDigest)
                && if allowStale then r.revalidatable && (r.etag.Some? || r.lastModified.Some?) else now < r.expiresMs
      ensures hit.None? ==>
                && leases == old(leases)
                && fs == (if QuietMiss(old(fs), PathOf(key), allowStale, now) then old(fs)
                          else CleanedUp(later, LocksNow(foreign), PathOf(key), old(fs).refs[PathOf(key)]))
                && access == (if !QuietMiss(old(fs), PathOf(key), allowStale, now)
                                 && RefAt(old(fs), PathOf(key)).Some?
                                 && RefAt(later, PathOf(key)) == RefAt(old(fs), PathOf(key))
                              then old(access) - {PathOf(key)} else old(access))
    {
      var p := PathOf(key);
      if QuietMiss(fs, p, allowStale, now) {
        return None;
      }
      var seen := fs.refs[p];
      if seen.Parsed? && HeaderOk(p, seen.record) && (now < seen.record.expiresMs || Conditional(seen.record)) {
        var ok := Serve(seen.record, expected);
        if ok {
          if !allowStale {
            access := access[p := now];
          }
          return Some(Hit(seen.record, ObjOf(seen.record)));
        }
      }
      CleanUp(p, seen, later, foreign);
      hit := None;
    }

    /** Removes exactly the generation a hit represents. */
    method RemoveHit(hit: Hit, foreign: set<ObjPath>) returns (removed: bool)
      modifies this`fs, this`access
      ensures var p := RefPath(hit.record.identityDigest, hit.record.keyDigest);
              && (removed <==> RefAt(old(fs), p) == Some(hit.record))
              && fs == IfCurrentDropped(old(fs), LocksNow(foreign), p, hit.record)
              && access == (if removed then old(access) - {p} else old(access))
    {
      removed := RemoveRecordIfCurrent(RefPath(hit.record.identityDigest, hit.record.keyDigest), hit.record, foreign);
    }

    /** Removes one exact key. */
    method Remove(key: CacheKey, foreign: set<ObjPath>) returns (removed: Result<bool>)
      modifies this`fs, this`access
      ensures var p := PathOf(key);
              match RefAt(old(fs), p)
              case Some(r) =>
                removed == Ok(true) && fs == Dropped(old(fs), LocksNow(foreign), p, r) && access == old(access) - {p}
              case None =>
                && fs == old(fs) && access == old(access)
                && (removed == Ok(false) <==> p !in old(fs).refs) && removed != Ok(true)
      ensures Sweeps(old(fs), fs, LocksNow(foreign))
    {
      SweepsSelf(fs, LocksNow(foreign));
      var p := PathOf(key);
      if p !in fs.refs {
        return Ok(false);
      }
      if !fs.refs[p].Parsed? {
        return Err("invalid data");
      }
      RemoveRecord(p, fs.refs[p].record, foreign);
      DroppedSweeps(old(fs), LocksNow(foreign), p, old(fs).refs[p].record);
      return Ok(true);
    }

    /**
     * Slides the freshness of the generation a hit observed; `expiredBefore` and `expiredAfter` are
     * the clock's verdict before the lock is sought and after the ref is written.
     */
    method RevalidateFreshness(hit: Hit, control: CacheControl, d: Deadline, expiredBefore: bool, expiredAfter: bool,
                               now: nat, foreign: set<ObjPath>) returns (done: bool)
      modifies this`fs, this`access
      ensures var p := RefPath(hit.record.identityDigest, hit.record.keyDigest);
              var renewed := Renewed(hit.record, control, d, now);
              var asked := MayRenew(hit.record, control, d, expiredBefore) && RefAt(old(fs), p) == Some(hit.record);
              && (done <==> asked && (d.immediate || !expiredAfter))
              && SameSeal(hit.record, renewed)
              && fs == (if MayRenew(hit.record, control, d, expiredBefore)
                        then Revalidated(old(fs), LocksNow(foreign), p, hit.record, renewed, done) else old(fs))
              && access == (if done then old(access)[p := now] else if asked then old(access) - {p} else old(access))
      ensures var p := RefPath(hit.record.identityDigest, hit.record.keyDigest);
              var validator := control.revalidatable && (control.etag.Some? || control.lastModified.Some?);
              var renewable := && !control.noStore && control.scope == "catalog"
                               && hit.record.revalidatable
                               && (hit.record.etag.Some? || hit.record.lastModified.Some?)
                               && (d.immediate ==> validator) && (expiredBefore ==> d.immediate)
                               && RefAt(old(fs), p) == Some(hit.record);
              && (done <==> renewable && (expiredAfter ==> d.immediate))
              && (!renewable ==> fs == old(fs))
              && (renewable && !done ==> p !in fs.refs && fs.refs == old(fs).refs - {p})
              && (done ==> fs == old(fs).(refs := old(fs).refs[p := Parsed(
                             hit.record.(createdMs := now, expiresMs := d.expiresMs, etag := control.etag,
                                         lastModified := control.lastModified, revalidatable := validator,
                                         staleIfError := if validator && control.staleIfError.Some?
                                                            && control.staleIfError.value > 0
                                         then Some(control.staleIfError.value) else None))]))
    {
      var p := RefPath(hit.record.identityDigest, hit.record.keyDigest);
      if !MayRenew(hit.record, control, d, expiredBefore) {
        return false;
      }
      var renewed := Renewed(hit.record, control, d, now);
      if RefAt(fs, p) != Some(hit.record) {
        return false;
      }
      fs := Apply(Bind(p, Parsed(renewed)), fs);
      if !d.immediate && expiredAfter {
        var _ := RemoveRecordIfCurrent(p, renewed, foreign);
        return false;
      }
      access := access[p := now];
      return true;
    }

    // ----------------------------------------------------------------- commit

    method BeginCapture(generation: nat, schema: Schema, partitions: nat, codec: Codec, now: nat)
      returns (capture: Option<DiskCapture>)
      modifies this`temps, this`active
      ensures capture.None? <==> partitions == 0
      ensures capture.None? ==> temps == old(temps) && active == old(active)
      ensures capture.Some? ==>
                && fresh(capture.value) && capture.value.Valid() && capture.value.generation == generation
                && capture.value.root == root && capture.value.content == EmptyContent(schema, partitions)
                && capture.value.codec == codec && capture.value.maxBytes == limits.maxBytes
                && temps == old(temps)[generation := Temp(true, now)] && active == old(active) + {generation}
    {
      if partitions == 0 {
        return None;
      }
      temps := temps[generation := Temp(true, now)];
      var c := new DiskCapture(root, generation, schema, partitions, codec, limits.maxBytes);
      active := active + {generation};
      return Some(c);
    }

    /** Undoes a publication that did not complete. */
    method RollBack(j: Job, prior: Option<RefFile>, foreign: set<ObjPath>)
      modifies this`fs
      ensures fs == RolledBack(old(fs), LocksNow(foreign), j, prior)
    {
      var p := PathOf(j.key);
      if RefAt(fs, p) == Some(j.record) {
        if prior.Some? {
          fs := Apply(Bind(p, prior.value), fs);
        } else {
          fs := Apply(Unbind(p), fs);
        }
      }
      RemoveObjectIfUnleased(ObjOf(j.record), foreign);
    }

    /** From the rename of the capture directory to the answer. */
    method Publish(j: Job, now: nat, late: bool, fault: Option<Fault>, foreign: set<ObjPath>) returns (outcome: Outcome)
      requires JobOk(j) && FreshName(fs, LocksNow(foreign), j.record.generation)
      modifies this`fs, this`access, this`temps, this`active
      ensures outcome.Stored? <==> fault.None? && !late
      ensures outcome == Skipped(NoFreshness) <==> fault.None? && late
      ensures outcome.Stored? || outcome == Skipped(NoFreshness) || outcome == Failed
      ensures outcome.Stored? ==>
                && outcome == Stored(j.record.storedBytes, j.record.rows, j.record.partitions)
                && fs == Kept(old(fs), LocksNow(foreign), j) && access == old(access)[PathOf(j.key) := now]
      ensures !outcome.Stored? ==> fs == old(fs) && access == old(access)
      ensures temps == old(temps) - {j.record.generation} && active == old(active) - {j.record.generation}
    {
      var p := PathOf(j.key);
      var prior := FileAt(fs, p);
      var former := OldObject(fs, j);
      RollbackRestores(fs, LocksNow(foreign), j);
      fs := Installed(fs, j);
      temps, active := temps - {j.record.generation}, active - {j.record.generation};
      if fault.Some? && fault.value.AfterObjectRename? {
        RollBack(j, prior, foreign);
        return Failed;
      }
      fs := Apply(Bind(p, Parsed(j.record)), fs);
      if fault.Some? && fault.value.AfterRefPublish? {
        RollBack(j, prior, foreign);
        return Failed;
      }
      if late {
        RollBack(j, prior, foreign);
        return Skipped(NoFreshness);
      }
      access := access[p := now];
      if former.Some? && former.value != ObjOf(j.record) {
        RemoveObjectIfUnleased(former.value, foreign);
      }
      return Stored(j.record.storedBytes, j.record.rows, j.record.partitions);
    }

    /** Unreadable refs and unheld orphans go, then others are evicted until the entry fits. */
    method Admit(bytes: nat, p: RefPath, now: nat, foreign: set<ObjPath>) returns (ok: bool)
      modifies this`fs, this`access
      ensures MadeRoom(old(fs), fs, LocksNow(foreign), p, bytes, limits, ok)
      ensures EvictsOldest(ValidOnly(old(fs)).refs, old(access), fs.refs, Some(p), now)
    {
      hide *;
      var _ := RemoveInvalidRefs();
      RemoveOrphanObjects(foreign);
      ghost var last;
      ok, last := MakeRoom(bytes, Some(p), now, foreign);
      AdmitGuarantee(old(fs), fs, LocksNow(foreign), p, bytes, limits, ok);
    }

    /** The rest of an admitted commit; `fs0` is the disk its critical section began with. */
    method PublishAdmitted(job: Job, d: Deadline, control: Option<CacheControl>, fault: Option<Fault>,
                           foreign: set<ObjPath>, ghost fs0: Fs) returns (outcome: Outcome)
      requires JobOk(job) && job.record.storedBytes > 0 && FreshName(fs0, LocksNow(foreign), job.record.generation)
      requires MadeRoom(fs0, fs, LocksNow(foreign), PathOf(job.key), job.record.storedBytes, limits, true)
      modifies this`fs, this`access, this`temps, this`active
      ensures temps == old(temps) - {job.record.generation} && active == old(active) - {job.record.generation}
      ensures outcome == Failed <==> fault.Some?
      ensures outcome == Skipped(NoFreshness) <==> fault.None? && TooLate(d.published, d, control)
      ensures outcome.Stored? <==> fault.None? && !TooLate(d.published, d, control)
      ensures outcome.Stored? ==>
                && outcome == Stored(job.record.storedBytes, job.record.rows, job.record.partitions)
                && fs == Kept(old(fs), LocksNow(foreign), job)
                && access == old(access)[PathOf(job.key) := job.record.createdMs]
      ensures !outcome.Stored? ==> fs == old(fs) && access == old(access)
      ensures Pruned(fs0, old(fs))
      ensures CommitGuarantee(fs0, old(fs), fs, LocksNow(foreign), Some(job), job.record.storedBytes, outcome, limits)
    {
      AdmittedFresh(fs0, fs, LocksNow(foreign), job, limits);
      outcome := Publish(job, job.record.createdMs, TooLate(d.published, d, control), fault, foreign);
      PublishedGuarantee(fs0, old(fs), fs, LocksNow(foreign), job, outcome, limits);
    }

    /** The critical section of a commit: make room, check the clock again, publish. */
    method CommitJob(job: Job, d: Deadline, control: Option<CacheControl>, now: nat, fault: Option<Fault>,
                     foreign: set<ObjPath>)
      returns (outcome: Outcome, ghost admitted: Fs)
      requires JobOk(job) && job.record.storedBytes > 0 && FreshName(fs, LocksNow(foreign), job.record.generation)
      modifies this`fs, this`access, this`temps, this`active
      ensures temps == old(temps) - {job.record.generation} && active == old(active) - {job.record.generation}
      ensures var fits := Room(admitted, LocksNow(foreign), Some(PathOf(job.key)), job.record.storedBytes, limits);
              && (outcome == Skipped(Capacity) <==> !fits)
              && (outcome == Failed <==> fits && !TooLate(d.admitted, d, control) && fault.Some?)
              && (outcome == Skipped(NoFreshness) <==>
                    fits && (TooLate(d.admitted, d, control) || (fault.None? && TooLate(d.published, d, control))))
              && (outcome.Stored? <==>
                    fits && !TooLate(d.admitted, d, control) && fault.None? && !TooLate(d.published, d, control))
      ensures outcome.Stored? ==>
                && outcome == Stored(job.record.storedBytes, job.record.rows, job.record.partitions)
                && fs == Kept(admitted, LocksNow(foreign), job)
                && PathOf(job.key) in access && access[PathOf(job.key)] == job.record.createdMs
      ensures !outcome.Stored? ==> fs == admitted
      ensures Pruned(old(fs), admitted)
              && EvictsOldest(ValidOnly(old(fs)).refs, old(access), admitted.refs, Some(PathOf(job.key)), now)
      ensures CommitGuarantee(old(fs), admitted, fs, LocksNow(foreign), Some(job), job.record.storedBytes, outcome,
                              limits)
    {
      hide *;
      var ok := Admit(job.record.storedBytes, PathOf(job.key), now, foreign);
      admitted := fs;
      RoomDecides(old(fs), fs, LocksNow(foreign), PathOf(job.key), job.record.storedBytes, limits, ok);
      if ok && !TooLate(d.admitted, d, control) {
        outcome := PublishAdmitted(job, d, control, fault, foreign, old(fs));
      } else {
        temps, active := temps - {job.record.generation}, active - {job.record.generation};
        outcome := Skipped(if ok then NoFreshness else Capacity);
        RefusedGuarantee(old(fs), fs, LocksNow(foreign), job, limits, ok);
      }
    }

    /** What remains once nothing speaks against storing: seal the capture, and publish it. */
    method CommitSealed(key: CacheKey, generation: nat, content: Content, codec: Codec, lens: seq<nat>, d: Deadline,
                        control: CacheControl, createdMs: nat, now: nat, fault: Option<Fault>, foreign: set<ObjPath>)
      returns (outcome: Outcome, ghost admitted: Fs)
      requires |lens| == |content.parts| > 0 && forall i | 0 <= i < |lens| :: lens[i] > 0
      requires FreshName(fs, LocksNow(foreign), generation)
      modifies this`fs, this`access, this`temps, this`active
      ensures temps == old(temps) - {generation} && active == old(active) - {generation}
      ensures var fits := Room(admitted, LocksNow(foreign), Some(PathOf(key)), SumSeq(lens), limits);
              && (outcome == Skipped(Capacity) <==> !fits)
              && (outcome == Failed <==> fits && !TooLate(d.admitted, d, Some(control)) && fault.Some?)
              && (outcome == Skipped(NoFreshness) <==>
                    fits && (TooLate(d.admitted, d, Some(control))
                             || (fault.None? && TooLate(d.published, d, Some(control)))))
              && (outcome.Stored? <==>
                    && fits && !TooLate(d.admitted, d, Some(control)) && fault.None?
                    && !TooLate(d.published, d, Some(control)))
      ensures var j := JobOf(key, generation, content, codec, lens, createdMs, d, control);
              && JobOk(j)
              && (outcome.Stored? ==>
                    && outcome == Stored(SumSeq(lens), SumSeq(RowCounts(content.parts)), |lens|)
                    && fs == Kept(admitted, LocksNow(foreign), j)
                    && FoundAsStored(fs, key, content, d.expiresMs, control)
                    && RefAt(fs, PathOf(key)) == Some(j.record)
                    && j.record.createdMs == createdMs && j.record.expiresMs == d.expiresMs
                    && PathOf(key) in access && access[PathOf(key)] == createdMs)
              && CommitGuarantee(old(fs), admitted, fs, LocksNow(foreign), Some(j), SumSeq(lens), outcome, limits)
      ensures !outcome.Stored? ==> fs == admitted
      ensures Pruned(old(fs), admitted)
              && EvictsOldest(ValidOnly(old(fs)).refs, old(access), admitted.refs, Some(PathOf(key)), now)
    {
      hide *;
      var j := JobOf(key, generation, content, codec, lens, createdMs, d, control);
      JobOfOk(key, generation, content, codec, lens, createdMs, d, control);
      JobRecord(key, generation, content, codec, lens, createdMs, d, control);
      outcome, admitted := CommitJob(j, d, Some(control), now, fault, foreign);
      StoredIsFound(admitted, LocksNow(foreign), key, generation, content, codec, lens, createdMs, d, control);
      KeptIsThere(admitted, LocksNow(foreign), j);
    }

    /**
     * Publishes a complete capture if policy and bounds allow.  `lens` are the encoded file lengths,
     * `admitted` is the disk when room had been made; a commit that is not stored leaves exactly that.
     */
    method Commit(key: CacheKey, capture: DiskCapture, lens: seq<nat>, d: Deadline, control: Option<CacheControl>,
                  createdMs: nat, now: nat, fault: Option<Fault>, foreign: set<ObjPath>)
      returns (outcome: Outcome, ghost admitted: Fs, ghost job: Option<Job>)
      requires capture.Valid() && |lens| == |capture.content.parts| && forall i | 0 <= i < |lens| :: lens[i] > 0
      requires capture.root == root ==> FreshName(fs, LocksNow(foreign), capture.generation)
      modifies this`fs, this`access, this`temps, this`active
      ensures capture.root != root ==>
                outcome == WrongRoot && fs == old(fs) && access == old(access) && temps == old(temps)
                  && active == old(active)
      ensures capture.root == root ==>
                temps == old(temps) - {capture.generation} && active == old(active) - {capture.generation}
      ensures capture.root == root ==>
                var stated := !capture.limitExceeded && control.Some? && !control.value.noStore;
                var backed := d.immediate && control.Some? && control.value.revalidatable
                              && (control.value.etag.Some? || control.value.lastModified.Some?);
                var timely := stated && control.value.scope == "catalog" && (d.start ==> backed);
                var small := timely && limits.maxEntries > 0 && limits.maxBytes > 0 && SumSeq(lens) <= limits.maxBytes;
                var admissible := small && (d.locked ==> backed);
                var fits := Room(admitted, LocksNow(foreign), Some(PathOf(key)), SumSeq(lens), limits);
                && (outcome == Skipped(NotCacheable) <==>
                      !capture.limitExceeded && (control.None? || control.value.noStore))
                && (outcome == Skipped(TransactionScoped) <==> stated && control.value.scope == "transaction")
                && (outcome == Skipped(UnsupportedScope) <==>
                      stated && control.value.scope != "catalog" && control.value.scope != "transaction")
                && (outcome == Skipped(Disabled) <==> timely && (limits.maxEntries == 0 || limits.maxBytes == 0))
                && (outcome == Skipped(EntryTooLarge) <==>
                      || capture.limitExceeded
                      || (timely && limits.maxEntries > 0 && limits.maxBytes > 0 && SumSeq(lens) > limits.maxBytes))
                && (outcome == Skipped(Capacity) <==> admissible && !fits)
                && (outcome == Failed <==> admissible && fits && (d.admitted ==> backed) && fault.Some?)
                && (outcome == Skipped(NoFreshness) <==>
                      || (stated && control.value.scope == "catalog" && d.start && !backed)
                      || (small && d.locked && !backed)
                      || (admissible && fits && !backed && (d.admitted || (fault.None? && d.published))))
                && (outcome.Stored? <==>
                      admissible && fits && (d.admitted ==> backed) && fault.None? && (d.published ==> backed))
                && (!admissible ==> fs == old(fs) && access == old(access))
      ensures outcome.Stored? ==>
                && control.Some? && !control.value.noStore && control.value.scope == "catalog"
                && !capture.limitExceeded && SumSeq(lens) <= limits.maxBytes && limits.maxEntries > 0
                && (d.start || d.locked || d.admitted || d.published ==>
                      && d.immediate && control.value.revalidatable
                      && (control.value.etag.Some? || control.value.lastModified.Some?))
      ensures job == if control.Some? then
                       Some(JobOf(key, capture.generation, capture.content, capture.codec, lens, createdMs, d,
                                  control.value))
                     else None
      ensures outcome.Stored? ==>
                && job.Some? && JobOk(job.value)
                && outcome == Stored(SumSeq(lens), SumSeq(RowCounts(capture.content.parts)), |lens|)
                && fs == Kept(admitted, LocksNow(foreign), job.value)
                && FoundAsStored(fs, key, capture.content, d.expiresMs, control.value)
                && RefAt(fs, PathOf(key)) == Some(job.value.record)
                && PathOf(key) in access && access[PathOf(key)] == createdMs
                && job.value.record.createdMs == createdMs && job.value.record.expiresMs == d.expiresMs
      ensures !outcome.Stored? ==> fs == admitted
      ensures Pruned(old(fs), admitted)
              && EvictsOldest(ValidOnly(old(fs)).refs, old(access), admitted.refs, Some(PathOf(key)), now)
      ensures CommitGuarantee(old(fs), admitted, fs, LocksNow(foreign), job, SumSeq(lens), outcome, limits)
    {
      hide *;
      capture.HasPartitions();
      admitted := fs;
      NoneEvicted(fs, access, Some(PathOf(key)), now);
      TooLateIff(d.admitted, d, control);
      TooLateIff(d.published, d, control);
      job := if control.Some? then
               Some(JobOf(key, capture.generation, capture.content, capture.codec, lens, createdMs, d, control.value))
             else None;
      if capture.root != root {
        EarlyGuarantee(fs, LocksNow(foreign), job, SumSeq(lens), limits, Disabled);
        return WrongRoot, admitted, job;
      }
      var early := EarlySkip(capture.limitExceeded, control, d, SumSeq(lens), limits);
      EarlySkips(capture.limitExceeded, control, d, SumSeq(lens), limits);
      if early.Some? {
        EarlyGuarantee(fs, LocksNow(foreign), job, SumSeq(lens), limits, early.value);
        temps, active := temps - {capture.generation}, active - {capture.generation};
        return Skipped(early.value), admitted, job;
      }
      outcome, admitted := CommitSealed(key, capture.generation, capture.content, capture.codec, lens, d, control.value,
                                        createdMs, now, fault, foreign);
    }

    /** Directories of captures that neither this instance nor a lease of another process holds go, once old enough. */
    method RemoveOldTemps(heldElsewhere: set<nat>, now: nat)
      modifies this`temps
      ensures forall g | g in old(temps) :: g in temps <==> TempStays(old(temps), active, heldElsewhere, now, g)
      ensures forall g | g in old(temps) ::
                g !in temps <==> && g !in active && !(old(temps)[g].lease && g in heldElsewhere)
                                 && now >= old(temps)[g].modifiedMs + 60 * 60 * 1000
      ensures forall g | g in temps :: g in old(temps) && temps[g] == old(temps)[g]
      ensures temps.Keys <= old(temps).Keys
              && old(temps).Keys - temps.Keys !! HeldTemps(old(temps), active, heldElsewhere)
    {
      ghost var temps0 := temps;
      var todo := temps.Keys;
      while todo != {}
        invariant todo <= temps.Keys
        invariant forall g | g in temps0 && g !in todo ::
                    g in temps <==> TempStays(temps0, active, heldElsewhere, now, g)
        invariant forall g | g in temps :: g in temps0 && temps[g] == temps0[g]
        decreases todo
      {
        var g :| g in todo;
        todo := todo - {g};
        if g !in active && !(temps[g].lease && g in heldElsewhere) && now - temps[g].modifiedMs >= TEMP_GRACE_MS {
          temps := temps - {g};
        }
      }
    }

    /** Invalid refs go, then the expired, then old captures and unheld orphans. */
    method SweepAll(now: nat, heldElsewhere: set<nat>, foreign: set<ObjPath>)
      modifies this`fs, this`access, this`temps
      ensures fs == SweptAll(old(fs), LocksNow(foreign), now)
      ensures forall g | g in old(temps) :: g in temps <==> TempStays(old(temps), active, heldElsewhere, now, g)
      ensures temps.Keys <= old(temps).Keys
              && old(temps).Keys - temps.Keys !! HeldTemps(old(temps), active, heldElsewhere)
    {
      var _ := RemoveInvalidRefs();
      var _ := RemoveMatching(Expired(now), foreign);
      RemoveOldTemps(heldElsewhere, now);
      RemoveOrphanObjects(foreign);
    }

    /** reap, and the reconciliation of a newly opened cache. */
    method Reap(now: nat, heldElsewhere: set<nat>, foreign: set<ObjPath>)
      modifies this`fs, this`access, this`temps
      ensures Pruned(old(fs), fs) && OrphansHeld(fs, LocksNow(foreign))
      ensures forall g | g in old(temps) :: g in temps <==> TempStays(old(temps), active, heldElsewhere, now, g)
      ensures temps.Keys <= old(temps).Keys
              && old(temps).Keys - temps.Keys !! HeldTemps(old(temps), active, heldElsewhere)
      ensures Matching(fs, Expired(now)) == {}
      ensures forall p | p in fs.refs ::
                && Standing(old(fs), p) && fs.refs[p] == old(fs).refs[p]
                && (fs.refs[p].record.expiresMs > now || fs.refs[p].record.revalidatable)
      ensures Room(fs, LocksNow(foreign), None, 0, limits) || ParsedRefs(fs) == map[]
      ensures Room(SweptAll(old(fs), LocksNow(foreign), now), LocksNow(foreign), None, 0, limits) ==>
                forall p | p in old(fs).refs ::
                  p in fs.refs <==>
                    Standing(old(fs), p)
                    && (old(fs).refs[p].record.expiresMs > now || old(fs).refs[p].record.revalidatable)
      ensures Sound(old(fs), LocksNow(foreign).All()) ==>
                Sweeps(old(fs), fs, LocksNow(foreign)) && (InBounds(fs.objects, limits) || fs.refs == map[])
    {
      hide *;
      SweepAll(now, heldElsewhere, foreign);
      SweptAllHeld(old(fs), LocksNow(foreign), now);
      var ok, last := MakeRoom(0, None, now, foreign);
      ReapGuarantee(old(fs), LocksNow(foreign), now, fs, limits, ok);
      ReapedStand(old(fs), LocksNow(foreign), now, fs);
      SweptOnce(old(fs), LocksNow(foreign), now);
    }
  }
}
