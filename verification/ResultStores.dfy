/**
 * The in-memory result cache as a state machine: which entries a cap leaves, and what a hit
 * returns after any run of operations.  Times are nanoseconds of one monotonic clock.
 */
module ResultStores {
  import opened Wrappers
  import opened Sums
  import opened CacheKeys
  import opened CacheControls

  datatype Batch = Batch(rows: nat, memory: nat, payload: seq<int>)

  datatype Entry = Entry(
    batches: seq<Batch>,
    substreams: nat,
    rows: nat,
    bytes: nat,
    storedAt: nat,
    ttl: Option<nat>,
    etag: Option<string>,
    lastModified: Option<string>,
    revalidatable: bool,
    staleWhileRevalidate: nat,
    staleIfError: nat,
    hits: nat)

  datatype Slot = Slot(entry: Entry, lastUsed: nat)

  datatype Limits = Limits(maxEntryBytes: nat, maxTotalBytes: nat, maxEntries: nat)

  datatype Store = Store(slots: map<CacheKey, Slot>, tick: nat, limits: Limits)

  function RowsOf(batches: seq<Batch>): nat {
    if batches == [] then 0 else RowsOf(batches[..|batches| - 1]) + batches[|batches| - 1].rows
  }

  function MemoryOf(batches: seq<Batch>): nat {
    if batches == [] then 0 else MemoryOf(batches[..|batches| - 1]) + batches[|batches| - 1].memory
  }

  /** An entry without a lifetime never goes stale. */
  predicate Stale(e: Entry, now: nat) {
    e.ttl.Some? && (if now < e.storedAt then 0 else now - e.storedAt) >= e.ttl.value
  }

  function Bytes(slots: map<CacheKey, Slot>): map<CacheKey, nat> {
    map k | k in slots :: slots[k].entry.bytes
  }

  // ------------------------------------------------------------------- caps

  ghost predicate Fits(slots: map<CacheKey, Slot>, limits: Limits) {
    |slots| <= limits.maxEntries && Total(Bytes(slots)) <= limits.maxTotalBytes
  }

  predicate Oversized(slots: map<CacheKey, Slot>, limits: Limits) {
    exists k | k in slots :: slots[k].entry.bytes > limits.maxEntryBytes
  }

  ghost predicate Capped(slots: map<CacheKey, Slot>, limits: Limits) {
    Fits(slots, limits) && !Oversized(slots, limits)
  }

  /** The entries no larger than one entry may be. */
  function Small(slots: map<CacheKey, Slot>, limits: Limits): map<CacheKey, Slot> {
    map k | k in slots && slots[k].entry.bytes <= limits.maxEntryBytes :: slots[k]
  }

  function Restrict(slots: map<CacheKey, Slot>, ks: set<CacheKey>): map<CacheKey, Slot> {
    map k | k in slots && k in ks :: slots[k]
  }

  /** Keys such that everything used more recently than one of them is among them. */
  ghost predicate RecentSuffix(slots: map<CacheKey, Slot>, ks: set<CacheKey>) {
    && ks <= slots.Keys
    && forall p, q | p in ks && q in slots && q !in ks :: slots[q].lastUsed < slots[p].lastUsed
  }

  /** `kept` is the longest most-recently-used suffix of the entries not oversized that meets the caps. */
  ghost predicate Trimmed(slots: map<CacheKey, Slot>, limits: Limits, kept: map<CacheKey, Slot>) {
    var small := Small(slots, limits);
    && kept == Restrict(small, kept.Keys)
    && RecentSuffix(small, kept.Keys)
    && Fits(kept, limits)
    && forall ks | RecentSuffix(small, ks) && Fits(Restrict(small, ks), limits) :: ks <= kept.Keys
  }

  /** The caps leave one answer only, so no order of iteration over the map can matter. */
  lemma TrimmedUnique(slots: map<CacheKey, Slot>, limits: Limits, a: map<CacheKey, Slot>, b: map<CacheKey, Slot>)
    requires Trimmed(slots, limits, a) && Trimmed(slots, limits, b)
    ensures a == b
  {
    assert a.Keys == b.Keys;
  }

  lemma TrimmedCapped(slots: map<CacheKey, Slot>, limits: Limits, kept: map<CacheKey, Slot>)
    requires Trimmed(slots, limits, kept)
    ensures Capped(kept, limits) && forall k | k in kept :: k in slots && kept[k] == slots[k]
  {
  }

  lemma WholeSuffix(slots: map<CacheKey, Slot>)
    ensures RecentSuffix(slots, slots.Keys) && Restrict(slots, slots.Keys) == slots
  {
  }

  lemma SmallOfCapped(slots: map<CacheKey, Slot>, limits: Limits)
    requires !Oversized(slots, limits)
    ensures Small(slots, limits) == slots
  {
  }

  /** Entries that already meet the caps all stay. */
  lemma CappedStays(slots: map<CacheKey, Slot>, limits: Limits)
    requires Capped(slots, limits)
    ensures Trimmed(slots, limits, slots)
  {
    SmallOfCapped(slots, limits);
    WholeSuffix(slots);
  }

  ghost predicate Distinct(slots: map<CacheKey, Slot>) {
    forall j, k | j in slots && k in slots && j != k :: slots[j].lastUsed != slots[k].lastUsed
  }

  /** Ticks tell any two entries apart, and none is ahead of the clock. */
  ghost predicate Ticked(slots: map<CacheKey, Slot>, tick: nat) {
    Distinct(slots) && forall k | k in slots :: slots[k].lastUsed <= tick
  }

  /** Nothing capped that is a suffix reaches beyond what the eviction has left. */
  ghost predicate StillCovers(small: map<CacheKey, Slot>, left: set<CacheKey>, limits: Limits) {
    && RecentSuffix(small, left)
    && forall ks | RecentSuffix(small, ks) && Fits(Restrict(small, ks), limits) :: ks <= left
  }

  lemma LeastBringsAll(small: map<CacheKey, Slot>, left: set<CacheKey>, ks: set<CacheKey>, least: CacheKey)
    requires RecentSuffix(small, ks) && least in ks && ks <= left <= small.Keys
    requires forall k | k in left :: small[least].lastUsed <= small[k].lastUsed
    ensures ks == left
  {
  }

  /** Evicting the least recently used entry of an overfull map keeps the longest suffix in reach. */
  lemma EvictLeast(small: map<CacheKey, Slot>, left: set<CacheKey>, victim: CacheKey, limits: Limits)
    requires Distinct(small) && StillCovers(small, left, limits) && !Fits(Restrict(small, left), limits)
    requires victim in left && forall k | k in left :: small[victim].lastUsed <= small[k].lastUsed
    ensures StillCovers(small, left - {victim}, limits)
  {
    forall ks | RecentSuffix(small, ks) && Fits(Restrict(small, ks), limits)
      ensures ks <= left - {victim}
    {
      if victim in ks {
        LeastBringsAll(small, left, ks, victim);
      }
    }
  }

  // -------------------------------------------------------------- operations

  datatype Op =
    | Get(key: CacheKey, now: nat)
    | Insert(key: CacheKey, batches: seq<Batch>, substreams: nat, ttl: nat, control: Option<CacheControl>, now: nat)
    | Slide(key: CacheKey, ttl: nat, control: Option<CacheControl>, now: nat)
    | Remove(key: CacheKey)
    | FlushScope(scope: Utf8)
    | FlushCatalog(catalog: Utf8)
    | FlushAll
    | Reap(now: nat)
    | SetLimits(limits: Limits)

  const SECOND: nat := 1_000_000_000

  function NewEntry(batches: seq<Batch>, substreams: nat, ttl: nat, control: Option<CacheControl>, now: nat): Entry {
    Entry(batches, if substreams == 0 then 1 else substreams, RowsOf(batches), MemoryOf(batches), now, Some(ttl),
          if control.Some? then control.value.etag else None,
          if control.Some? then control.value.lastModified else None,
          control.Some? && control.value.revalidatable,
          if control.Some? then SECOND * GraceSeconds(control.value.staleWhileRevalidate) else 0,
          if control.Some? then SECOND * GraceSeconds(control.value.staleIfError) else 0,
          0)
  }

  function Slid(e: Entry, ttl: nat, control: Option<CacheControl>, now: nat): Entry {
    var moved := e.(storedAt := now, ttl := Some(ttl));
    if control.None? then moved
    else moved.(etag := control.value.etag, lastModified := control.value.lastModified,
                revalidatable := ValidRevalidation(control.value),
                staleWhileRevalidate := SECOND * GraceSeconds(control.value.staleWhileRevalidate),
                staleIfError := SECOND * GraceSeconds(control.value.staleIfError))
  }

  predicate Doomed(op: Op, k: CacheKey, e: Entry) {
    match op
    case Remove(key) => k == key
    case FlushScope(scope) => k.identityScope == scope
    case FlushCatalog(catalog) => k.catalog == catalog
    case FlushAll => true
    case Reap(now) => Stale(e, now) && !e.revalidatable
    case _ => false
  }

  function Without(slots: map<CacheKey, Slot>, op: Op): map<CacheKey, Slot> {
    map k | k in slots && !Doomed(op, k, slots[k].entry) :: slots[k]
  }

  /** What a lookup answers. */
  function Answer(s: Store, key: CacheKey, now: nat): Option<Entry> {
    if key in s.slots && !Stale(s.slots[key].entry, now)
      then Some(s.slots[key].entry.(hits := s.slots[key].entry.hits + 1))
    else None
  }

  function AfterGet(s: Store, key: CacheKey, now: nat): Store {
    var s1 := s.(tick := s.tick + 1);
    if key !in s.slots then s1
    else if !Stale(s.slots[key].entry, now) then
      s1.(slots := s.slots[key := Slot(Answer(s, key, now).value, s.tick + 1)])
    else if s.slots[key].entry.revalidatable then s1
    else s1.(slots := s.slots - {key})
  }

  predicate Accepted(s: Store, op: Op) {
    op.Insert? && MemoryOf(op.batches) <= s.limits.maxEntryBytes
  }

  function Inserted(s: Store, op: Op): map<CacheKey, Slot>
    requires op.Insert?
  {
    s.slots[op.key := Slot(NewEntry(op.batches, op.substreams, op.ttl, op.control, op.now), s.tick + 1)]
  }

  ghost predicate Next(s: Store, op: Op, s': Store) {
    match op
    case Get(key, now) => s' == AfterGet(s, key, now)
    case Insert(_, _, _, _, _, _) =>
      if Accepted(s, op) then
        s' == s.(slots := s'.slots, tick := s.tick + 1) && Trimmed(Inserted(s, op), s.limits, s'.slots)
      else s' == s
    case Slide(key, ttl, control, now) =>
      s' == s.(tick := s.tick + 1,
               slots := if key in s.slots
                        then s.slots[key := Slot(Slid(s.slots[key].entry, ttl, control, now), s.tick + 1)]
                        else s.slots)
    case SetLimits(limits) => s' == s.(slots := s'.slots, limits := limits) && Trimmed(s.slots, limits, s'.slots)
    case _ => s' == s.(slots := Without(s.slots, op))
  }

  // --------------------------------------------------------------- invariant

  /** Caps hold, ticks are distinct, and an entry's size is that of its batches. */
  ghost predicate Inv(s: Store) {
    && Capped(s.slots, s.limits) && Ticked(s.slots, s.tick)
    && Sized(s.slots)
  }

  lemma BytesSize(slots: map<CacheKey, Slot>)
    ensures |Bytes(slots)| == |slots|
  {
    assert Bytes(slots).Keys == slots.Keys;
  }

  lemma FewerCapped(slots: map<CacheKey, Slot>, fewer: map<CacheKey, Slot>, limits: Limits)
    requires Capped(slots, limits) && forall k | k in fewer :: k in slots && fewer[k] == slots[k]
    ensures Capped(fewer, limits)
  {
    BytesSize(fewer);
    BytesSize(slots);
    TotalSubmap(Bytes(fewer), Bytes(slots));
  }

  lemma SameSizeCapped(slots: map<CacheKey, Slot>, k: CacheKey, slot: Slot, limits: Limits)
    requires Capped(slots, limits) && k in slots && slot.entry.bytes == slots[k].entry.bytes
    ensures Capped(slots[k := slot], limits)
  {
    assert Bytes(slots[k := slot]) == Bytes(slots);
    assert slots[k := slot].Keys == slots.Keys;
  }

  lemma GetKeeps(s: Store, key: CacheKey, now: nat)
    requires Inv(s)
    ensures Inv(AfterGet(s, key, now))
  {
    var s' := AfterGet(s, key, now);
    if key in s.slots && !Stale(s.slots[key].entry, now) {
      SameSizeCapped(s.slots, key, s'.slots[key], s.limits);
    } else {
      FewerCapped(s.slots, s'.slots, s.limits);
    }
  }

  lemma SlideKeeps(s: Store, op: Op, s': Store)
    requires Inv(s) && op.Slide? && Next(s, op, s')
    ensures Inv(s')
  {
    if op.key in s.slots {
      SameSizeCapped(s.slots, op.key, s'.slots[op.key], s.limits);
    }
  }

  ghost predicate Sized(slots: map<CacheKey, Slot>) {
    forall k | k in slots :: slots[k].entry.bytes == MemoryOf(slots[k].entry.batches)
  }

  lemma TrimKeeps(slots: map<CacheKey, Slot>, tick: nat, limits: Limits, kept: map<CacheKey, Slot>)
    requires Ticked(slots, tick) && Sized(slots) && Trimmed(slots, limits, kept)
    ensures Inv(Store(kept, tick, limits))
  {
    TrimmedCapped(slots, limits, kept);
  }

  lemma InsertTicks(s: Store, op: Op)
    requires Inv(s) && op.Insert?
    ensures Ticked(Inserted(s, op), s.tick + 1) && Sized(Inserted(s, op))
  {
  }

  lemma NextKeeps(s: Store, op: Op, s': Store)
    requires Inv(s) && Next(s, op, s')
    ensures Inv(s')
  {
    match op
    case Get(key, now) => GetKeeps(s, key, now);
    case Insert(_, _, _, _, _, _) =>
      if Accepted(s, op) {
        InsertTicks(s, op);
        TrimKeeps(Inserted(s, op), s.tick + 1, s.limits, s'.slots);
      }
    case SetLimits(limits) => TrimKeeps(s.slots, s.tick, limits, s'.slots);
    case Slide(_, _, _, _) => SlideKeeps(s, op, s');
    case _ => FewerCapped(s.slots, s'.slots, s.limits);
  }

  // -------------------------------------------------------------------- runs

  ghost predicate NextAt(ss: seq<Store>, ops: seq<Op>, i: nat)
    requires |ss| == |ops| + 1 && i < |ops|
  {
    Next(ss[i], ops[i], ss[i + 1])
  }

  /** From an empty cache, through the given operations. */
  ghost predicate Run(ss: seq<Store>, ops: seq<Op>) {
    && |ss| == |ops| + 1
    && ss[0].slots == map[] && ss[0].tick == 0
    && forall i: nat | i < |ops| :: NextAt(ss, ops, i)
  }

  /** In every reachable state the caps in force hold and no two entries share a tick. */
  lemma {:induction false} RunInv(ss: seq<Store>, ops: seq<Op>, i: nat)
    requires Run(ss, ops) && i < |ss|
    ensures Inv(ss[i])
  {
    if i == 0 {
      assert Bytes(map[]) == map[];
    } else {
      RunInv(ss, ops, i - 1);
      assert NextAt(ss, ops, i - 1);
      NextKeeps(ss[i - 1], ops[i - 1], ss[i]);
    }
  }

  predicate StoresAt(ss: seq<Store>, ops: seq<Op>, i: nat, k: CacheKey)
    requires |ss| == |ops| + 1 && i < |ops|
  {
    Accepted(ss[i], ops[i]) && ops[i].key == k
  }

  /** A point at which the lifetime of `k` is set anew: an accepted insert or a slide. */
  predicate RenewsAt(ss: seq<Store>, ops: seq<Op>, i: nat, k: CacheKey)
    requires |ss| == |ops| + 1 && i < |ops|
  {
    StoresAt(ss, ops, i, k) || (ops[i].Slide? && ops[i].key == k)
  }

  /** An entry held is that of the last accepted insert of its key, renewed last at the last renewal. */
  lemma {:induction false} Provenance(ss: seq<Store>, ops: seq<Op>, i: nat, k: CacheKey)
    returns (stored: nat, renewed: nat)
    requires Run(ss, ops) && i < |ss| && k in ss[i].slots
    ensures stored <= renewed < i
    ensures StoresAt(ss, ops, stored, k) && ss[i].slots[k].entry.batches == ops[stored].batches
    ensures forall m | stored < m < i :: !StoresAt(ss, ops, m, k)
    ensures RenewsAt(ss, ops, renewed, k)
    ensures ss[i].slots[k].entry.storedAt == ops[renewed].now && ss[i].slots[k].entry.ttl == Some(ops[renewed].ttl)
    ensures forall m | renewed < m < i :: !RenewsAt(ss, ops, m, k)
  {
    hide Next, Accepted;
    assert NextAt(ss, ops, i - 1);
    if StoresAt(ss, ops, i - 1, k) {
      JustStored(ss[i - 1], ops[i - 1], ss[i]);
      stored, renewed := i - 1, i - 1;
    } else {
      HeldBefore(ss[i - 1], ops[i - 1], ss[i], k);
      stored, renewed := Provenance(ss, ops, i - 1, k);
      if RenewsAt(ss, ops, i - 1, k) {
        renewed := i - 1;
      }
    }
  }

  lemma JustStored(s: Store, op: Op, s': Store)
    requires Accepted(s, op) && Next(s, op, s') && op.key in s'.slots
    ensures var e := s'.slots[op.key].entry;
            e.batches == op.batches && e.storedAt == op.now && e.ttl == Some(op.ttl)
  {
    TrimmedCapped(Inserted(s, op), s.limits, s'.slots);
  }

  lemma HeldBefore(s: Store, op: Op, s': Store, k: CacheKey)
    requires Next(s, op, s') && k in s'.slots && !(Accepted(s, op) && op.key == k)
    ensures k in s.slots && s'.slots[k].entry.batches == s.slots[k].entry.batches
    ensures op.Slide? && op.key == k ==>
              s'.slots[k].entry.storedAt == op.now && s'.slots[k].entry.ttl == Some(op.ttl)
    ensures !(op.Slide? && op.key == k) ==>
              && s'.slots[k].entry.storedAt == s.slots[k].entry.storedAt
              && s'.slots[k].entry.ttl == s.slots[k].entry.ttl
  {
    match op
    case Insert(_, _, _, _, _, _) =>
      if Accepted(s, op) {
        TrimmedCapped(Inserted(s, op), s.limits, s'.slots);
      }
    case SetLimits(limits) => TrimmedCapped(s.slots, limits, s'.slots);
    case _ =>
  }

  /**
   * After any run, a lookup that answers returns the batches of the last insert of its key that was
   * not refused, within the lifetime given by that insert or by the last slide since.
   */
  lemma GetReturnsLastInserted(ss: seq<Store>, ops: seq<Op>, i: nat, k: CacheKey, now: nat)
    returns (stored: nat, renewed: nat)
    requires Run(ss, ops) && i < |ss| && Answer(ss[i], k, now).Some?
    ensures stored <= renewed < i && StoresAt(ss, ops, stored, k) && RenewsAt(ss, ops, renewed, k)
    ensures Answer(ss[i], k, now).value.batches == ops[stored].batches
    ensures forall m | stored < m < i :: !StoresAt(ss, ops, m, k)
    ensures forall m | renewed < m < i :: !RenewsAt(ss, ops, m, k)
    ensures now < ops[renewed].now + ops[renewed].ttl
  {
    stored, renewed := Provenance(ss, ops, i, k);
  }
}
