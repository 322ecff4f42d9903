/** The in-memory result cache, method by method, each proved to be a step of the state machine. */
module ResultCaches {
  import opened Wrappers
  import opened Sums
  import opened CacheKeys
  import opened CacheControls
  import opened ResultStores

  lemma CountRemoved(slots: map<CacheKey, Slot>, k: CacheKey)
    requires k in slots
    ensures |slots| == |slots - {k}| + 1
    ensures Total(Bytes(slots)) == Total(Bytes(slots - {k})) + slots[k].entry.bytes
  {
    TotalRemove(Bytes(slots), k);
    assert Bytes(slots) - {k} == Bytes(slots - {k});
    assert slots.Keys == (slots - {k}).Keys + {k};
  }

  lemma BytesAdded(slots: map<CacheKey, Slot>, k: CacheKey, slot: Slot)
    ensures Bytes(slots[k := slot]) == Bytes(slots)[k := slot.entry.bytes]
  {
  }

  lemma CountAdded(slots: map<CacheKey, Slot>, k: CacheKey, slot: Slot)
    requires k !in slots
    ensures |slots[k := slot]| == |slots| + 1
    ensures Total(Bytes(slots[k := slot])) == Total(Bytes(slots)) + slot.entry.bytes
  {
    BytesAdded(slots, k, slot);
    TotalInsert(Bytes(slots), k, slot.entry.bytes);
    BytesSize(slots);
    BytesSize(slots[k := slot]);
    OneMore(Bytes(slots), k, slot.entry.bytes);
  }

  lemma OneMore<K, V>(m: map<K, V>, k: K, v: V)
    requires k !in m
    ensures |m[k := v]| == |m| + 1
  {
    assert m[k := v].Keys == m.Keys + {k};
  }

  lemma CountSame(slots: map<CacheKey, Slot>, k: CacheKey, slot: Slot)
    requires k in slots && slot.entry.bytes == slots[k].entry.bytes
    ensures |slots[k := slot]| == |slots| && Total(Bytes(slots[k := slot])) == Total(Bytes(slots))
  {
    assert Bytes(slots[k := slot]) == Bytes(slots);
    assert slots[k := slot].Keys == slots.Keys;
  }

  function Large(slots: map<CacheKey, Slot>, limits: Limits): map<CacheKey, Slot> {
    map k | k in slots && slots[k].entry.bytes > limits.maxEntryBytes :: slots[k]
  }

  /** The oldest of the entries to choose from. */
  predicate Oldest(slots: map<CacheKey, Slot>, victim: CacheKey) {
    victim in slots && forall k | k in slots :: slots[victim].lastUsed <= slots[k].lastUsed
  }

  /** What the eviction loop keeps: the longest capped suffix is among what is left. */
  ghost predicate Trimming(slots0: map<CacheKey, Slot>, slots: map<CacheKey, Slot>, limits: Limits) {
    && (forall k | k in slots :: k in slots0 && slots[k] == slots0[k])
    && StillCovers(Small(slots0, limits), Small(slots, limits).Keys, limits)
    && (Oversized(slots, limits) ==> Small(slots, limits) == Small(slots0, limits))
  }

  lemma TrimmingStarts(slots: map<CacheKey, Slot>, limits: Limits)
    ensures Trimming(slots, slots, limits)
  {
    WholeSuffix(Small(slots, limits));
  }

  lemma TrimLarge(slots0: map<CacheKey, Slot>, slots: map<CacheKey, Slot>, victim: CacheKey, limits: Limits)
    requires Trimming(slots0, slots, limits) && victim in Large(slots, limits)
    ensures Trimming(slots0, slots - {victim}, limits)
  {
    assert Small(slots - {victim}, limits) == Small(slots, limits);
    assert Oversized(slots, limits);
  }

  lemma OversizedIsLarge(slots: map<CacheKey, Slot>, limits: Limits)
    requires Oversized(slots, limits)
    ensures Large(slots, limits) != map[]
  {
    var k :| k in slots && slots[k].entry.bytes > limits.maxEntryBytes;
    assert k in Large(slots, limits);
  }

  /** An empty cache meets any caps, so while one is broken there is something to evict. */
  lemma EmptyIsCapped(slots: map<CacheKey, Slot>, limits: Limits)
    ensures slots == map[] ==> Capped(slots, limits)
  {
    assert Bytes(map[]) == map[];
  }

  lemma LeftIsRestriction(slots0: map<CacheKey, Slot>, slots: map<CacheKey, Slot>, limits: Limits)
    requires Trimming(slots0, slots, limits) && !Oversized(slots, limits)
    ensures Small(slots, limits) == slots && Restrict(Small(slots0, limits), slots.Keys) == slots
  {
    SmallOfCapped(slots, limits);
  }

  lemma TrimOldest(slots0: map<CacheKey, Slot>, slots: map<CacheKey, Slot>, victim: CacheKey, limits: Limits)
    requires Trimming(slots0, slots, limits) && !Oversized(slots, limits) && !Fits(slots, limits)
    requires Distinct(slots0) && Oldest(slots, victim)
    ensures Trimming(slots0, slots - {victim}, limits)
  {
    LeftIsRestriction(slots0, slots, limits);
    EvictLeast(Small(slots0, limits), slots.Keys, victim, limits);
    SmallOfCapped(slots - {victim}, limits);
    assert (slots - {victim}).Keys == slots.Keys - {victim};
  }

  lemma TrimmingEnds(slots0: map<CacheKey, Slot>, slots: map<CacheKey, Slot>, limits: Limits)
    requires Trimming(slots0, slots, limits) && Capped(slots, limits)
    ensures Trimmed(slots0, limits, slots)
  {
    LeftIsRestriction(slots0, slots, limits);
  }

  lemma RowsAppend(batches: seq<Batch>, i: nat)
    requires i < |batches|
    ensures RowsOf(batches[..i + 1]) == RowsOf(batches[..i]) + batches[i].rows
    ensures MemoryOf(batches[..i + 1]) == MemoryOf(batches[..i]) + batches[i].memory
  {
    assert batches[..i + 1][..i] == batches[..i];
  }

  lemma NothingMeasured()
    ensures RowsOf([]) == 0 && MemoryOf([]) == 0
  {
  }

  lemma PutAfterRemove(slots: map<CacheKey, Slot>, k: CacheKey, slot: Slot)
    ensures (slots - {k})[k := slot] == slots[k := slot]
    ensures k !in slots - {k}
  {
  }

  function DoomedKeys(slots: map<CacheKey, Slot>, op: Op): set<CacheKey> {
    set k | k in slots && Doomed(op, k, slots[k].entry)
  }

  lemma WithoutIsMinus(slots: map<CacheKey, Slot>, op: Op)
    ensures slots - DoomedKeys(slots, op) == Without(slots, op)
  {
  }

  ghost predicate Tally(slots: map<CacheKey, Slot>, entries: nat, bytes: nat) {
    entries == |slots| && bytes == Total(Bytes(slots))
  }

  lemma TallyRemoved(slots: map<CacheKey, Slot>, k: CacheKey, entries: nat, bytes: nat)
    requires Tally(slots, entries, bytes) && k in slots
    ensures entries > 0 && bytes >= slots[k].entry.bytes
    ensures Tally(slots - {k}, entries - 1, bytes - slots[k].entry.bytes)
  {
    CountRemoved(slots, k);
  }

  lemma TallyAdded(slots: map<CacheKey, Slot>, k: CacheKey, slot: Slot, entries: nat, bytes: nat)
    requires Tally(slots, entries, bytes) && k !in slots
    ensures Tally(slots[k := slot], entries + 1, bytes + slot.entry.bytes)
  {
    CountAdded(slots, k, slot);
  }

  lemma DropOne(slots: map<CacheKey, Slot>, done: set<CacheKey>, k: CacheKey)
    ensures slots - done - {k} == slots - (done + {k})
  {
  }

  lemma RefusedStep(s: Store, op: Op)
    requires Inv(s) && op.Insert? && !Accepted(s, op)
    ensures Next(s, op, s)
  {
  }

  lemma InsertStep(s: Store, op: Op, kept: map<CacheKey, Slot>)
    requires Inv(s) && Accepted(s, op) && Trimmed(Inserted(s, op), s.limits, kept)
    ensures Next(s, op, Store(kept, s.tick + 1, s.limits)) && Inv(Store(kept, s.tick + 1, s.limits))
  {
    NextKeeps(s, op, Store(kept, s.tick + 1, s.limits));
  }

  lemma HitIsNewest(s: Store, key: CacheKey, now: nat)
    requires Inv(s) && Answer(s, key, now).Some?
    ensures var slots := AfterGet(s, key, now).slots;
            key in slots && forall k | k in slots && k != key :: slots[k].lastUsed < slots[key].lastUsed
  {
  }

  class ResultCache {
    var slots: map<CacheKey, Slot>
    var entries: nat
    var totalBytes: nat
    var tick: nat
    var limits: Limits

    function State(): Store
      reads this
    {
      Store(slots, tick, limits)
    }

    /** The two running counters are what they count. */
    ghost predicate Counted()
      reads this
    {
      Tally(slots, entries, totalBytes)
    }

    ghost predicate Valid()
      reads this
    {
      Counted() && Inv(State())
    }

    constructor (limits: Limits)
      ensures Valid() && State() == Store(map[], 0, limits)
    {
      slots, entries, totalBytes, tick, this.limits := map[], 0, 0, 0, limits;
      assert Bytes(map[]) == map[];
    }

    method RemoveSlot(k: CacheKey)
      requires Counted() && k in slots
      modifies this`slots, this`entries, this`totalBytes
      ensures Counted() && slots == old(slots) - {k} && entries == old(entries) - 1
    {
      TallyRemoved(slots, k, entries, totalBytes);
      totalBytes := totalBytes - slots[k].entry.bytes;
      entries := entries - 1;
      slots := slots - {k};
    }

    /** Any order of iteration will do: of entries with one tick there is one. */
    method FindOldest(candidates: map<CacheKey, Slot>) returns (victim: CacheKey)
      requires candidates != map[]
      ensures Oldest(candidates, victim)
    {
      victim :| victim in candidates;
      var todo := candidates.Keys;
      while todo != {}
        invariant todo <= candidates.Keys && victim in candidates
        invariant forall k | k in candidates && k !in todo :: candidates[victim].lastUsed <= candidates[k].lastUsed
        decreases todo
      {
        var k :| k in todo;
        if candidates[k].lastUsed < candidates[victim].lastUsed {
          victim := k;
        }
        todo := todo - {k};
      }
    }

    method RemoveSlots(doomed: set<CacheKey>) returns (n: nat)
      requires Counted() && doomed <= slots.Keys
      modifies this`slots, this`entries, this`totalBytes
      ensures Counted() && slots == old(slots) - doomed && n + entries == old(entries)
    {
      hide *;
      ghost var slots0, done := slots, {};
      var todo := doomed;
      n := 0;
      assert slots0 - {} == slots0;
      while todo != {}
        invariant Counted() && done !! todo && done + todo == doomed
        invariant slots == slots0 - done && n + entries == old(entries)
        decreases todo
      {
        var k :| k in todo;
        DropOne(slots0, done, k);
        RemoveSlot(k);
        n := n + 1;
        done := done + {k};
        todo := todo - {k};
      }
      assert done == doomed;
    }

    method PutSlot(k: CacheKey, slot: Slot)
      requires Counted()
      modifies this`slots, this`entries, this`totalBytes
      ensures Counted() && slots == old(slots)[k := slot]
    {
      PutAfterRemove(slots, k, slot);
      if k in slots {
        RemoveSlot(k);
      }
      TallyAdded(slots, k, slot, entries, totalBytes);
      totalBytes := totalBytes + slot.entry.bytes;
      entries := entries + 1;
      slots := slots[k := slot];
    }

    /** An entry that changes in place keeps its size, so the counters stay. */
    method Replace(k: CacheKey, slot: Slot)
      requires Counted() && k in slots && slot.entry.bytes == slots[k].entry.bytes
      modifies this`slots
      ensures Counted() && slots == old(slots)[k := slot]
    {
      CountSame(slots, k, slot);
      slots := slots[k := slot];
    }

    method OverCap() returns (over: bool)
      requires Counted()
      ensures over <==> !Capped(slots, limits)
    {
      over := Oversized(slots, limits) || entries > limits.maxEntries || totalBytes > limits.maxTotalBytes;
    }

    /** The entry to evict next: an oversized one as long as there is any, the oldest of them. */
    method Victim(ghost slots0: map<CacheKey, Slot>) returns (victim: CacheKey)
      requires !Capped(slots, limits) && Distinct(slots0) && Trimming(slots0, slots, limits)
      ensures victim in slots && Trimming(slots0, slots - {victim}, limits)
    {
      var large := Large(slots, limits);
      if Oversized(slots, limits) {
        OversizedIsLarge(slots, limits);
        victim := FindOldest(large);
        TrimLarge(slots0, slots, victim, limits);
      } else {
        EmptyIsCapped(slots, limits);
        victim := FindOldest(slots);
        TrimOldest(slots0, slots, victim, limits);
      }
    }

    /** Evicts until every cap holds; there is always something to evict while one does not. */
    method EnforceCaps()
      requires Counted() && Distinct(slots)
      modifies this`slots, this`entries, this`totalBytes
      ensures Counted() && Trimmed(old(slots), limits, slots)
    {
      ghost var slots0 := slots;
      TrimmingStarts(slots, limits);
      var over := OverCap();
      while over
        invariant Counted() && Trimming(slots0, slots, limits) && (over <==> !Capped(slots, limits))
        decreases entries, over
      {
        var victim := Victim(slots0);
        RemoveSlot(victim);
        over := OverCap();
      }
      TrimmingEnds(slots0, slots, limits);
    }

    method Lookup(key: CacheKey, now: nat) returns (found: Option<Entry>)
      requires Valid()
      modifies this
      ensures Valid() && Next(old(State()), Get(key, now), State())
      ensures found == Answer(old(State()), key, now)
      ensures found.Some? <==>
                && key in old(slots)
                && var e := old(slots)[key].entry;
                e.ttl.None? || (if now < e.storedAt then e.storedAt else now) < e.storedAt + e.ttl.value
      ensures found.Some? ==>
                && found.value == old(slots)[key].entry.(hits := old(slots)[key].entry.hits + 1)
                && forall k | k in slots && k != key :: slots[k].lastUsed < slots[key].lastUsed
    {
      hide Inv, Tally, Trimmed;
      ghost var s0 := State();
      tick := tick + 1;
      found := None;
      if key in slots {
        var entry := slots[key].entry;
        if !Stale(entry, now) {
          found := Some(entry.(hits := entry.hits + 1));
          Replace(key, Slot(found.value, tick));
        } else if !entry.revalidatable {
          RemoveSlot(key);
        }
      }
      assert State() == AfterGet(s0, key, now);
      if found.Some? {
        HitIsNewest(s0, key, now);
      }
      NextKeeps(s0, Get(key, now), State());
    }

    /** The entry even if stale, when it may be revalidated; nothing is touched. */
    method GetForRevalidation(key: CacheKey) returns (found: Option<Entry>)
      ensures found.Some? <==> key in slots && slots[key].entry.revalidatable
      ensures found.Some? ==> found.value == slots[key].entry
    {
      if key in slots && slots[key].entry.revalidatable {
        return Some(slots[key].entry);
      }
      return None;
    }

    method Measure(batches: seq<Batch>) returns (rows: nat, bytes: nat)
      ensures rows == RowsOf(batches) && bytes == MemoryOf(batches)
    {
      rows, bytes := 0, 0;
      for i := 0 to |batches|
        invariant rows == RowsOf(batches[..i]) && bytes == MemoryOf(batches[..i])
      {
        RowsAppend(batches, i);
        rows, bytes := rows + batches[i].rows, bytes + batches[i].memory;
      }
      assert batches[..|batches|] == batches;
    }

    method InsertWithSubstreams(key: CacheKey, batches: seq<Batch>, substreams: nat, ttl: nat,
                                control: Option<CacheControl>, now: nat)
      requires Valid()
      modifies this
      ensures Valid() && Next(old(State()), Insert(key, batches, substreams, ttl, control, now), State())
    {
      hide Next, Inv, Trimmed, NewEntry, Tally;
      ghost var s0, op := State(), Insert(key, batches, substreams, ttl, control, now);
      var rows, bytes := Measure(batches);
      if bytes > limits.maxEntryBytes {
        RefusedStep(s0, op);
        return;
      }
      tick := tick + 1;
      PutSlot(key, Slot(NewEntry(batches, substreams, ttl, control, now), tick));
      assert slots == Inserted(s0, op);
      InsertTicks(s0, op);
      EnforceCaps();
      InsertStep(s0, op, slots);
    }

    method SlideEntry(key: CacheKey, ttl: nat, control: Option<CacheControl>, now: nat) returns (found: bool)
      requires Valid()
      modifies this
      ensures Valid() && Next(old(State()), Slide(key, ttl, control, now), State())
      ensures found <==> key in old(slots)
    {
      hide Inv, Tally, Trimmed;
      ghost var s0, op := State(), Slide(key, ttl, control, now);
      tick := tick + 1;
      found := key in slots;
      if found {
        Replace(key, Slot(Slid(slots[key].entry, ttl, control, now), tick));
      }
      NextKeeps(s0, op, State());
    }

    /** remove, flush_scope, flush_catalog, flush_all and reap: the doomed are collected, then dropped. */
    method Drop(op: Op) returns (n: nat)
      requires Valid() && (op.Remove? || op.FlushScope? || op.FlushCatalog? || op.FlushAll? || op.Reap?)
      modifies this
      ensures Valid() && Next(old(State()), op, State())
      ensures n + entries == old(entries)
    {
      ghost var s0 := State();
      WithoutIsMinus(slots, op);
      n := RemoveSlots(DoomedKeys(slots, op));
      assert State() == s0.(slots := Without(s0.slots, op));
      NextKeeps(s0, op, State());
    }

    method ReplaceLimits(limits: Limits) returns (evicted: nat)
      requires Valid()
      modifies this
      ensures Valid() && Next(old(State()), SetLimits(limits), State())
      ensures evicted + entries == old(entries)
    {
      ghost var s0 := State();
      var before := entries;
      this.limits := limits;
      EnforceCaps();
      evicted := if before >= entries then before - entries else 0;
      NextKeeps(s0, SetLimits(limits), State());
      TrimmedFewer(s0.slots, limits, slots);
    }
  }

  lemma TrimmedFewer(slots: map<CacheKey, Slot>, limits: Limits, kept: map<CacheKey, Slot>)
    requires Trimmed(slots, limits, kept)
    ensures |kept| <= |slots|
  {
    TrimmedCapped(slots, limits, kept);
    BytesSize(slots);
    BytesSize(kept);
    TotalSubmap(Bytes(kept), Bytes(slots));
  }
}
