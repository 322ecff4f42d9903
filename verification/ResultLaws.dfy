/**
 * What callers of the in-memory cache can rely on, in terms of the operations made: which entries the
 * caps leave, when a lookup answers, what goes and why, and whose policy an entry carries.
 */
module ResultLaws {
  import opened Wrappers
  import opened Sums
  import opened CacheKeys
  import opened CacheControls
  import opened ResultStores

  // -------------------------------------------------------------------- caps

  /** The entries not oversized that were used no earlier than `q`. */
  function Since(slots: map<CacheKey, Slot>, limits: Limits, q: CacheKey): map<CacheKey, Slot>
    requires q in slots
  {
    map k | k in slots && slots[k].entry.bytes <= limits.maxEntryBytes && slots[q].lastUsed <= slots[k].lastUsed ::
      slots[k]
  }

  lemma FewerFit(slots: map<CacheKey, Slot>, fewer: map<CacheKey, Slot>, limits: Limits)
    requires Fits(slots, limits) && forall k | k in fewer :: k in slots && fewer[k] == slots[k]
    ensures Fits(fewer, limits)
  {
    BytesSize(fewer);
    BytesSize(slots);
    TotalSubmap(Bytes(fewer), Bytes(slots));
  }

  lemma SinceIsSuffix(slots: map<CacheKey, Slot>, limits: Limits, q: CacheKey)
    requires q in slots
    ensures RecentSuffix(Small(slots, limits), Since(slots, limits, q).Keys)
    ensures Restrict(Small(slots, limits), Since(slots, limits, q).Keys) == Since(slots, limits, q)
  {
  }

  /**
   * An entry outlives the caps exactly if it is not oversized and the entries not oversized that were
   * used as recently, itself included, meet both the count and the total.
   */
  lemma StaysIff(slots: map<CacheKey, Slot>, limits: Limits, kept: map<CacheKey, Slot>, q: CacheKey)
    requires Distinct(slots) && Trimmed(slots, limits, kept) && q in slots
    ensures q in kept <==>
              && slots[q].entry.bytes <= limits.maxEntryBytes
              && |Since(slots, limits, q)| <= limits.maxEntries
              && Total(Bytes(Since(slots, limits, q))) <= limits.maxTotalBytes
    ensures q in kept ==> kept[q] == slots[q]
  {
    var since := Since(slots, limits, q);
    SinceIsSuffix(slots, limits, q);
    if q in kept {
      forall k | k in since
        ensures k in kept && since[k] == kept[k]
      {
      }
      FewerFit(kept, since, limits);
    }
  }

  // ---------------------------------------------------------------- lifetimes

  /**
   * An entry held is answered exactly within the lifetime that the last accepted insert of its key, or
   * the last slide since, gave it, and the batches are those of that insert.
   */
  lemma AnsweredIffAlive(ss: seq<Store>, ops: seq<Op>, i: nat, k: CacheKey, now: nat)
    returns (stored: nat, renewed: nat)
    requires Run(ss, ops) && i < |ss| && k in ss[i].slots
    ensures stored <= renewed < i && StoresAt(ss, ops, stored, k) && RenewsAt(ss, ops, renewed, k)
    ensures forall m | stored < m < i :: !StoresAt(ss, ops, m, k)
    ensures forall m | renewed < m < i :: !RenewsAt(ss, ops, m, k)
    ensures Answer(ss[i], k, now).Some? <==>
              (if now < ops[renewed].now then ops[renewed].now else now) < ops[renewed].now + ops[renewed].ttl
    ensures Answer(ss[i], k, now).Some? ==> Answer(ss[i], k, now).value.batches == ops[stored].batches
  {
    stored, renewed := Provenance(ss, ops, i, k);
  }

  /**
   * A lookup of the key, and a reap, remove the entry exactly if that lifetime is over and it may not be
   * revalidated.
   */
  lemma ExpiryRemoves(ss: seq<Store>, ops: seq<Op>, i: nat, k: CacheKey) returns (renewed: nat)
    requires Run(ss, ops) && i < |ops| && k in ss[i].slots
    requires ops[i].Reap? || (ops[i].Get? && ops[i].key == k)
    ensures renewed < i && RenewsAt(ss, ops, renewed, k) && forall m | renewed < m < i :: !RenewsAt(ss, ops, m, k)
    ensures k !in ss[i + 1].slots <==>
              && (if ops[i].now < ops[renewed].now then ops[renewed].now else ops[i].now)
                 >= ops[renewed].now + ops[renewed].ttl
              && !ss[i].slots[k].entry.revalidatable
  {
    var stored;
    stored, renewed := Provenance(ss, ops, i, k);
    assert NextAt(ss, ops, i);
  }

  // --------------------------------------------------------- what else goes

  /** Removals and flushes take exactly the keys they name, and leave the rest as it was. */
  lemma FlushesExactly(s: Store, op: Op, s': Store, k: CacheKey)
    requires Next(s, op, s') && k in s.slots
    ensures op.Remove? ==> (k !in s'.slots <==> k == op.key)
    ensures op.FlushScope? ==> (k !in s'.slots <==> k.identityScope == op.scope)
    ensures op.FlushCatalog? ==> (k !in s'.slots <==> k.catalog == op.catalog)
    ensures op.FlushAll? ==> k !in s'.slots
    ensures op.Slide? || (op.Get? && op.key != k) || (op.Insert? && !Accepted(s, op)) ==> k in s'.slots
    ensures k in s'.slots && !(op.Get? || op.Insert? || op.Slide?) ==> s'.slots[k] == s.slots[k]
    ensures (op.Get? || op.Slide?) && op.key != k ==> s'.slots[k] == s.slots[k]
  {
    if op.SetLimits? {
      TrimmedCapped(s.slots, op.limits, s'.slots);
    }
  }

  lemma AloneIsBytes(k: CacheKey, slot: Slot)
    ensures Total(Bytes(map[k := slot])) == slot.entry.bytes && |map[k := slot]| == 1
  {
    assert Bytes(map[k := slot]) == map[][k := slot.entry.bytes];
    TotalInsert(map[], k, slot.entry.bytes);
    assert map[k := slot].Keys == {k};
  }

  /** What was used last is alone in having been used so late. */
  lemma NewestIsAlone(s: Store, op: Op)
    requires Inv(s) && Accepted(s, op)
    ensures Since(Inserted(s, op), s.limits, op.key) == map[op.key := Inserted(s, op)[op.key]]
  {
  }

  /**
   * An insert is refused exactly if its batches together are larger than one entry may be, and is held
   * afterwards exactly if it is not refused and alone meets the other two caps.
   */
  lemma InsertHeldIff(s: Store, op: Op, s': Store)
    requires Inv(s) && op.Insert? && Next(s, op, s')
    ensures MemoryOf(op.batches) > s.limits.maxEntryBytes ==> s' == s
    ensures MemoryOf(op.batches) <= s.limits.maxEntryBytes ==>
              (op.key in s'.slots <==> MemoryOf(op.batches) <= s.limits.maxTotalBytes && s.limits.maxEntries > 0)
    ensures MemoryOf(op.batches) <= s.limits.maxEntryBytes && op.key in s'.slots ==>
              && s'.slots[op.key].entry.batches == op.batches && s'.slots[op.key].entry.rows == RowsOf(op.batches)
              && s'.slots[op.key].entry.storedAt == op.now && s'.slots[op.key].entry.ttl == Some(op.ttl)
              && s'.slots[op.key].entry.hits == 0
              && s'.slots[op.key].entry.substreams == (if op.substreams == 0 then 1 else op.substreams)
  {
    if Accepted(s, op) {
      InsertTicks(s, op);
      StaysIff(Inserted(s, op), s.limits, s'.slots, op.key);
      NewestIsAlone(s, op);
      AloneIsBytes(op.key, Inserted(s, op)[op.key]);
    }
  }

  // ------------------------------------------------------------------- recency

  /** A point at which `k` is used: an accepted insert, a slide, or a lookup that answers. */
  predicate UsesAt(ss: seq<Store>, ops: seq<Op>, i: nat, k: CacheKey)
    requires |ss| == |ops| + 1 && i < |ops|
  {
    || StoresAt(ss, ops, i, k)
    || (ops[i].Slide? && ops[i].key == k)
    || (ops[i].Get? && ops[i].key == k && Answer(ss[i], k, ops[i].now).Some?)
  }

  lemma UseTicks(s: Store, op: Op, s': Store, k: CacheKey)
    requires Next(s, op, s') && k in s'.slots
    requires || (Accepted(s, op) && op.key == k) || (op.Slide? && op.key == k)
             || (op.Get? && op.key == k && Answer(s, k, op.now).Some?)
    ensures s'.tick == s.tick + 1 && s'.slots[k].lastUsed == s.tick + 1
  {
    if Accepted(s, op) {
      TrimmedCapped(Inserted(s, op), s.limits, s'.slots);
    }
  }

  lemma UnusedStays(s: Store, op: Op, s': Store, k: CacheKey)
    requires Next(s, op, s') && k in s'.slots
    requires !(Accepted(s, op) && op.key == k) && !(op.Slide? && op.key == k)
    requires !(op.Get? && op.key == k && Answer(s, k, op.now).Some?)
    ensures k in s.slots && s'.slots[k] == s.slots[k]
  {
    match op
    case Insert(_, _, _, _, _, _) =>
      if Accepted(s, op) {
        TrimmedCapped(Inserted(s, op), s.limits, s'.slots);
      }
    case SetLimits(limits) => TrimmedCapped(s.slots, limits, s'.slots);
    case _ =>
  }

  /** The tick of an entry is that of its last use. */
  lemma {:induction false} LastUse(ss: seq<Store>, ops: seq<Op>, i: nat, k: CacheKey) returns (t: nat)
    requires Run(ss, ops) && i < |ss| && k in ss[i].slots
    ensures t < i && UsesAt(ss, ops, t, k) && forall m | t < m < i :: !UsesAt(ss, ops, m, k)
    ensures ss[i].slots[k].lastUsed == ss[t].tick + 1 == ss[t + 1].tick
  {
    hide Next, Accepted, Answer;
    assert NextAt(ss, ops, i - 1);
    if UsesAt(ss, ops, i - 1, k) {
      t := i - 1;
      UseTicks(ss[i - 1], ops[i - 1], ss[i], k);
    } else {
      UnusedStays(ss[i - 1], ops[i - 1], ss[i], k);
      t := LastUse(ss, ops, i - 1, k);
    }
  }

  lemma {:induction false} TicksGrow(ss: seq<Store>, ops: seq<Op>, i: nat, j: nat)
    requires Run(ss, ops) && i <= j < |ss|
    ensures ss[i].tick <= ss[j].tick
  {
    if i < j {
      TicksGrow(ss, ops, i, j - 1);
      assert NextAt(ss, ops, j - 1);
    }
  }

  lemma TrimmedByAge(slots: map<CacheKey, Slot>, limits: Limits, kept: map<CacheKey, Slot>, p: CacheKey, q: CacheKey)
    requires Trimmed(slots, limits, kept) && p in kept && q in slots && q !in kept
    requires slots[q].entry.bytes <= limits.maxEntryBytes
    ensures p in slots && slots[p] == kept[p] && slots[q].lastUsed < kept[p].lastUsed
  {
  }

  /**
   * An entry that an insert or new limits push out, though it is not oversized, was last used before every
   * entry that stays was: inserted, slid or answered.
   */
  lemma EvictedWasUsedEarlier(ss: seq<Store>, ops: seq<Op>, i: nat, p: CacheKey, q: CacheKey)
    returns (tp: nat, tq: nat)
    requires Run(ss, ops) && i < |ops| && (Accepted(ss[i], ops[i]) || ops[i].SetLimits?)
    requires p in ss[i + 1].slots && q in ss[i].slots && q !in ss[i + 1].slots
    requires !(ops[i].Insert? && ops[i].key == q) && ss[i].slots[q].entry.bytes <= ss[i + 1].limits.maxEntryBytes
    ensures tp <= i && UsesAt(ss, ops, tp, p) && forall m | tp < m <= i :: !UsesAt(ss, ops, m, p)
    ensures tq < i && UsesAt(ss, ops, tq, q) && forall m | tq < m < i :: !UsesAt(ss, ops, m, q)
    ensures tq < tp
  {
    tp := LastUse(ss, ops, i + 1, p);
    tq := LastUse(ss, ops, i, q);
    assert NextAt(ss, ops, i);
    if ops[i].SetLimits? {
      TrimmedByAge(ss[i].slots, ops[i].limits, ss[i + 1].slots, p, q);
    } else {
      TrimmedByAge(Inserted(ss[i], ops[i]), ss[i].limits, ss[i + 1].slots, p, q);
    }
    if tp <= tq {
      TicksGrow(ss, ops, tp, tq);
    }
  }

  // -------------------------------------------------------------------- policy

  /** A point at which the policy of `k` is set: an accepted insert, or a slide that carries a control. */
  predicate SpeaksAt(ss: seq<Store>, ops: seq<Op>, i: nat, k: CacheKey)
    requires |ss| == |ops| + 1 && i < |ops|
  {
    StoresAt(ss, ops, i, k) || (ops[i].Slide? && ops[i].key == k && ops[i].control.Some?)
  }

  /** The seconds of a grace window that a control gives, in nanoseconds. */
  function Grace(control: Option<CacheControl>, window: CacheControl -> Option<i64>): nat {
    if control.Some? && window(control.value).Some? && window(control.value).value > 0
    then window(control.value).value * 1_000_000_000 else 0
  }

  /** The policy of an entry is what one control says. */
  predicate Carries(e: Entry, control: Option<CacheControl>) {
    && e.etag == (if control.Some? then control.value.etag else None)
    && e.lastModified == (if control.Some? then control.value.lastModified else None)
    && e.staleWhileRevalidate == Grace(control, (c: CacheControl) => c.staleWhileRevalidate)
    && e.staleIfError == Grace(control, (c: CacheControl) => c.staleIfError)
  }

  lemma InsertCarries(s: Store, op: Op, s': Store)
    requires Accepted(s, op) && Next(s, op, s') && op.key in s'.slots
    ensures Carries(s'.slots[op.key].entry, op.control)
    ensures s'.slots[op.key].entry.revalidatable == (op.control.Some? && op.control.value.revalidatable)
  {
    TrimmedCapped(Inserted(s, op), s.limits, s'.slots);
  }

  lemma SlideCarries(s: Store, op: Op, s': Store)
    requires op.Slide? && op.control.Some? && Next(s, op, s') && op.key in s'.slots
    ensures Carries(s'.slots[op.key].entry, op.control)
    ensures s'.slots[op.key].entry.revalidatable ==
            (op.control.value.revalidatable
             && (op.control.value.etag.Some? || op.control.value.lastModified.Some?))
  {
  }

  predicate SamePolicy(e: Entry, e': Entry) {
    && e'.etag == e.etag && e'.lastModified == e.lastModified && e'.revalidatable == e.revalidatable
    && e'.staleWhileRevalidate == e.staleWhileRevalidate && e'.staleIfError == e.staleIfError
  }

  lemma OthersSilent(s: Store, op: Op, s': Store, k: CacheKey)
    requires Next(s, op, s') && k in s'.slots
    requires !(Accepted(s, op) && op.key == k) && !(op.Slide? && op.key == k && op.control.Some?)
    ensures k in s.slots && SamePolicy(s.slots[k].entry, s'.slots[k].entry)
  {
    match op
    case Insert(_, _, _, _, _, _) =>
      if Accepted(s, op) {
        TrimmedCapped(Inserted(s, op), s.limits, s'.slots);
      }
    case SetLimits(limits) => TrimmedCapped(s.slots, limits, s'.slots);
    case _ =>
  }

  /**
   * The validators and grace windows of an entry held are those of the last accepted insert of its key, or
   * of the last slide since that carried a control; one given by a slide may be revalidated only if there
   * is a validator to send.
   */
  lemma {:induction false} PolicyProvenance(ss: seq<Store>, ops: seq<Op>, i: nat, k: CacheKey) returns (spoke: nat)
    requires Run(ss, ops) && i < |ss| && k in ss[i].slots
    ensures spoke < i && SpeaksAt(ss, ops, spoke, k) && forall m | spoke < m < i :: !SpeaksAt(ss, ops, m, k)
    ensures Carries(ss[i].slots[k].entry, ops[spoke].control)
    ensures ss[i].slots[k].entry.revalidatable ==
            (ops[spoke].control.Some? && ops[spoke].control.value.revalidatable
             && (ops[spoke].Slide? ==>
                   ops[spoke].control.value.etag.Some? || ops[spoke].control.value.lastModified.Some?))
  {
    hide Next, Accepted, Carries;
    assert NextAt(ss, ops, i - 1);
    AcceptsInserts(ss[i - 1], ops[i - 1]);
    if StoresAt(ss, ops, i - 1, k) {
      spoke := i - 1;
      InsertCarries(ss[i - 1], ops[i - 1], ss[i]);
    } else if SpeaksAt(ss, ops, i - 1, k) {
      spoke := i - 1;
      SlideCarries(ss[i - 1], ops[i - 1], ss[i]);
    } else {
      OthersSilent(ss[i - 1], ops[i - 1], ss[i], k);
      spoke := PolicyProvenance(ss, ops, i - 1, k);
      AcceptsInserts(ss[spoke], ops[spoke]);
      CarriesOn(ss[i - 1].slots[k].entry, ss[i].slots[k].entry, ops[spoke].control);
    }
  }

  lemma AcceptsInserts(s: Store, op: Op)
    ensures Accepted(s, op) ==> op.Insert?
  {
  }

  lemma CarriesOn(e: Entry, e': Entry, control: Option<CacheControl>)
    requires Carries(e, control) && SamePolicy(e, e')
    ensures Carries(e', control)
  {
  }

  // -------------------------------------------------------------- stale serves

  /** The time since the entry went stale, if it has. */
  function StaleAge(e: Entry, now: nat): Option<nat> {
    if e.ttl.Some? && e.storedAt + e.ttl.value <= now then Some(now - (e.storedAt + e.ttl.value)) else None
  }

  predicate MayServeWhileRevalidating(e: Entry, now: nat) {
    StaleAge(e, now).Some? && StaleAge(e, now).value <= e.staleWhileRevalidate
  }

  predicate MayServeOnError(e: Entry, now: nat) {
    StaleAge(e, now).Some? && StaleAge(e, now).value <= e.staleIfError
  }

  /**
   * A stale entry may be served exactly from the end of its lifetime on, for as many seconds as the control
   * that spoke last allows for the occasion.
   */
  lemma GraceWindows(ss: seq<Store>, ops: seq<Op>, i: nat, k: CacheKey, now: nat) returns (renewed: nat, spoke: nat)
    requires Run(ss, ops) && i < |ss| && k in ss[i].slots
    ensures renewed < i && RenewsAt(ss, ops, renewed, k) && forall m | renewed < m < i :: !RenewsAt(ss, ops, m, k)
    ensures spoke < i && SpeaksAt(ss, ops, spoke, k) && forall m | spoke < m < i :: !SpeaksAt(ss, ops, m, k)
    ensures var end, control := ops[renewed].now + ops[renewed].ttl, ops[spoke].control;
            && (MayServeWhileRevalidating(ss[i].slots[k].entry, now) <==>
                  end <= now <= end + Grace(control, (c: CacheControl) => c.staleWhileRevalidate))
            && (MayServeOnError(ss[i].slots[k].entry, now) <==>
                  end <= now <= end + Grace(control, (c: CacheControl) => c.staleIfError))
  {
    var stored;
    stored, renewed := Provenance(ss, ops, i, k);
    spoke := PolicyProvenance(ss, ops, i, k);
  }
}
