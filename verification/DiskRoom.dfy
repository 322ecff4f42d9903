/**
 * What a root holds, as the admission check adds it up: referenced generations, orphaned ones,
 * and the generation about to be replaced when a lease will keep it.
 */
module DiskRoom {
  import opened Wrappers
  import opened Sums
  import opened DiskModel
  import opened DiskProtocol

  /** Locks held on generations: by hits of this instance, and by other processes. */
  datatype Locks = Locks(own: set<ObjPath>, foreign: set<ObjPath>) {
    function All(): set<ObjPath> {
      own + foreign
    }
  }

  /** Removal of this generation would be refused. */
  predicate Blocked(fs: Fs, locks: Locks, o: ObjPath) {
    o in locks.own || (o in fs.objects && fs.objects[o].lease && o in locks.foreign)
  }

  function ParsedRefs(fs: Fs): map<RefPath, Record> {
    map p | p in fs.refs && fs.refs[p].Parsed? :: fs.refs[p].record
  }

  function OthersThan(refs: map<RefPath, Record>, p: Option<RefPath>): map<RefPath, Record> {
    if p.Some? then refs - {p.value} else refs
  }

  function RecordBytes(refs: map<RefPath, Record>): map<RefPath, nat> {
    map p | p in refs :: refs[p].storedBytes
  }

  function RefObjects(refs: map<RefPath, Record>): set<ObjPath> {
    set p | p in refs :: ObjOf(refs[p])
  }

  function Orphans(fs: Fs): map<ObjPath, ObjectDir> {
    fs.objects - RefObjects(ParsedRefs(fs))
  }

  /** The generation to be replaced is leased and so will stay. */
  predicate Retained(fs: Fs, locks: Locks, p: Option<RefPath>) {
    p.Some? && RefAt(fs, p.value).Some? && Blocked(fs, locks, ObjOf(RefAt(fs, p.value).value))
  }

  ghost function UsedBytes(fs: Fs, locks: Locks, replacing: Option<RefPath>): nat {
    Total(RecordBytes(OthersThan(ParsedRefs(fs), replacing))) + Total(Weights(Orphans(fs)))
      + (if Retained(fs, locks, replacing) then RefAt(fs, replacing.value).value.storedBytes else 0)
  }

  ghost function UsedEntries(fs: Fs, locks: Locks, replacing: Option<RefPath>): nat {
    |OthersThan(ParsedRefs(fs), replacing)| + |Orphans(fs)| + (if Retained(fs, locks, replacing) then 1 else 0)
  }

  ghost predicate Room(fs: Fs, locks: Locks, replacing: Option<RefPath>, incoming: nat, limits: Limits) {
    && UsedBytes(fs, locks, replacing) + incoming <= limits.maxBytes
    && UsedEntries(fs, locks, replacing) + (if incoming > 0 then 1 else 0) <= limits.maxEntries
  }

  lemma RoomFormula(fs: Fs, locks: Locks, replacing: Option<RefPath>, incoming: nat, limits: Limits,
                    refBytes: nat, refEntries: nat, orphanBytes: nat, orphanEntries: nat, keptBytes: nat,
                    keptEntries: nat)
    requires refBytes == Total(RecordBytes(OthersThan(ParsedRefs(fs), replacing)))
    requires refEntries == |OthersThan(ParsedRefs(fs), replacing)|
    requires orphanBytes == Total(Weights(Orphans(fs))) && orphanEntries == |Orphans(fs)|
    requires Retained(fs, locks, replacing) ==>
               keptBytes == RefAt(fs, replacing.value).value.storedBytes && keptEntries == 1
    requires !Retained(fs, locks, replacing) ==> keptBytes == keptEntries == 0
    ensures Room(fs, locks, replacing, incoming, limits) <==>
              && refBytes + orphanBytes + keptBytes + incoming <= limits.maxBytes
              && refEntries + orphanEntries + keptEntries + (if incoming > 0 then 1 else 0) <= limits.maxEntries
  {
  }

  // ------------------------------------------ the sum of its parts is what is on disk

  /** Each of `refs` names its own object, whose size its record states. */
  ghost predicate Accounted(refs: map<RefPath, Record>, objects: map<ObjPath, ObjectDir>) {
    && (forall p | p in refs ::
      ObjOf(refs[p]) in objects && ObjectBytes(objects[ObjOf(refs[p])]) == refs[p].storedBytes)
    && (forall p, q | p in refs && q in refs && p != q :: ObjOf(refs[p]) != ObjOf(refs[q]))
  }

  lemma SoundAccounted(fs: Fs, leased: set<ObjPath>)
    requires Sound(fs, leased)
    ensures Accounted(ParsedRefs(fs), fs.objects)
  {
    var refs := ParsedRefs(fs);
    forall p | p in refs
      ensures ObjOf(refs[p]) in fs.objects && ObjectBytes(fs.objects[ObjOf(refs[p])]) == refs[p].storedBytes
    {
      assert RefOk(p, fs.refs[p], fs.objects);
      StoredBytesAreObjectBytes(fs.objects[ObjOf(refs[p])], refs[p]);
    }
    forall p, q | p in refs && q in refs && p != q
      ensures ObjOf(refs[p]) != ObjOf(refs[q])
    {
      assert RefOk(p, fs.refs[p], fs.objects) && RefOk(q, fs.refs[q], fs.objects);
    }
  }

  lemma MinusRef(refs: map<RefPath, Record>, p: RefPath)
    requires p in refs && forall q | q in refs && q != p :: ObjOf(refs[p]) != ObjOf(refs[q])
    ensures RefObjects(refs) == RefObjects(refs - {p}) + {ObjOf(refs[p])}
    ensures ObjOf(refs[p]) !in RefObjects(refs - {p})
    ensures RecordBytes(refs) - {p} == RecordBytes(refs - {p})
  {
    forall o | o in RefObjects(refs) && o != ObjOf(refs[p])
      ensures o in RefObjects(refs - {p})
    {
      var q :| q in refs && ObjOf(refs[q]) == o;
      assert q in refs - {p};
    }
  }

  ghost function PartBytes(refs: map<RefPath, Record>, objects: map<ObjPath, ObjectDir>): nat {
    Total(RecordBytes(refs)) + Total(Weights(objects - RefObjects(refs)))
  }

  lemma OneRefLess(refs: map<RefPath, Record>, objects: map<ObjPath, ObjectDir>, p: RefPath)
    requires Accounted(refs, objects) && p in refs
    ensures PartBytes(refs, objects) == PartBytes(refs - {p}, objects)
  {
    MinusRef(refs, p);
    TotalRemove(RecordBytes(refs), p);
    OneMoreReferenced(objects, RefObjects(refs - {p}), ObjOf(refs[p]));
  }

  lemma OneRefFewer(refs: map<RefPath, Record>, objects: map<ObjPath, ObjectDir>, p: RefPath)
    requires Accounted(refs, objects) && p in refs
    ensures |refs| + |objects - RefObjects(refs)| == |refs - {p}| + |objects - RefObjects(refs - {p})|
  {
    MinusRef(refs, p);
    OneMoreReferenced(objects, RefObjects(refs - {p}), ObjOf(refs[p]));
    assert (refs - {p}).Keys == refs.Keys - {p};
  }

  lemma NoRefsAtAll(refs: map<RefPath, Record>, objects: map<ObjPath, ObjectDir>)
    requires refs == map[]
    ensures PartBytes(refs, objects) == Total(Weights(objects)) && objects - RefObjects(refs) == objects
  {
    assert RefObjects(refs) == {};
    assert objects - {} == objects;
    assert RecordBytes(refs) == map[];
  }

  /** Bytes and count of referenced objects and of the rest add up to all objects. */
  lemma {:induction false} PartsAddUp(refs: map<RefPath, Record>, objects: map<ObjPath, ObjectDir>)
    requires Accounted(refs, objects)
    ensures PartBytes(refs, objects) == Total(Weights(objects))
    ensures |refs| + |objects - RefObjects(refs)| == |objects|
    decreases refs
  {
    if refs == map[] {
      NoRefsAtAll(refs, objects);
    } else {
      var p :| p in refs;
      PartsAddUp(refs - {p}, objects);
      OneRefLess(refs, objects, p);
      OneRefFewer(refs, objects, p);
    }
  }

  lemma OneMoreReferenced(objects: map<ObjPath, ObjectDir>, named: set<ObjPath>, o: ObjPath)
    requires o in objects && o !in named
    ensures Total(Weights(objects - named)) == ObjectBytes(objects[o]) + Total(Weights(objects - (named + {o})))
    ensures |objects - named| == 1 + |objects - (named + {o})|
  {
    TotalRemove(Weights(objects - named), o);
    assert Weights(objects - named) - {o} == Weights(objects - (named + {o}));
    assert (objects - named).Keys == (objects - (named + {o})).Keys + {o};
  }

  lemma AccountedWithout(refs: map<RefPath, Record>, objects: map<ObjPath, ObjectDir>, p: RefPath)
    requires Accounted(refs, objects) && p in refs
    ensures Accounted(refs - {p}, objects - {ObjOf(refs[p])})
    ensures objects - {ObjOf(refs[p])} - RefObjects(refs - {p}) == objects - RefObjects(refs)
  {
    MinusRef(refs, p);
  }

  lemma ReplacedAside(fs: Fs, leased: set<ObjPath>, p: RefPath)
    requires Sound(fs, leased) && RefAt(fs, p).Some?
    ensures ObjOf(RefAt(fs, p).value) in fs.objects
    ensures Total(RecordBytes(ParsedRefs(fs) - {p})) + Total(Weights(Orphans(fs)))
         == Total(Weights(fs.objects - {ObjOf(RefAt(fs, p).value)}))
    ensures |ParsedRefs(fs) - {p}| + |Orphans(fs)| == |fs.objects - {ObjOf(RefAt(fs, p).value)}|
    ensures ObjectBytes(fs.objects[ObjOf(RefAt(fs, p).value)]) == RefAt(fs, p).value.storedBytes
  {
    var refs := ParsedRefs(fs);
    SoundAccounted(fs, leased);
    assert refs[p] == RefAt(fs, p).value;
    AccountedWithout(refs, fs.objects, p);
    PartsAddUp(refs - {p}, fs.objects - {ObjOf(refs[p])});
  }

  lemma RetainedIsLeased(fs: Fs, locks: Locks, p: RefPath)
    requires Sound(fs, locks.All()) && RefAt(fs, p).Some?
    ensures Retained(fs, locks, Some(p)) <==> ObjOf(RefAt(fs, p).value) in locks.All()
  {
    assert RefOk(p, fs.refs[p], fs.objects);
  }

  lemma UsedFormula(fs: Fs, locks: Locks, p: RefPath, bytes: nat, entries: nat)
    requires bytes == Total(RecordBytes(ParsedRefs(fs) - {p})) + Total(Weights(Orphans(fs)))
    requires entries == |ParsedRefs(fs) - {p}| + |Orphans(fs)|
    ensures Retained(fs, locks, Some(p)) ==>
              && UsedBytes(fs, locks, Some(p)) == bytes + RefAt(fs, p).value.storedBytes
              && UsedEntries(fs, locks, Some(p)) == entries + 1
    ensures !Retained(fs, locks, Some(p)) ==>
              UsedBytes(fs, locks, Some(p)) == bytes && UsedEntries(fs, locks, Some(p)) == entries
  {
  }

  /** The replaced generation goes: what is used is everything else. */
  lemma UsedWhenGoing(fs: Fs, locks: Locks, p: RefPath)
    requires Sound(fs, locks.All()) && RefAt(fs, p).Some? && ObjOf(RefAt(fs, p).value) !in locks.All()
    ensures UsedBytes(fs, locks, Some(p)) == Total(Weights(fs.objects - {ObjOf(RefAt(fs, p).value)}))
    ensures UsedEntries(fs, locks, Some(p)) == |fs.objects - {ObjOf(RefAt(fs, p).value)}|
  {
    ReplacedAside(fs, locks.All(), p);
    RetainedIsLeased(fs, locks, p);
    var o := ObjOf(RefAt(fs, p).value);
    UsedFormula(fs, locks, p, Total(Weights(fs.objects - {o})), |fs.objects - {o}|);
  }

  lemma NothingGone(objects: map<ObjPath, ObjectDir>, o: ObjPath)
    requires o in objects
    ensures Total(Weights(objects)) == ObjectBytes(objects[o]) + Total(Weights(objects - {o}))
    ensures |objects| == 1 + |objects - {o}|
  {
    TotalRemove(Weights(objects), o);
    assert Weights(objects) - {o} == Weights(objects - {o});
    assert objects.Keys == (objects - {o}).Keys + {o};
  }

  /** The replaced generation stays: what is used is everything. */
  lemma UsedWhenRetained(fs: Fs, locks: Locks, p: RefPath)
    requires Sound(fs, locks.All()) && RefAt(fs, p).Some? && ObjOf(RefAt(fs, p).value) in locks.All()
    ensures UsedBytes(fs, locks, Some(p)) == Total(Weights(fs.objects))
    ensures UsedEntries(fs, locks, Some(p)) == |fs.objects|
  {
    RetainedIsLeased(fs, locks, p);
    RetainedAddsUp(fs, locks.All(), p);
    UsedFormula(fs, locks, p, Total(Weights(fs.objects)) - RefAt(fs, p).value.storedBytes, |fs.objects| - 1);
  }

  lemma RetainedAddsUp(fs: Fs, leased: set<ObjPath>, p: RefPath)
    requires Sound(fs, leased) && RefAt(fs, p).Some?
    ensures Total(RecordBytes(ParsedRefs(fs) - {p})) + Total(Weights(Orphans(fs))) + RefAt(fs, p).value.storedBytes
         == Total(Weights(fs.objects))
    ensures |ParsedRefs(fs) - {p}| + |Orphans(fs)| + 1 == |fs.objects|
  {
    ReplacedAside(fs, leased, p);
    NothingGone(fs.objects, ObjOf(RefAt(fs, p).value));
  }

  lemma NoRef(fs: Fs, p: RefPath)
    requires RefAt(fs, p).None?
    ensures ParsedRefs(fs) - {p} == ParsedRefs(fs)
  {
  }

  lemma UsedWithoutPrior(fs: Fs, locks: Locks, p: RefPath)
    requires Sound(fs, locks.All()) && RefAt(fs, p).None?
    ensures UsedBytes(fs, locks, Some(p)) == Total(Weights(fs.objects))
    ensures UsedEntries(fs, locks, Some(p)) == |fs.objects|
  {
    NoRef(fs, p);
    AllAddsUp(fs, locks.All());
    UsedFormula(fs, locks, p, Total(Weights(fs.objects)), |fs.objects|);
  }

  lemma AllAddsUp(fs: Fs, leased: set<ObjPath>)
    requires Sound(fs, leased)
    ensures Total(RecordBytes(ParsedRefs(fs))) + Total(Weights(Orphans(fs))) == Total(Weights(fs.objects))
    ensures |ParsedRefs(fs)| + |Orphans(fs)| == |fs.objects|
  {
    SoundAccounted(fs, leased);
    PartsAddUp(ParsedRefs(fs), fs.objects);
  }

  lemma FitsAll(objects: map<ObjPath, ObjectDir>, incoming: nat, limits: Limits)
    ensures Fits(objects, {}, incoming, limits)
       <==> Total(Weights(objects)) + incoming <= limits.maxBytes && |objects| + 1 <= limits.maxEntries
  {
    assert objects - {} == objects;
  }

  /**
   * The admission test, which adds up records and scans for orphans, decides exactly whether all
   * objects on disk, less the replaced generation unless leased, leave room for the incoming entry.
   */
  lemma RoomIsFits(fs: Fs, locks: Locks, p: RefPath, incoming: nat, limits: Limits)
    requires Sound(fs, locks.All()) && incoming > 0
    ensures var prior := RefAt(fs, p);
            var retained := prior.Some? && ObjOf(prior.value) in locks.All();
            Room(fs, locks, Some(p), incoming, limits) <==> Fits(fs.objects, Going(prior, retained), incoming, limits)
  {
    if RefAt(fs, p).None? {
      UsedWithoutPrior(fs, locks, p);
      FitsAll(fs.objects, incoming, limits);
    } else if ObjOf(RefAt(fs, p).value) in locks.All() {
      UsedWhenRetained(fs, locks, p);
      FitsAll(fs.objects, incoming, limits);
    } else {
      UsedWhenGoing(fs, locks, p);
    }
  }
}
