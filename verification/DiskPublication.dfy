/** What a commit does once admitted, as functions of the disk, and why the bounds then hold. */
module DiskPublication {
  import opened Wrappers
  import opened Sums
  import opened DiskModel
  import opened DiskProtocol
  import opened DiskSections
  import opened DiskBounds
  import opened DiskRoom
  import opened DiskTraces

  /** A generation name that nothing on disk and no lease knows. */
  predicate FreshName(fs: Fs, locks: Locks, g: nat) {
    && (forall p | p in fs.refs && fs.refs[p].Parsed? :: fs.refs[p].record.generation != g)
    && (forall o | o in fs.objects :: o.generation != g)
    && (forall o | o in locks.All() :: o.generation != g)
  }

  function FileAt(fs: Fs, p: RefPath): Option<RefFile> {
    if p in fs.refs then Some(fs.refs[p]) else None
  }

  function Installed(fs: Fs, j: Job): Fs
    requires JobOk(j)
  {
    Apply(Install(ObjOf(j.record), JobDir(j)), fs)
  }

  function Bound(fs: Fs, j: Job): Fs
    requires JobOk(j)
  {
    Apply(Bind(PathOf(j.key), Parsed(j.record)), Installed(fs, j))
  }

  /** The ref goes back to the bytes read before, if it still is the one published; then the object goes. */
  function RolledBack(fs: Fs, locks: Locks, j: Job, prior: Option<RefFile>): Fs {
    var p := PathOf(j.key);
    var restored := if RefAt(fs, p) != Some(j.record) then fs
                    else if prior.Some? then Apply(Bind(p, prior.value), fs) else Apply(Unbind(p), fs);
    Removed(restored, locks, ObjOf(j.record))
  }

  /** The generation a stored commit replaces: named by the old record, looked for under the new identity. */
  function OldObject(fs: Fs, j: Job): Option<ObjPath> {
    match RefAt(fs, PathOf(j.key))
    case None => None
    case Some(r) => Some(ObjPath(j.record.identityDigest, r.generation))
  }

  function Kept(fs: Fs, locks: Locks, j: Job): Fs
    requires JobOk(j)
  {
    match OldObject(fs, j)
    case None => Bound(fs, j)
    case Some(o) => if o == ObjOf(j.record) then Bound(fs, j) else Removed(Bound(fs, j), locks, o)
  }

  lemma RollbackRestores(fs: Fs, locks: Locks, j: Job)
    requires JobOk(j) && FreshName(fs, locks, j.record.generation)
    ensures RolledBack(Installed(fs, j), locks, j, FileAt(fs, PathOf(j.key))) == fs
    ensures RolledBack(Bound(fs, j), locks, j, FileAt(fs, PathOf(j.key))) == fs
  {
    var o, p := ObjOf(j.record), PathOf(j.key);
    assert fs.objects[o := JobDir(j)] - {o} == fs.objects;
    if p in fs.refs {
      assert fs.refs[p := Parsed(j.record)][p := fs.refs[p]] == fs.refs;
    } else {
      assert fs.refs[p := Parsed(j.record)] - {p} == fs.refs;
    }
  }

  lemma BoundReaches(fs: Fs, leased: set<ObjPath>, j: Job)
    requires JobOk(j) && ObjOf(j.record) !in fs.objects
    ensures Reaches(fs, Bound(fs, j), leased)
  {
    ReachesSelf(fs, leased);
    ReachesByStep(fs, fs, Install(ObjOf(j.record), JobDir(j)), leased);
    JobSeals(j, Installed(fs, j).objects);
    ReachesByStep(fs, Installed(fs, j), Bind(PathOf(j.key), Parsed(j.record)), leased);
  }

  /** On a sound disk the old generation is the one the ref named, and nothing refers to it any more. */
  lemma OldIsFree(fs: Fs, leased: set<ObjPath>, j: Job, r: Record)
    requires JobOk(j) && ObjOf(j.record) !in fs.objects && Sound(fs, leased) && RefAt(fs, PathOf(j.key)) == Some(r)
    ensures OldObject(fs, j) == Some(ObjOf(r)) && ObjOf(r) in fs.objects && ObjOf(r) != ObjOf(j.record)
    ensures !Referenced(Bound(fs, j), ObjOf(r))
  {
    assert RefOk(PathOf(j.key), fs.refs[PathOf(j.key)], fs.objects);
    forall q | q in Bound(fs, j).refs
      ensures !Refers(Bound(fs, j).refs[q], ObjOf(r))
    {
      if q != PathOf(j.key) && Refers(fs.refs[q], ObjOf(r)) {
        OnlyReferrer(fs, leased, PathOf(j.key), r, q);
      }
    }
  }

  /** A stored commit is a series of protocol steps. */
  lemma KeptReaches(fs: Fs, locks: Locks, j: Job)
    requires JobOk(j) && ObjOf(j.record) !in fs.objects && Sound(fs, locks.All())
    ensures Reaches(fs, Kept(fs, locks, j), locks.All())
  {
    BoundReaches(fs, locks.All(), j);
    if RefAt(fs, PathOf(j.key)).Some? {
      var r := RefAt(fs, PathOf(j.key)).value;
      OldIsFree(fs, locks.All(), j, r);
      ReachesSound(fs, Bound(fs, j), locks.All());
      RemovedReaches(Bound(fs, j), locks, ObjOf(r));
      ReachesTrans(fs, Bound(fs, j), Kept(fs, locks, j), locks.All());
    }
  }

  /** The job's key is bound to its own capture; every other ref and object is as before. */
  lemma KeptIsStoredView(fs: Fs, locks: Locks, j: Job)
    requires JobOk(j) && ObjOf(j.record) !in fs.objects && Sound(fs, locks.All())
    ensures StoredView(fs, Kept(fs, locks, j), j)
  {
    var o := ObjOf(j.record);
    if RefAt(fs, PathOf(j.key)).Some? {
      OldIsFree(fs, locks.All(), j, RefAt(fs, PathOf(j.key)).value);
    }
    assert Kept(fs, locks, j).objects - (Replaced(fs, j) + {o}) == fs.objects - (Replaced(fs, j) + {o});
  }

  /** What is left after a stored commit: all objects but the replaced one, unless a lease holds it. */
  lemma StoredObjects(fs: Fs, locks: Locks, j: Job)
    requires JobOk(j) && ObjOf(j.record) !in fs.objects && Sound(fs, locks.All())
    ensures var prior := RefAt(fs, PathOf(j.key));
            var retained := prior.Some? && ObjOf(prior.value) in locks.All();
            Kept(fs, locks, j).objects == fs.objects[ObjOf(j.record) := JobDir(j)] - Going(prior, retained)
  {
    var prior := RefAt(fs, PathOf(j.key));
    var all := fs.objects[ObjOf(j.record) := JobDir(j)];
    if prior.Some? {
      OldIsFree(fs, locks.All(), j, prior.value);
      BoundReaches(fs, locks.All(), j);
      ReachesSound(fs, Bound(fs, j), locks.All());
      BlockedIsLeased(Bound(fs, j), locks, ObjOf(prior.value));
    }
    assert all - {} == all;
  }

  lemma FitsInBounds(fs: Fs, j: Job, prior: Option<Record>, retained: bool, limits: Limits)
    requires JobOk(j) && ObjOf(j.record) !in fs.objects && ObjOf(j.record) !in Going(prior, retained)
    requires Fits(fs.objects, Going(prior, retained), j.record.storedBytes, limits)
    ensures InBounds(fs.objects[ObjOf(j.record) := JobDir(j)] - Going(prior, retained), limits)
  {
    JobBytes(j);
    InstalledInBounds(fs.objects, ObjOf(j.record), JobDir(j), Going(prior, retained), limits);
  }

  lemma NotGoing(fs: Fs, leased: set<ObjPath>, j: Job, prior: Option<Record>, retained: bool)
    requires JobOk(j) && ObjOf(j.record) !in fs.objects && Sound(fs, leased) && prior == RefAt(fs, PathOf(j.key))
    ensures ObjOf(j.record) !in Going(prior, retained)
  {
    if prior.Some? {
      OldIsFree(fs, leased, j, prior.value);
    }
  }

  /** If the admission test passed, what a stored commit leaves is within both limits. */
  lemma KeptInBounds(fs: Fs, locks: Locks, j: Job, limits: Limits)
    requires JobOk(j) && FreshName(fs, locks, j.record.generation) && Sound(fs, locks.All())
    requires j.record.storedBytes > 0 && Room(fs, locks, Some(PathOf(j.key)), j.record.storedBytes, limits)
    ensures InBounds(Kept(fs, locks, j).objects, limits)
  {
    var prior := RefAt(fs, PathOf(j.key));
    var retained := prior.Some? && ObjOf(prior.value) in locks.All();
    RoomIsFits(fs, locks, PathOf(j.key), j.record.storedBytes, limits);
    NotGoing(fs, locks.All(), j, prior, retained);
    FitsInBounds(fs, j, prior, retained, limits);
    StoredObjects(fs, locks, j);
  }

  lemma {:induction false} SumSeqPositive(s: seq<nat>)
    requires |s| > 0 && forall i | 0 <= i < |s| :: s[i] > 0
    ensures SumSeq(s) > 0
  {
  }
}
