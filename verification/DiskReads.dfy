/**
 * Refs that cannot be read when a sweep or a rollback looks at them.  Both take such a ref for absent
 * and may delete the object it names.  These are statements about every sound disk, hence about every
 * disk of every run: which refs lose their objects, and that the next clearing of invalid refs, with
 * which every publication, reap and open begins, removes exactly those.
 */
module DiskReads {
  import opened Wrappers
  import opened DiskModel
  import opened DiskProtocol
  import opened DiskRoom
  import opened DiskTraces
  import opened DiskPublication
  import opened DiskCaches
  import DiskWitnesses

  /** Refs whose object is not there, or not whole. */
  function Dangling(fs: Fs): set<RefPath> {
    set p | p in fs.refs && !RefOk(p, fs.refs[p], fs.objects)
  }

  /** The disk as it looks to a reader for whom these refs fail. */
  function Seen(fs: Fs, unread: set<RefPath>): Fs {
    fs.(refs := fs.refs - unread)
  }

  /** remove_invalid_refs: a ref that cannot be read is an invalid one. */
  function Cleared(fs: Fs, unread: set<RefPath>): Fs {
    fs.(refs := fs.refs - (InvalidRefs(fs) + unread))
  }

  /** remove_orphan_objects: a ref that cannot be read protects nothing, and stays. */
  function ReapedBlind(fs: Fs, locks: Locks, unread: set<RefPath>): Fs {
    fs.(objects := Reaped(Seen(fs, unread), locks).objects)
  }

  /** The sweep before a publication: some reads fail while refs are checked, others while they are listed. */
  function SweptBlind(fs: Fs, locks: Locks, unchecked: set<RefPath>, unlisted: set<RefPath>): Fs {
    ReapedBlind(Cleared(fs, unchecked), locks, unlisted)
  }

  /** The refs that such a sweep robs of their objects. */
  function Robbed(fs: Fs, locks: Locks, unchecked: set<RefPath>, unlisted: set<RefPath>): set<RefPath> {
    set p | && p in fs.refs && p in unlisted && p !in unchecked
            && RefAt(fs, p).Some? && ObjOf(RefAt(fs, p).value) !in locks.All()
  }

  lemma FewerRefsSound(fs: Fs, leased: set<ObjPath>, gone: set<RefPath>)
    requires Sound(fs, leased)
    ensures Sound(fs.(refs := fs.refs - gone), leased)
  {
  }

  /** Which objects a sweep with unlisted refs deletes, of those that refs name. */
  lemma ObjectLost(fs: Fs, locks: Locks, unread: set<RefPath>, p: RefPath)
    requires Sound(fs, locks.All()) && p in fs.refs
    ensures ObjOf(fs.refs[p].record) in ReapedBlind(fs, locks, unread).objects <==>
              p !in unread || ObjOf(fs.refs[p].record) in locks.All()
  {
    var seen, o := Seen(fs, unread), ObjOf(fs.refs[p].record);
    assert RefOk(p, fs.refs[p], fs.objects);
    BlockedIsLeased(fs, locks, o);
    assert Blocked(seen, locks, o) == Blocked(fs, locks, o);
    if p in unread {
      forall q | q in ParsedRefs(seen)
        ensures ObjOf(ParsedRefs(seen)[q]) != o
      {
        if ObjOf(fs.refs[q].record) == o {
          RefsNeverShare(fs, locks.All(), p, q);
        }
      }
      assert o in Orphans(seen);
    } else {
      assert ParsedRefs(seen)[p] == fs.refs[p].record;
    }
  }

  lemma ReapedBlindDangles(fs: Fs, locks: Locks, unread: set<RefPath>)
    requires Sound(fs, locks.All())
    ensures Dangling(ReapedBlind(fs, locks, unread)) == Robbed(fs, locks, {}, unread)
    ensures forall o | o in locks.All() ::
              o in ReapedBlind(fs, locks, unread).objects && ReapedBlind(fs, locks, unread).objects[o].lease
  {
    var fs' := ReapedBlind(fs, locks, unread);
    forall p | p in fs.refs
      ensures p in Dangling(fs') <==> p in Robbed(fs, locks, {}, unread)
    {
      assert RefOk(p, fs.refs[p], fs.objects);
      ObjectLost(fs, locks, unread, p);
    }
    forall o | o in locks.All()
      ensures o in fs'.objects && fs'.objects[o].lease
    {
      BlockedIsLeased(fs, locks, o);
      assert Blocked(Seen(fs, unread), locks, o) == Blocked(fs, locks, o);
    }
  }

  /** With the dangling refs cleared away a disk is sound again. */
  lemma ClearedIsSound(fs: Fs, leased: set<ObjPath>)
    requires forall o | o in leased :: o in fs.objects && fs.objects[o].lease
    requires forall p | p in Dangling(fs) :: RefAt(fs, p).Some? && ObjOf(RefAt(fs, p).value) !in fs.objects
    ensures Sound(fs, leased) <==> Dangling(fs) == {}
    ensures Cleared(fs, {}) == Seen(fs, Dangling(fs)) && Sound(Cleared(fs, {}), leased)
  {
    forall p | p in fs.refs
      ensures p in InvalidRefs(fs) <==> p in Dangling(fs)
    {
      assert RefOk(p, fs.refs[p], fs.objects) ==> RefStands(fs, p);
    }
    assert InvalidRefs(fs) + {} == Dangling(fs);
  }

  /**
   * A sweep leaves a ref without its object exactly if the ref was readable when checked, unreadable when
   * listed, and its object not leased.  A ref that is unreadable throughout goes with its object.  The
   * next sweep that can read repairs the disk.
   */
  lemma SweepDanglesExactly(fs: Fs, locks: Locks, unchecked: set<RefPath>, unlisted: set<RefPath>)
    requires Sound(fs, locks.All())
    ensures var fs' := SweptBlind(fs, locks, unchecked, unlisted);
            && Dangling(fs') == Robbed(fs, locks, unchecked, unlisted)
            && (Sound(fs', locks.All()) <==> Robbed(fs, locks, unchecked, unlisted) == {})
            && Cleared(fs', {}) == Seen(fs', Robbed(fs, locks, unchecked, unlisted))
            && Sound(Cleared(fs', {}), locks.All())
  {
    hide Sound, RefOk, Dangling, InvalidRefs, Reaped;
    var checked := Cleared(fs, unchecked);
    var fs' := SweptBlind(fs, locks, unchecked, unlisted);
    SoundHasNoInvalid(fs, locks.All());
    FewerRefsSound(fs, locks.All(), InvalidRefs(fs) + unchecked);
    ReapedBlindDangles(checked, locks, unlisted);
    assert Robbed(checked, locks, {}, unlisted) == Robbed(fs, locks, unchecked, unlisted);
    forall p | p in Dangling(fs')
      ensures RefAt(fs', p).Some? && ObjOf(RefAt(fs', p).value) !in fs'.objects
    {
      ObjectLost(checked, locks, unlisted, p);
    }
    ClearedIsSound(fs', locks.All());
  }

  // ------------------------------------------------------------------ rollbacks

  /** The rollback of a publication whose ref cannot be read: taken as not published. */
  function RolledBackBlind(fs: Fs, locks: Locks, j: Job): Fs {
    Removed(fs, locks, ObjOf(j.record))
  }

  /**
   * Harmless before the ref is published.  After that the published ref dangles, alone, and the next
   * clearing leaves the disk as it was before the commit but for the ref of this key.
   */
  lemma RollbackDanglesExactly(fs: Fs, locks: Locks, j: Job)
    requires Sound(fs, locks.All()) && JobOk(j) && FreshName(fs, locks, j.record.generation)
    ensures RolledBackBlind(Installed(fs, j), locks, j) == fs
    ensures var fs' := RolledBackBlind(Bound(fs, j), locks, j);
            && Dangling(fs') == {PathOf(j.key)} && !Sound(fs', locks.All())
            && Cleared(fs', {}) == Seen(fs, {PathOf(j.key)}) && Sound(Cleared(fs', {}), locks.All())
  {
    hide Complete, InvalidRefs;
    var p, o := PathOf(j.key), ObjOf(j.record);
    var fs' := RolledBackBlind(Bound(fs, j), locks, j);
    assert fs.objects[o := JobDir(j)] - {o} == fs.objects;
    assert fs' == fs.(refs := fs.refs[p := Parsed(j.record)]);
    SoundHasNoInvalid(fs, locks.All());
    forall q | q in fs'.refs
      ensures q in Dangling(fs') <==> q == p
    {
      if q != p {
        assert q !in Dangling(fs);
      }
    }
    ClearedIsSound(fs', locks.All());
    assert fs'.refs - {p} == fs.refs - {p};
  }

  /**
   * A commit that cannot read the ref it is about to replace has nothing to put back: its rollback
   * restores the disk exactly if there was no ref.
   */
  lemma RollbackWithoutPrior(fs: Fs, locks: Locks, j: Job)
    requires JobOk(j) && FreshName(fs, locks, j.record.generation)
    ensures RolledBack(Bound(fs, j), locks, j, None) == Seen(fs, {PathOf(j.key)})
    ensures RolledBack(Bound(fs, j), locks, j, None) == fs <==> PathOf(j.key) !in fs.refs
  {
    var p, o := PathOf(j.key), ObjOf(j.record);
    assert fs.objects[o := JobDir(j)] - {o} == fs.objects;
    assert fs.refs[p := Parsed(j.record)] - {p} == fs.refs - {p};
    if p !in fs.refs {
      assert fs.refs - {p} == fs.refs;
    } else {
      assert p !in fs.refs - {p};
    }
  }

  lemma FirstEntryIsSound()
    ensures var e := DiskWitnesses.Entry(0);
            && JobOk(e) && e.key == DiskWitnesses.SOME_KEY && FreshName(DiskWitnesses.EMPTY, Locks({}, {}), 0)
            && e.record.generation == 0 && Sound(Bound(DiskWitnesses.EMPTY, e), {})
  {
    DiskWitnesses.EntryOk(0);
    var e := DiskWitnesses.Entry(0);
    JobSeals(e, Installed(DiskWitnesses.EMPTY, e).objects);
  }

  lemma BoundIsAt(fs: Fs, j: Job)
    requires JobOk(j)
    ensures PathOf(j.key) in Bound(fs, j).refs && RefAt(Bound(fs, j), PathOf(j.key)) == Some(j.record)
  {
  }

  lemma NothingLeased(fs: Fs)
    requires fs.refs == map[]
    ensures Sound(fs, {})
  {
  }

  /** The smallest case of each: the first entry of an empty root. */
  lemma UnreadRefDangles()
    ensures var e := DiskWitnesses.Entry(0);
            var fs := Bound(DiskWitnesses.EMPTY, e);
            && Sound(fs, {}) && Dangling(SweptBlind(fs, Locks({}, {}), {}, {PathOf(e.key)})) == {PathOf(e.key)}
            && Dangling(RolledBackBlind(fs, Locks({}, {}), e)) == {PathOf(e.key)}
  {
    hide Sound, Dangling, SweptBlind, RolledBackBlind, Bound, FreshName, PathOf, RefAt, DiskWitnesses.Entry, JobOk;
    FirstEntryIsSound();
    var locks, e := Locks({}, {}), DiskWitnesses.Entry(0);
    var fs := Bound(DiskWitnesses.EMPTY, e);
    assert locks.All() == {};
    SweepDanglesExactly(fs, locks, {}, {PathOf(e.key)});
    BoundIsAt(DiskWitnesses.EMPTY, e);
    assert Robbed(fs, locks, {}, {PathOf(e.key)}) == {PathOf(e.key)};
    NothingLeased(DiskWitnesses.EMPTY);
    RollbackDanglesExactly(DiskWitnesses.EMPTY, locks, e);
  }
}
