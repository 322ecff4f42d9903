/**
 * What the removal routines of one instance do to the disk, as functions of the disk: each is a
 * series of single removals, and on a sound disk those are steps the protocol allows.
 */
module DiskTraces {
  import opened Wrappers
  import opened Sums
  import opened DiskModel
  import opened DiskProtocol
  import opened DiskRoom

  // ------------------------------------------------------------- series of steps

  function Perform(acts: seq<Act>, fs: Fs): Fs {
    if acts == [] then fs else Apply(acts[|acts| - 1], Perform(acts[..|acts| - 1], fs))
  }

  ghost predicate AllAllowed(acts: seq<Act>, fs: Fs, leased: set<ObjPath>) {
    acts != [] ==>
      && AllAllowed(acts[..|acts| - 1], fs, leased)
      && Allowed(acts[|acts| - 1], Perform(acts[..|acts| - 1], fs), leased)
  }

  /** Protocol steps alone lead from one disk to the other. */
  ghost predicate Reaches(fs: Fs, fs': Fs, leased: set<ObjPath>) {
    exists acts :: AllAllowed(acts, fs, leased) && Perform(acts, fs) == fs'
  }

  lemma ReachesSelf(fs: Fs, leased: set<ObjPath>)
    ensures Reaches(fs, fs, leased)
  {
    assert AllAllowed([], fs, leased) && Perform([], fs) == fs;
  }

  lemma ReachesByStep(fs: Fs, mid: Fs, act: Act, leased: set<ObjPath>)
    requires Reaches(fs, mid, leased) && Allowed(act, mid, leased)
    ensures Reaches(fs, Apply(act, mid), leased)
  {
    var acts :| AllAllowed(acts, fs, leased) && Perform(acts, fs) == mid;
    assert (acts + [act])[..|acts|] == acts;
    assert AllAllowed(acts + [act], fs, leased) && Perform(acts + [act], fs) == Apply(act, mid);
  }

  lemma {:induction false} PerformKeepsSound(acts: seq<Act>, fs: Fs, leased: set<ObjPath>)
    requires Sound(fs, leased) && AllAllowed(acts, fs, leased)
    ensures Sound(Perform(acts, fs), leased)
  {
    if acts != [] {
      PerformKeepsSound(acts[..|acts| - 1], fs, leased);
      StepKeepsSound(acts[|acts| - 1], Perform(acts[..|acts| - 1], fs), leased);
    }
  }

  lemma ReachesSound(fs: Fs, fs': Fs, leased: set<ObjPath>)
    requires Sound(fs, leased) && Reaches(fs, fs', leased)
    ensures Sound(fs', leased)
  {
    var acts :| AllAllowed(acts, fs, leased) && Perform(acts, fs) == fs';
    PerformKeepsSound(acts, fs, leased);
  }

  lemma {:induction false} ReachesAll(fs: Fs, mid: Fs, acts: seq<Act>, leased: set<ObjPath>)
    requires Reaches(fs, mid, leased) && AllAllowed(acts, mid, leased)
    ensures Reaches(fs, Perform(acts, mid), leased)
  {
    if acts != [] {
      ReachesAll(fs, mid, acts[..|acts| - 1], leased);
      ReachesByStep(fs, Perform(acts[..|acts| - 1], mid), acts[|acts| - 1], leased);
    }
  }

  lemma ReachesTrans(fs: Fs, mid: Fs, fs': Fs, leased: set<ObjPath>)
    requires Reaches(fs, mid, leased) && Reaches(mid, fs', leased)
    ensures Reaches(fs, fs', leased)
  {
    var acts :| AllAllowed(acts, mid, leased) && Perform(acts, mid) == fs';
    ReachesAll(fs, mid, acts, leased);
  }

  // --------------------------------------------------------- removing an object

  function Removed(fs: Fs, locks: Locks, o: ObjPath): Fs {
    if Blocked(fs, locks, o) then fs else fs.(objects := fs.objects - {o})
  }

  /** On a sound disk exactly the leased generations are protected. */
  lemma BlockedIsLeased(fs: Fs, locks: Locks, o: ObjPath)
    requires Sound(fs, locks.All())
    ensures Blocked(fs, locks, o) <==> o in locks.All()
  {
  }

  lemma RemovedReaches(fs: Fs, locks: Locks, o: ObjPath)
    requires Sound(fs, locks.All()) && !Referenced(fs, o)
    ensures Reaches(fs, Removed(fs, locks, o), locks.All())
  {
    ReachesSelf(fs, locks.All());
    BlockedIsLeased(fs, locks, o);
    if !Blocked(fs, locks, o) {
      ReachesByStep(fs, fs, Delete(o), locks.All());
    }
  }

  // ------------------------------------------------- removing a ref and its object

  function Dropped(fs: Fs, locks: Locks, p: RefPath, r: Record): Fs {
    Removed(Apply(Unbind(p), fs), locks, ObjOf(r))
  }

  lemma DroppedReaches(fs: Fs, locks: Locks, p: RefPath, r: Record)
    requires Sound(fs, locks.All()) && RefAt(fs, p) == Some(r)
    ensures Reaches(fs, Dropped(fs, locks, p, r), locks.All())
  {
    var mid := Apply(Unbind(p), fs);
    ReachesSelf(fs, locks.All());
    ReachesByStep(fs, fs, Unbind(p), locks.All());
    ReachesSound(fs, mid, locks.All());
    UnboundIsFree(fs, locks.All(), p, r);
    RemovedReaches(mid, locks, ObjOf(r));
    ReachesTrans(fs, mid, Dropped(fs, locks, p, r), locks.All());
  }

  // ---------------------------------------------------------- removing many refs

  /** Refs without their objects, and the objects that nothing protects. */
  function Swept(fs: Fs, locks: Locks, ps: set<RefPath>): Fs {
    Fs(fs.refs - ps, fs.objects - SweptObjects(fs, locks, ps))
  }

  function SweptObjects(fs: Fs, locks: Locks, ps: set<RefPath>): set<ObjPath> {
    set p | p in ps && RefAt(fs, p).Some? && !Blocked(fs, locks, ObjOf(RefAt(fs, p).value)) :: ObjOf(RefAt(fs, p).value)
  }

  lemma SweptObjectsGrow(fs: Fs, locks: Locks, done: set<RefPath>, p: RefPath, r: Record)
    requires RefAt(fs, p) == Some(r)
    ensures SweptObjects(fs, locks, done + {p})
         == SweptObjects(fs, locks, done) + (if Blocked(fs, locks, ObjOf(r)) then {} else {ObjOf(r)})
  {
  }

  /** Sweeping one more ref is dropping it from what sweeping the others left. */
  lemma SweepOneMore(fs: Fs, locks: Locks, done: set<RefPath>, p: RefPath, r: Record)
    requires RefAt(fs, p) == Some(r) && p !in done
    ensures Dropped(Swept(fs, locks, done), locks, p, r) == Swept(fs, locks, done + {p})
    ensures RefAt(Swept(fs, locks, done), p) == Some(r)
  {
    var mid, o := Swept(fs, locks, done), ObjOf(r);
    SweptObjectsGrow(fs, locks, done, p, r);
    assert mid.refs - {p} == fs.refs - (done + {p});
    if !Blocked(fs, locks, o) {
      assert !Blocked(mid, locks, o);
      assert mid.objects - {o} == fs.objects - SweptObjects(fs, locks, done + {p});
    }
  }

  // --------------------------------------------------- orphans that leases keep alive

  ghost predicate OrphansHeld(fs: Fs, locks: Locks) {
    forall o | o in Orphans(fs) :: Blocked(fs, locks, o)
  }

  lemma DroppedOrphans(fs: Fs, locks: Locks, p: RefPath, r: Record)
    requires OrphansHeld(fs, locks) && RefAt(fs, p) == Some(r)
    ensures OrphansHeld(Dropped(fs, locks, p, r), locks)
  {
    var fs' := Dropped(fs, locks, p, r);
    forall o | o in Orphans(fs')
      ensures Blocked(fs', locks, o)
    {
      if o in RefObjects(ParsedRefs(fs)) {
        var q :| q in ParsedRefs(fs) && ObjOf(ParsedRefs(fs)[q]) == o;
        assert q == p || q in ParsedRefs(fs');
      } else {
        assert o in Orphans(fs);
      }
    }
  }

  lemma {:induction false} SweptOrphans(fs: Fs, locks: Locks, ps: set<RefPath>)
    requires OrphansHeld(fs, locks) && forall p | p in ps :: RefAt(fs, p).Some?
    ensures OrphansHeld(Swept(fs, locks, ps), locks)
    decreases ps
  {
    if ps == {} {
      assert Swept(fs, locks, ps) == fs;
    } else {
      var p :| p in ps;
      SweptOrphans(fs, locks, ps - {p});
      SweepOneMore(fs, locks, ps - {p}, p, RefAt(fs, p).value);
      assert ps - {p} + {p} == ps;
      DroppedOrphans(Swept(fs, locks, ps - {p}), locks, p, RefAt(fs, p).value);
    }
  }

  // ------------------------------------------------------------ removing orphans

  function FreeOrphans(fs: Fs, locks: Locks): set<ObjPath> {
    set o | o in Orphans(fs) && !Blocked(fs, locks, o)
  }

  function Reaped(fs: Fs, locks: Locks): Fs {
    fs.(objects := fs.objects - FreeOrphans(fs, locks))
  }

  lemma ReapedHeld(fs: Fs, locks: Locks)
    ensures OrphansHeld(Reaped(fs, locks), locks)
  {
    var fs' := Reaped(fs, locks);
    assert ParsedRefs(fs') == ParsedRefs(fs);
    forall o | o in Orphans(fs')
      ensures Blocked(fs', locks, o)
    {
      assert o in Orphans(fs);
    }
  }

  lemma OrphanUnreferenced(fs: Fs, o: ObjPath)
    requires o !in RefObjects(ParsedRefs(fs))
    ensures !Referenced(fs, o)
  {
    forall p | p in fs.refs
      ensures !Refers(fs.refs[p], o)
    {
      if fs.refs[p].Parsed? {
        assert p in ParsedRefs(fs);
      }
    }
  }

  // ------------------------------------------------------------ series of removals

  /** One removal: a ref with its object, or an object that no readable ref names. */
  datatype Removal = OfRef(path: RefPath) | OfOrphan(target: ObjPath)

  predicate Removable(fs: Fs, x: Removal) {
    match x
    case OfRef(p) => RefAt(fs, p).Some?
    case OfOrphan(o) => o in Orphans(fs)
  }

  function Less(fs: Fs, locks: Locks, x: Removal): Fs
    requires Removable(fs, x)
  {
    match x
    case OfRef(p) => Dropped(fs, locks, p, RefAt(fs, p).value)
    case OfOrphan(o) => Removed(fs, locks, o)
  }

  /** Removals one by one, none of a thing that is not there, lead from one disk to the other. */
  ghost predicate SweepsBy(fs: Fs, fs': Fs, locks: Locks, xs: seq<Removal>)
    decreases xs
  {
    if xs == [] then fs' == fs
    else Removable(fs, xs[0]) && SweepsBy(Less(fs, locks, xs[0]), fs', locks, xs[1..])
  }

  ghost predicate Sweeps(fs: Fs, fs': Fs, locks: Locks) {
    exists xs :: SweepsBy(fs, fs', locks, xs)
  }

  lemma SweepsSelf(fs: Fs, locks: Locks)
    ensures Sweeps(fs, fs, locks)
  {
    assert SweepsBy(fs, fs, locks, []);
  }

  lemma {:induction false} SweepsByConcat(fs: Fs, mid: Fs, fs': Fs, locks: Locks, xs: seq<Removal>, ys: seq<Removal>)
    requires SweepsBy(fs, mid, locks, xs) && SweepsBy(mid, fs', locks, ys)
    ensures SweepsBy(fs, fs', locks, xs + ys)
    decreases xs
  {
    if xs == [] {
      assert xs + ys == ys;
    } else {
      SweepsByConcat(Less(fs, locks, xs[0]), mid, fs', locks, xs[1..], ys);
      assert (xs + ys)[1..] == xs[1..] + ys;
    }
  }

  lemma SweepsTrans(fs: Fs, mid: Fs, fs': Fs, locks: Locks)
    requires Sweeps(fs, mid, locks) && Sweeps(mid, fs', locks)
    ensures Sweeps(fs, fs', locks)
  {
    var xs :| SweepsBy(fs, mid, locks, xs);
    var ys :| SweepsBy(mid, fs', locks, ys);
    SweepsByConcat(fs, mid, fs', locks, xs, ys);
  }

  lemma SweepsOne(fs: Fs, locks: Locks, x: Removal)
    requires Removable(fs, x)
    ensures Sweeps(fs, Less(fs, locks, x), locks)
  {
    assert SweepsBy(fs, Less(fs, locks, x), locks, [x]);
  }

  lemma RemovalReaches(fs: Fs, locks: Locks, x: Removal)
    requires Sound(fs, locks.All()) && Removable(fs, x)
    ensures Reaches(fs, Less(fs, locks, x), locks.All()) && Sound(Less(fs, locks, x), locks.All())
  {
    match x {
      case OfRef(p) => DroppedReaches(fs, locks, p, RefAt(fs, p).value);
      case OfOrphan(o) =>
        OrphanUnreferenced(fs, o);
        RemovedReaches(fs, locks, o);
    }
    ReachesSound(fs, Less(fs, locks, x), locks.All());
  }

  lemma {:induction false} SweepsByReaches(fs: Fs, fs': Fs, locks: Locks, xs: seq<Removal>)
    requires Sound(fs, locks.All()) && SweepsBy(fs, fs', locks, xs)
    ensures Reaches(fs, fs', locks.All())
    decreases xs
  {
    if xs == [] {
      ReachesSelf(fs, locks.All());
    } else {
      RemovalReaches(fs, locks, xs[0]);
      SweepsByReaches(Less(fs, locks, xs[0]), fs', locks, xs[1..]);
      ReachesTrans(fs, Less(fs, locks, xs[0]), fs', locks.All());
    }
  }

  /** On a sound disk every series of removals is one of allowed steps, and leaves the disk sound. */
  lemma SweepsReaches(fs: Fs, fs': Fs, locks: Locks)
    requires Sound(fs, locks.All()) && Sweeps(fs, fs', locks)
    ensures Reaches(fs, fs', locks.All()) && Sound(fs', locks.All())
  {
    var xs :| SweepsBy(fs, fs', locks, xs);
    SweepsByReaches(fs, fs', locks, xs);
    ReachesSound(fs, fs', locks.All());
  }

  lemma DroppedSweeps(fs: Fs, locks: Locks, p: RefPath, r: Record)
    requires RefAt(fs, p) == Some(r)
    ensures Sweeps(fs, Dropped(fs, locks, p, r), locks)
  {
    SweepsOne(fs, locks, OfRef(p));
  }

  /** Refs swept together are refs dropped one by one, in any order. */
  lemma {:induction false} SweptSweeps(fs: Fs, locks: Locks, ps: set<RefPath>)
    requires forall p | p in ps :: RefAt(fs, p).Some?
    ensures Sweeps(fs, Swept(fs, locks, ps), locks)
    decreases ps
  {
    if ps == {} {
      assert Swept(fs, locks, ps) == fs;
      SweepsSelf(fs, locks);
    } else {
      var p :| p in ps;
      var mid := Swept(fs, locks, ps - {p});
      SweptSweeps(fs, locks, ps - {p});
      SweepOneMore(fs, locks, ps - {p}, p, RefAt(fs, p).value);
      assert ps - {p} + {p} == ps;
      DroppedSweeps(mid, locks, p, RefAt(fs, p).value);
      SweepsTrans(fs, mid, Swept(fs, locks, ps), locks);
    }
  }

  lemma OrphanGoes(fs: Fs, locks: Locks, o: ObjPath)
    requires o in FreeOrphans(fs, locks)
    ensures Sweeps(fs, fs.(objects := fs.objects - {o}), locks)
  {
    SweepsOne(fs, locks, OfOrphan(o));
  }

  lemma {:induction false} OrphansGo(fs: Fs, locks: Locks, os: set<ObjPath>)
    requires os <= FreeOrphans(fs, locks)
    ensures Sweeps(fs, fs.(objects := fs.objects - os), locks)
    decreases os
  {
    if os == {} {
      assert fs.objects - os == fs.objects;
      SweepsSelf(fs, locks);
    } else {
      var o :| o in os;
      var mid := fs.(objects := fs.objects - (os - {o}));
      OrphansGo(fs, locks, os - {o});
      assert ParsedRefs(mid) == ParsedRefs(fs);
      OrphanGoes(mid, locks, o);
      assert mid.objects - {o} == fs.objects - os;
      SweepsTrans(fs, mid, fs.(objects := fs.objects - os), locks);
    }
  }

  /** Removing the orphans that nothing holds is removing them one by one. */
  lemma ReapedSweeps(fs: Fs, locks: Locks)
    ensures Sweeps(fs, Reaped(fs, locks), locks)
  {
    OrphansGo(fs, locks, FreeOrphans(fs, locks));
  }

  // ------------------------------------------------------- why admission is refused

  /** The generations some hit or reader is holding. */
  function LeasedOnly(objects: map<ObjPath, ObjectDir>, leased: set<ObjPath>): map<ObjPath, ObjectDir> {
    map o | o in objects && o in leased :: objects[o]
  }

  lemma OnlyRefObject(fs: Fs, p: RefPath, o: ObjPath)
    requires o in RefObjects(ParsedRefs(fs)) && ParsedRefs(fs) - {p} == map[]
    ensures RefAt(fs, p).Some? && ObjOf(RefAt(fs, p).value) == o
  {
    var q :| q in ParsedRefs(fs) && ObjOf(ParsedRefs(fs)[q]) == o;
    assert q == p || q in ParsedRefs(fs) - {p};
  }

  lemma LeftObject(fs: Fs, locks: Locks, p: RefPath, o: ObjPath)
    requires Sound(fs, locks.All()) && OrphansHeld(fs, locks) && ParsedRefs(fs) - {p} == map[] && o in fs.objects
    ensures var prior := RefAt(fs, p);
            var retained := prior.Some? && ObjOf(prior.value) in locks.All();
            o in locks.All() <==> o !in Going(prior, retained)
  {
    BlockedIsLeased(fs, locks, o);
    if o in RefObjects(ParsedRefs(fs)) {
      OnlyRefObject(fs, p, o);
    } else {
      assert o in Orphans(fs);
    }
  }

  lemma LeftIsLeased(fs: Fs, locks: Locks, p: RefPath)
    requires Sound(fs, locks.All()) && OrphansHeld(fs, locks) && ParsedRefs(fs) - {p} == map[]
    ensures var prior := RefAt(fs, p);
            var retained := prior.Some? && ObjOf(prior.value) in locks.All();
            fs.objects - Going(prior, retained) == LeasedOnly(fs.objects, locks.All())
  {
    var prior := RefAt(fs, p);
    var retained := prior.Some? && ObjOf(prior.value) in locks.All();
    forall o | o in fs.objects
      ensures o in locks.All() <==> o !in Going(prior, retained)
    {
      LeftObject(fs, locks, p, o);
    }
  }

  /**
   * Once every other ref is gone and no orphan is left that nothing holds, admission is refused
   * exactly when the leased generations and the incoming entry alone exceed a bound.
   */
  lemma RefusedOnlyForLeases(fs: Fs, locks: Locks, p: RefPath, incoming: nat, limits: Limits)
    requires Sound(fs, locks.All()) && OrphansHeld(fs, locks) && incoming > 0
    requires OthersThan(ParsedRefs(fs), Some(p)) == map[]
    ensures Room(fs, locks, Some(p), incoming, limits) <==>
              && Total(Weights(LeasedOnly(fs.objects, locks.All()))) + incoming <= limits.maxBytes
              && |LeasedOnly(fs.objects, locks.All())| + 1 <= limits.maxEntries
  {
    RoomIsFits(fs, locks, p, incoming, limits);
    LeftIsLeased(fs, locks, p);
  }
}
