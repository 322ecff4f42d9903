/**
 * What the methods of one instance leave, as functions of the disk, is what events of its own call lead to:
 * in every world where the call has the exclusive lock on that disk, and with the leases then held,
 * its events alone make the same change and leave the rest of the world as it was.
 */
module DiskSimulation {
  import opened Wrappers
  import opened Schemas
  import opened CacheKeys
  import opened DiskModel
  import opened DiskProtocol
  import opened DiskHistory
  import opened DiskSections
  import opened DiskBounds
  import opened DiskRoom
  import opened DiskTraces
  import opened DiskPublication
  import opened DiskCaches
  import opened DiskPaths

  // ------------------------------------------------------------------ removals

  /** Call `a` holds the exclusive lock, with nothing done yet of task `t`. */
  ghost predicate SweepingOn(w: World, a: nat, t: Task, fs: Fs, leased: set<ObjPath>) {
    Inv(w) && InPhase(w, a, t, Sweeping) && w.fs == fs && LeasedObjects(w) == leased
  }

  predicate Sweeper(t: Task) {
    t.CommitTask? || t.SweepTask?
  }

  /** Where a removal leaves the call: its object is gone, unless leased. */
  function AfterRemoval(w: World, a: nat, t: Task, after: Phase, locks: Locks, o: ObjPath): World
    requires At(w, a)
  {
    Goto(w, a, Exclusive(t, after)).(fs := Removed(w.fs, locks, o))
  }

  lemma RemovalIsStep(w: World, a: nat, t: Task, o: ObjPath, after: Phase, locks: Locks)
    requires InPhase(w, a, t, Removing(o, after)) && LeasedObjects(w) == locks.All()
    requires Blocked(w.fs, locks, o) <==> o in locks.All()
    ensures o in locks.All() ==> SpareObjectStep(w, AfterRemoval(w, a, t, after, locks, o), a, t, o, after)
    ensures o !in locks.All() ==> RemoveObjectStep(w, AfterRemoval(w, a, t, after, locks, o), a, t, o, after)
  {
  }

  lemma RemovalLeads(w: World, a: nat, t: Task, o: ObjPath, after: Phase, locks: Locks)
    requires Inv(w) && InPhase(w, a, t, Removing(o, after)) && LeasedObjects(w) == locks.All()
    ensures Leads(w, a, AfterRemoval(w, a, t, after, locks, o))
  {
    BlockedIsLeased(w.fs, locks, o);
    RemovalIsStep(w, a, t, o, after, locks);
    if o in locks.All() {
      SpareObjectLeads(w, AfterRemoval(w, a, t, after, locks, o), a, t, o, after);
    } else {
      RemoveObjectLeads(w, AfterRemoval(w, a, t, after, locks, o), a, t, o, after);
    }
  }

  /** Taking a ref out, just before its object goes. */
  function Unbound(w: World, a: nat, t: Task, p: RefPath, r: Record): World
    requires At(w, a)
  {
    var after := if t.IfCurrentTask? then Done(false) else Sweeping;
    Goto(w, a, Exclusive(t, Removing(ObjOf(r), after))).(fs := Apply(Unbind(p), w.fs))
  }

  lemma DropRefIs(w: World, a: nat, t: Task, p: RefPath, r: Record)
    requires InPhase(w, a, t, Sweeping) && RefAt(w.fs, p) == Some(r)
    requires Sweeper(t) || t == IfCurrentTask(p, r)
    ensures DropRefStep(w, Unbound(w, a, t, p, r), a, t, p)
  {
  }

  lemma DropLeads(w: World, a: nat, t: Task, p: RefPath, r: Record, locks: Locks)
    requires SweepingOn(w, a, t, w.fs, locks.All()) && RefAt(w.fs, p) == Some(r)
    requires Sweeper(t) || t == IfCurrentTask(p, r)
    ensures var after := if t.IfCurrentTask? then Done(false) else Sweeping;
            Leads(w, a, Goto(w, a, Exclusive(t, after)).(fs := Dropped(w.fs, locks, p, r)))
  {
    var after := if t.IfCurrentTask? then Done(false) else Sweeping;
    var mid := Unbound(w, a, t, p, r);
    DropRefIs(w, a, t, p, r);
    DropRefLeads(w, mid, a, t, p);
    LeadsInv(w, a, mid);
    RemovalLeads(mid, a, t, ObjOf(r), after, locks);
    LeadsTrans(w, a, mid, AfterRemoval(mid, a, t, after, locks, ObjOf(r)));
    GotoTwice(w, a, Exclusive(t, Removing(ObjOf(r), after)), Exclusive(t, after), mid.fs, Dropped(w.fs, locks, p, r));
  }

  /** Only the last place and the last disk count. */
  lemma GotoTwice(w: World, a: nat, pc: Pc, pc': Pc, fs: Fs, fs': Fs)
    requires At(w, a)
    ensures Goto(Goto(w, a, pc).(fs := fs), a, pc').(fs := fs') == Goto(w, a, pc').(fs := fs')
  {
  }

  lemma GotoSame(w: World, a: nat, fs: Fs)
    requires At(w, a)
    ensures Goto(w, a, PcOf(w, a)).(fs := fs) == w.(fs := fs)
  {
    assert w.actors[a := w.actors[a].(pc := PcOf(w, a))] == w.actors;
  }

  /**
   * In every world where some call is sweeping this disk under these leases, its events lead to the
   * other disk, with the call still sweeping and nothing else changed.
   */
  ghost predicate Sweepable(fs: Fs, fs': Fs, leased: set<ObjPath>) {
    forall w, a, t | SweepingOn(w, a, t, fs, leased) && Sweeper(t) :: Leads(w, a, w.(fs := fs'))
  }

  lemma SweepableSelf(fs: Fs, leased: set<ObjPath>)
    ensures Sweepable(fs, fs, leased)
  {
    forall w, a, t | SweepingOn(w, a, t, fs, leased) && Sweeper(t)
      ensures Leads(w, a, w.(fs := fs))
    {
      LeadsSelf(w, a);
    }
  }

  lemma StillSweeping(w: World, a: nat, t: Task, fs: Fs, fs': Fs, leased: set<ObjPath>)
    requires SweepingOn(w, a, t, fs, leased) && Leads(w, a, w.(fs := fs'))
    ensures SweepingOn(w.(fs := fs'), a, t, fs', leased)
  {
    LeadsInv(w, a, w.(fs := fs'));
  }

  lemma SweepableTrans(fs: Fs, mid: Fs, fs': Fs, leased: set<ObjPath>)
    requires Sweepable(fs, mid, leased) && Sweepable(mid, fs', leased)
    ensures Sweepable(fs, fs', leased)
  {
    forall w, a, t | SweepingOn(w, a, t, fs, leased) && Sweeper(t)
      ensures Leads(w, a, w.(fs := fs'))
    {
      SweepOn(w, a, t, fs, mid, fs', leased);
    }
  }

  lemma SweepOn(w: World, a: nat, t: Task, fs: Fs, mid: Fs, fs': Fs, leased: set<ObjPath>)
    requires Sweepable(fs, mid, leased) && Sweepable(mid, fs', leased) && SweepingOn(w, a, t, fs, leased) && Sweeper(t)
    ensures Leads(w, a, w.(fs := fs'))
  {
    StillSweeping(w, a, t, fs, mid, leased);
    LeadsTrans(w, a, w.(fs := mid), w.(fs := mid).(fs := fs'));
  }

  lemma DropSweepable(fs: Fs, locks: Locks, p: RefPath, r: Record)
    requires RefAt(fs, p) == Some(r)
    ensures Sweepable(fs, Dropped(fs, locks, p, r), locks.All())
  {
    hide Leads, Dropped, Inv;
    forall w, a, t | SweepingOn(w, a, t, fs, locks.All()) && Sweeper(t)
      ensures Leads(w, a, w.(fs := Dropped(fs, locks, p, r)))
    {
      DropLeads(w, a, t, p, r, locks);
      GotoSame(w, a, Dropped(fs, locks, p, r));
    }
  }

  lemma ReapOneLeads(w: World, a: nat, t: Task, o: ObjPath, locks: Locks)
    requires SweepingOn(w, a, t, w.fs, locks.All()) && Sweeper(t)
    requires o in w.fs.objects && !Referenced(w.fs, o) && o !in locks.All()
    ensures Leads(w, a, w.(fs := w.fs.(objects := w.fs.objects - {o})))
  {
    var mid := Goto(w, a, Exclusive(t, Removing(o, Sweeping)));
    DropOrphanLeads(w, mid, a, t, o);
    LeadsInv(w, a, mid);
    BlockedIsLeased(w.fs, locks, o);
    RemovalLeads(mid, a, t, o, Sweeping, locks);
    LeadsTrans(w, a, mid, AfterRemoval(mid, a, t, Sweeping, locks, o));
    var fs' := w.fs.(objects := w.fs.objects - {o});
    GotoTwice(w, a, Exclusive(t, Removing(o, Sweeping)), Exclusive(t, Sweeping), w.fs, fs');
    GotoSame(w, a, fs');
  }

  lemma OrphanLeads(w: World, a: nat, t: Task, o: ObjPath, locks: Locks)
    requires SweepingOn(w, a, t, w.fs, locks.All()) && Sweeper(t) && o in Orphans(w.fs)
    ensures Leads(w, a, w.(fs := Removed(w.fs, locks, o)))
  {
    OrphanUnreferenced(w.fs, o);
    BlockedIsLeased(w.fs, locks, o);
    if o in locks.All() {
      LeadsSelf(w, a);
    } else {
      ReapOneLeads(w, a, t, o, locks);
    }
  }

  lemma OrphanSweepable(fs: Fs, locks: Locks, o: ObjPath)
    requires o in Orphans(fs)
    ensures Sweepable(fs, Removed(fs, locks, o), locks.All())
  {
    forall w, a, t | SweepingOn(w, a, t, fs, locks.All()) && Sweeper(t)
      ensures Leads(w, a, w.(fs := Removed(fs, locks, o)))
    {
      OrphanLeads(w, a, t, o, locks);
    }
  }

  lemma {:induction false} SweepsBySimulated(fs: Fs, fs': Fs, locks: Locks, xs: seq<Removal>)
    requires SweepsBy(fs, fs', locks, xs)
    ensures Sweepable(fs, fs', locks.All())
    decreases xs
  {
    if xs == [] {
      SweepableSelf(fs, locks.All());
    } else {
      match xs[0] {
        case OfRef(p) => DropSweepable(fs, locks, p, RefAt(fs, p).value);
        case OfOrphan(o) => OrphanSweepable(fs, locks, o);
      }
      SweepsBySimulated(Less(fs, locks, xs[0]), fs', locks, xs[1..]);
      SweepableTrans(fs, Less(fs, locks, xs[0]), fs', locks.All());
    }
  }

  /** Every series of removals is what events of the sweeping call lead to. */
  lemma SweepsSimulated(fs: Fs, fs': Fs, locks: Locks)
    requires Sweeps(fs, fs', locks)
    ensures Sweepable(fs, fs', locks.All())
  {
    var xs :| SweepsBy(fs, fs', locks, xs);
    SweepsBySimulated(fs, fs', locks, xs);
  }

  // ------------------------------------------------------ abandoned captures

  /** Every capture in progress, of any process, is among the ones held. */
  ghost predicate HeldCaptures(w: World, held: set<nat>) {
    forall b | b in w.actors && Owned(PcOf(w, b)).Some? :: Owned(PcOf(w, b)).value in held
  }

  lemma ReapTempLeads(w: World, a: nat, g: nat, held: set<nat>)
    requires InPhase(w, a, SweepTask, Sweeping) && HeldCaptures(w, held) && g in w.temps && g !in held
    ensures Leads(w, a, w.(temps := w.temps - {g}))
  {
    assert ReapTempStep(w, w.(temps := w.temps - {g}), a, g);
    OneStep(w, a, ReapTemp(a, g), w.(temps := w.temps - {g}));
  }

  /** Removing capture directories that nobody holds is what events lead to. */
  lemma {:induction false} TempsLead(w: World, a: nat, gone: set<nat>, held: set<nat>)
    requires InPhase(w, a, SweepTask, Sweeping) && HeldCaptures(w, held) && gone <= w.temps.Keys && gone !! held
    ensures Leads(w, a, w.(temps := w.temps - gone))
    decreases gone
  {
    if gone == {} {
      assert w.temps - gone == w.temps;
      LeadsSelf(w, a);
    } else {
      var g :| g in gone;
      var mid := w.(temps := w.temps - (gone - {g}));
      TempsLead(w, a, gone - {g}, held);
      ReapTempLeads(mid, a, g, held);
      assert mid.temps - {g} == w.temps - gone;
      LeadsTrans(w, a, mid, w.(temps := w.temps - gone));
    }
  }

  /**
   * In every world with these capture directories, of which the held ones are all in progress, events remove the
   * others.
   */
  ghost predicate TempsRun(before: set<nat>, after: set<nat>, held: set<nat>) {
    forall w, a | InPhase(w, a, SweepTask, Sweeping) && w.temps.Keys == before && HeldCaptures(w, held) ::
      Leads(w, a, w.(temps := w.temps - (before - after)))
  }

  lemma TempsSimulated(before: set<nat>, after: set<nat>, held: set<nat>)
    requires before - after !! held
    ensures TempsRun(before, after, held)
  {
    forall w, a | InPhase(w, a, SweepTask, Sweeping) && w.temps.Keys == before && HeldCaptures(w, held)
      ensures Leads(w, a, w.(temps := w.temps - (before - after)))
    {
      TempsLead(w, a, before - after, held);
    }
  }

  // --------------------------------------------------- acting on what was observed

  /** A removal of one observed record runs to its end, on this disk. */
  ghost predicate IfCurrentRuns(fs: Fs, fs': Fs, leased: set<ObjPath>, p: RefPath, seen: Record) {
    forall w, a | SweepingOn(w, a, IfCurrentTask(p, seen), fs, leased) ::
      Leads(w, a, Goto(w, a, Exclusive(IfCurrentTask(p, seen), Done(false))).(fs := fs'))
  }

  lemma NothingToDo(w: World, a: nat, t: Task)
    requires InPhase(w, a, t, Sweeping) && (t.IfCurrentTask? || t.RefreshTask?) && RefAt(w.fs, t.path) != Some(t.seen)
    ensures Leads(w, a, Goto(w, a, Exclusive(t, Done(false))).(fs := w.fs))
  {
    MismatchLeads(w, Goto(w, a, Exclusive(t, Done(false))), a, t);
  }

  /** remove_record_if_current, as events: the ref and its unleased object go, or nothing does. */
  lemma IfCurrentSimulated(fs: Fs, locks: Locks, p: RefPath, seen: Record)
    ensures IfCurrentRuns(fs, IfCurrentDropped(fs, locks, p, seen), locks.All(), p, seen)
  {
    var t := IfCurrentTask(p, seen);
    forall w, a | SweepingOn(w, a, t, fs, locks.All())
      ensures Leads(w, a, Goto(w, a, Exclusive(t, Done(false))).(fs := IfCurrentDropped(fs, locks, p, seen)))
    {
      if RefAt(fs, p) == Some(seen) {
        DropLeads(w, a, t, p, seen, locks);
      } else {
        NothingToDo(w, a, t);
      }
    }
  }

  /** Where a revalidation ends: the record renewed, or nothing left to do. */
  ghost predicate RefreshRuns(fs: Fs, fs': Fs, leased: set<ObjPath>, p: RefPath, seen: Record, renewed: Record) {
    forall w, a | SweepingOn(w, a, RefreshTask(p, seen, renewed), fs, leased) ::
      exists w' :: Leads(w, a, w') && w'.fs == fs' && w'.leases == w.leases && Settled(w', a)
  }

  /** The call has only to leave. */
  ghost predicate Settled(w: World, a: nat) {
    InSection(w, a)
      && (PcOf(w, a).phase == Done(false) || (PcOf(w, a).phase.Refreshed? && PcOf(w, a).task.RefreshTask?))
  }

  function Renewing(w: World, a: nat, t: Task): World
    requires At(w, a) && t.RefreshTask?
  {
    Goto(w, a, Exclusive(t, Refreshed)).(fs := Apply(Bind(t.path, Parsed(t.renewed)), w.fs))
  }

  lemma RefreshIs(w: World, a: nat, t: Task)
    requires InPhase(w, a, t, Sweeping) && t.RefreshTask? && RefAt(w.fs, t.path) == Some(t.seen)
    ensures RefreshStep(w, Renewing(w, a, t), a, t) && Settled(Renewing(w, a, t), a)
    ensures RefAt(Renewing(w, a, t).fs, t.path) == Some(t.renewed)
  {
  }

  lemma RefreshOne(w: World, a: nat, t: Task) returns (w': World)
    requires InPhase(w, a, t, Sweeping) && t.RefreshTask?
    ensures Leads(w, a, w') && Settled(w', a) && w'.leases == w.leases
    ensures w'.fs == if RefAt(w.fs, t.path) == Some(t.seen) then Apply(Bind(t.path, Parsed(t.renewed)), w.fs) else w.fs
  {
    if RefAt(w.fs, t.path) == Some(t.seen) {
      w' := Renewing(w, a, t);
      RefreshIs(w, a, t);
      RefreshLeads(w, w', a, t);
    } else {
      w' := Goto(w, a, Exclusive(t, Done(false))).(fs := w.fs);
      NothingToDo(w, a, t);
    }
  }

  function Withdrawing(w: World, a: nat, t: Task): World
    requires At(w, a) && t.RefreshTask?
  {
    Goto(Renewing(w, a, t), a, Exclusive(IfCurrentTask(t.path, t.renewed), Sweeping))
  }

  lemma WithdrawingIs(w: World, a: nat, t: Task)
    requires InPhase(w, a, t, Sweeping) && t.RefreshTask? && RefAt(w.fs, t.path) == Some(t.seen)
    ensures var w' := Withdrawing(w, a, t);
            && w'.fs == Apply(Bind(t.path, Parsed(t.renewed)), w.fs) && w'.leases == w.leases
            && InPhase(w', a, IfCurrentTask(t.path, t.renewed), Sweeping) && RefAt(w'.fs, t.path) == Some(t.renewed)
    ensures WithdrawStep(Renewing(w, a, t), Withdrawing(w, a, t), a, t)
  {
  }

  lemma WithdrawingPath(w: World, a: nat, t: Task)
    requires InPhase(w, a, t, Sweeping) && t.RefreshTask? && RefAt(w.fs, t.path) == Some(t.seen)
    ensures Leads(w, a, Withdrawing(w, a, t))
  {
    RefreshIs(w, a, t);
    RefreshLeads(w, Renewing(w, a, t), a, t);
    WithdrawingIs(w, a, t);
    WithdrawLeads(Renewing(w, a, t), Withdrawing(w, a, t), a, t);
    LeadsTrans(w, a, Renewing(w, a, t), Withdrawing(w, a, t));
  }

  /** The renewed record is to be withdrawn at once. */
  lemma WithdrawingLeads(w: World, a: nat, t: Task, leased: set<ObjPath>) returns (w': World)
    requires SweepingOn(w, a, t, w.fs, leased) && t.RefreshTask? && RefAt(w.fs, t.path) == Some(t.seen)
    ensures Leads(w, a, w') && w'.fs == Apply(Bind(t.path, Parsed(t.renewed)), w.fs) && w'.leases == w.leases
    ensures SweepingOn(w', a, IfCurrentTask(t.path, t.renewed), w'.fs, leased)
            && RefAt(w'.fs, t.path) == Some(t.renewed)
  {
    w' := Withdrawing(w, a, t);
    WithdrawingIs(w, a, t);
    WithdrawingPath(w, a, t);
    LeadsInv(w, a, w');
  }

  function Unlisted(w: World, a: nat, p: RefPath, r: Record, locks: Locks): World
    requires At(w, a)
  {
    Goto(w, a, Exclusive(IfCurrentTask(p, r), Done(false))).(fs := Dropped(w.fs, locks, p, r))
  }

  lemma UnlistedIs(w: World, a: nat, p: RefPath, r: Record, locks: Locks)
    requires At(w, a)
    ensures Settled(Unlisted(w, a, p, r, locks), a) && Unlisted(w, a, p, r, locks).fs == Dropped(w.fs, locks, p, r)
    ensures Unlisted(w, a, p, r, locks).leases == w.leases
  {
  }

  /** An observed record that is still there goes, with its object unless leased. */
  lemma IfCurrentOne(w: World, a: nat, p: RefPath, r: Record, locks: Locks) returns (w': World)
    requires SweepingOn(w, a, IfCurrentTask(p, r), w.fs, locks.All()) && RefAt(w.fs, p) == Some(r)
    ensures Leads(w, a, w') && Settled(w', a) && w'.fs == Dropped(w.fs, locks, p, r) && w'.leases == w.leases
  {
    w' := Unlisted(w, a, p, r, locks);
    UnlistedIs(w, a, p, r, locks);
    DropLeads(w, a, IfCurrentTask(p, r), p, r, locks);
  }

  lemma WithdrawnLeads(w: World, a: nat, t: Task, locks: Locks) returns (w': World)
    requires SweepingOn(w, a, t, w.fs, locks.All()) && t.RefreshTask? && RefAt(w.fs, t.path) == Some(t.seen)
    ensures Leads(w, a, w') && Settled(w', a) && w'.leases == w.leases
    ensures w'.fs == Dropped(Apply(Bind(t.path, Parsed(t.renewed)), w.fs), locks, t.path, t.renewed)
  {
    var back := WithdrawingLeads(w, a, t, locks.All());
    w' := IfCurrentOne(back, a, t.path, t.renewed, locks);
    LeadsTrans(w, a, back, w');
  }

  lemma RevalidateOne(w: World, a: nat, t: Task, locks: Locks, last: bool) returns (w': World)
    requires SweepingOn(w, a, t, w.fs, locks.All()) && t.RefreshTask?
    ensures Leads(w, a, w') && Settled(w', a) && w'.leases == w.leases
    ensures w'.fs == Revalidated(w.fs, locks, t.path, t.seen, t.renewed, last)
  {
    if last || RefAt(w.fs, t.path) != Some(t.seen) {
      w' := RefreshOne(w, a, t);
    } else {
      w' := WithdrawnLeads(w, a, t, locks);
    }
  }

  /** revalidate_freshness, as events, whether or not the renewed lifetime lasts until the ref is written. */
  lemma RevalidateSimulated(fs: Fs, locks: Locks, p: RefPath, seen: Record, renewed: Record, last: bool)
    ensures RefreshRuns(fs, Revalidated(fs, locks, p, seen, renewed, last), locks.All(), p, seen, renewed)
  {
    forall w, a | SweepingOn(w, a, RefreshTask(p, seen, renewed), fs, locks.All())
      ensures exists w' :: && Leads(w, a, w') && w'.fs == Revalidated(fs, locks, p, seen, renewed, last)
                           && w'.leases == w.leases && Settled(w', a)
    {
      var w' := RevalidateOne(w, a, RefreshTask(p, seen, renewed), locks, last);
    }
  }

  // -------------------------------------------------------------------- commits

  /** Call `a` has been admitted to publish job `j` on this disk. */
  ghost predicate AdmittedOn(w: World, a: nat, j: Job, fs: Fs, leased: set<ObjPath>) {
    && Inv(w) && Committing(w, a, j) && PcOf(w, a).phase.Admitted? && w.fs == fs && LeasedObjects(w) == leased
    && PcOf(w, a).phase == Admitted(RefAt(fs, PathOf(j.key)), RetainedBy(fs, leased, PathOf(j.key)))
  }

  predicate RetainedBy(fs: Fs, leased: set<ObjPath>, p: RefPath) {
    RefAt(fs, p).Some? && ObjOf(RefAt(fs, p).value) in leased
  }

  /** Where a commit ends: stored, or rolled back. */
  ghost predicate PublishRuns(fs: Fs, fs': Fs, leased: set<ObjPath>, j: Job, stored: bool) {
    forall w, a | AdmittedOn(w, a, j, fs, leased) ::
      exists w' ::
        Leads(w, a, w') && InPhase(w', a, CommitTask(j), Done(stored)) && w'.fs == fs' && w'.leases == w.leases
  }

  function Admission(fs: Fs, leased: set<ObjPath>, j: Job): Phase {
    Admitted(RefAt(fs, PathOf(j.key)), RetainedBy(fs, leased, PathOf(j.key)))
  }

  /** The admission test of the routine is the guard of the event. */
  lemma AdmitIs(w: World, a: nat, j: Job, locks: Locks, limits: Limits)
    requires InPhase(w, a, CommitTask(j), Sweeping) && LeasedObjects(w) == locks.All()
    requires Fits(w.fs.objects, Going(RefAt(w.fs, PathOf(j.key)), RetainedBy(w.fs, locks.All(), PathOf(j.key))),
                  j.record.storedBytes, limits)
    ensures AdmitStep(w, Goto(w, a, Exclusive(CommitTask(j), Admission(w.fs, locks.All(), j))), a, j, limits)
  {
  }

  // One world for each point of a publication.

  function AtRenamed(w: World, a: nat, j: Job, prior: Option<Record>, retained: bool): World
    requires At(w, a) && JobOk(j)
  {
    Goto(w, a, Exclusive(CommitTask(j), Renamed(prior, retained))).(
      fs := Installed(w.fs, j), temps := w.temps - {j.record.generation})
  }

  function AtPublished(w: World, a: nat, j: Job, prior: Option<Record>, retained: bool): World
    requires At(w, a) && JobOk(j)
  {
    Goto(w, a, Exclusive(CommitTask(j), Published(prior, retained))).(
      fs := Bound(w.fs, j), temps := w.temps - {j.record.generation},
      log := w.log + [Publication(j.key, j.record.generation, j.content, false)])
  }

  lemma RenameIs(w: World, a: nat, j: Job, prior: Option<Record>, retained: bool)
    requires InPhase(w, a, CommitTask(j), Admitted(prior, retained))
    requires JobOk(j) && j.record.generation in w.temps && w.temps[j.record.generation] == JobDir(j)
    ensures RenameStep(w, AtRenamed(w, a, j, prior, retained), a, j, prior, retained)
  {
  }

  lemma PublishIs(w: World, a: nat, j: Job, prior: Option<Record>, retained: bool)
    requires At(w, a) && JobOk(j)
    ensures PublishStep(AtRenamed(w, a, j, prior, retained), AtPublished(w, a, j, prior, retained), a, j, prior,
                        retained)
  {
  }

  lemma BothLead(w: World, a: nat, j: Job, prior: Option<Record>, retained: bool)
    requires Inv(w) && InPhase(w, a, CommitTask(j), Admitted(prior, retained))
    ensures JobOk(j) && ObjOf(j.record) !in w.fs.objects
    ensures Leads(w, a, AtRenamed(w, a, j, prior, retained))
    ensures Leads(w, a, AtPublished(w, a, j, prior, retained))
  {
    NewName(w, a, j, prior, retained);
    var renamed, published := AtRenamed(w, a, j, prior, retained), AtPublished(w, a, j, prior, retained);
    RenameIs(w, a, j, prior, retained);
    RenameLeads(w, renamed, a, j, prior, retained);
    PublishIs(w, a, j, prior, retained);
    PublishLeads(renamed, published, a, j, prior, retained);
    LeadsTrans(w, a, renamed, published);
  }

  function AfterKeep(prior: Option<Record>): Phase {
    if prior.Some? then Removing(ObjOf(prior.value), Done(true)) else Done(true)
  }

  /** From the published ref to the return: the replaced generation goes, unless leased. */
  lemma KeptLeads(w: World, a: nat, j: Job, prior: Option<Record>, retained: bool, locks: Locks) returns (w': World)
    requires Inv(w) && InPhase(w, a, CommitTask(j), Published(prior, retained)) && LeasedObjects(w) == locks.All()
    ensures Leads(w, a, w') && InPhase(w', a, CommitTask(j), Done(true)) && w'.leases == w.leases
    ensures w'.fs == if prior.Some? then Removed(w.fs, locks, ObjOf(prior.value)) else w.fs
  {
    var mid := Goto(w, a, Exclusive(CommitTask(j), AfterKeep(prior)));
    KeepLeads(w, mid, a, j, prior, retained);
    if prior.None? {
      w' := mid;
    } else {
      LeadsInv(w, a, mid);
      RemovalLeads(mid, a, CommitTask(j), ObjOf(prior.value), Done(true), locks);
      w' := AfterRemoval(mid, a, CommitTask(j), Done(true), locks, ObjOf(prior.value));
      LeadsTrans(w, a, mid, w');
    }
  }

  lemma KeptIs(fs: Fs, locks: Locks, j: Job)
    requires JobOk(j) && ObjOf(j.record) !in fs.objects && Sound(fs, locks.All())
    ensures var prior := RefAt(fs, PathOf(j.key));
            Kept(fs, locks, j) == if prior.Some? then Removed(Bound(fs, j), locks, ObjOf(prior.value)) else Bound(fs, j)
  {
    if RefAt(fs, PathOf(j.key)).Some? {
      OldIsFree(fs, locks.All(), j, RefAt(fs, PathOf(j.key)).value);
    }
  }

  lemma StoredLeads(w: World, a: nat, j: Job, locks: Locks) returns (w': World)
    requires AdmittedOn(w, a, j, w.fs, locks.All())
    ensures JobOk(j)
    ensures Leads(w, a, w') && InPhase(w', a, CommitTask(j), Done(true)) && w'.leases == w.leases
    ensures w'.fs == Kept(w.fs, locks, j)
  {
    var prior, retained := RefAt(w.fs, PathOf(j.key)), RetainedBy(w.fs, locks.All(), PathOf(j.key));
    BothLead(w, a, j, prior, retained);
    var mid := AtPublished(w, a, j, prior, retained);
    LeadsInv(w, a, mid);
    w' := KeptLeads(mid, a, j, prior, retained, locks);
    LeadsTrans(w, a, mid, w');
    KeptIs(w.fs, locks, j);
  }

  /** Once admitted, a commit that meets no fault and is not late stores exactly what the routine leaves. */
  lemma StoredSimulated(fs: Fs, locks: Locks, j: Job)
    requires JobOk(j)
    ensures PublishRuns(fs, Kept(fs, locks, j), locks.All(), j, true)
  {
    forall w, a | AdmittedOn(w, a, j, fs, locks.All())
      ensures exists w' :: && Leads(w, a, w') && InPhase(w', a, CommitTask(j), Done(true))
                           && w'.fs == Kept(fs, locks, j) && w'.leases == w.leases
    {
      var w' := StoredLeads(w, a, j, locks);
    }
  }

  // The way back, from either point.

  function Unpublished(w: World, a: nat, j: Job, prior: Option<Record>): World
    requires At(w, a) && w.log != []
  {
    Goto(w, a, Exclusive(CommitTask(j), Removing(ObjOf(j.record), Done(false)))).(
      fs := Apply(UndoAct(j, prior), w.fs), log := w.log[..|w.log| - 1])
  }

  lemma UndoPublishIs(w: World, a: nat, j: Job, prior: Option<Record>, retained: bool)
    requires InPhase(w, a, CommitTask(j), Published(prior, retained)) && w.log != []
    ensures UndoPublishStep(w, Unpublished(w, a, j, prior), a, j, prior, retained)
  {
  }

  lemma UndoRestoresRefs(fs: Fs, j: Job, prior: Option<Record>)
    requires JobOk(j) && prior == RefAt(fs, PathOf(j.key))
             && (PathOf(j.key) in fs.refs ==> fs.refs[PathOf(j.key)].Parsed?)
    ensures Apply(UndoAct(j, prior), Bound(fs, j)) == Installed(fs, j)
  {
    var p := PathOf(j.key);
    if p in fs.refs {
      assert fs.refs[p := Parsed(j.record)][p := fs.refs[p]] == fs.refs;
    } else {
      assert fs.refs[p := Parsed(j.record)] - {p} == fs.refs;
    }
  }

  lemma NewObjectGoes(fs: Fs, locks: Locks, j: Job)
    requires JobOk(j) && ObjOf(j.record) !in fs.objects && ObjOf(j.record) !in locks.All()
    ensures Removed(Installed(fs, j), locks, ObjOf(j.record)) == fs
  {
    var o := ObjOf(j.record);
    assert fs.objects[o := JobDir(j)] - {o} == fs.objects;
  }

  /** From the point where only the new object is left to undo. */
  lemma LastObjectLeads(w: World, a: nat, j: Job, fs: Fs, locks: Locks) returns (w': World)
    requires Inv(w) && InPhase(w, a, CommitTask(j), Removing(ObjOf(j.record), Done(false)))
             && LeasedObjects(w) == locks.All()
    requires JobOk(j) && w.fs == Installed(fs, j) && ObjOf(j.record) !in fs.objects && ObjOf(j.record) !in locks.All()
    ensures Leads(w, a, w') && InPhase(w', a, CommitTask(j), Done(false)) && w'.leases == w.leases && w'.fs == fs
  {
    RemovalLeads(w, a, CommitTask(j), ObjOf(j.record), Done(false), locks);
    w' := AfterRemoval(w, a, CommitTask(j), Done(false), locks, ObjOf(j.record));
    NewObjectGoes(fs, locks, j);
  }

  lemma NewObjectFree(w: World, o: ObjPath)
    requires Inv(w) && o !in w.fs.objects
    ensures o !in LeasedObjects(w)
  {
  }

  lemma RenameUndone(w: World, a: nat, j: Job, locks: Locks) returns (w': World)
    requires AdmittedOn(w, a, j, w.fs, locks.All())
    ensures Leads(w, a, w') && InPhase(w', a, CommitTask(j), Done(false)) && w'.leases == w.leases && w'.fs == w.fs
  {
    var prior, retained := RefAt(w.fs, PathOf(j.key)), RetainedBy(w.fs, locks.All(), PathOf(j.key));
    BothLead(w, a, j, prior, retained);
    NewObjectFree(w, ObjOf(j.record));
    var renamed := AtRenamed(w, a, j, prior, retained);
    var back := Goto(renamed, a, Exclusive(CommitTask(j), Removing(ObjOf(j.record), Done(false))));
    UndoRenameLeads(renamed, back, a, j, prior, retained);
    LeadsTrans(w, a, renamed, back);
    LeadsInv(w, a, back);
    w' := LastObjectLeads(back, a, j, w.fs, locks);
    LeadsTrans(w, a, back, w');
  }

  lemma RefsParsed(w: World, p: RefPath)
    requires Inv(w) && p in w.fs.refs
    ensures w.fs.refs[p].Parsed?
  {
    assert RefOk(p, w.fs.refs[p], w.fs.objects);
  }

  lemma UnpublishedIs(w: World, a: nat, j: Job, prior: Option<Record>, retained: bool)
    requires At(w, a) && JobOk(j) && prior == RefAt(w.fs, PathOf(j.key))
    requires PathOf(j.key) in w.fs.refs ==> w.fs.refs[PathOf(j.key)].Parsed?
    ensures var published := AtPublished(w, a, j, prior, retained);
            && UndoPublishStep(published, Unpublished(published, a, j, prior), a, j, prior, retained)
            && InPhase(Unpublished(published, a, j, prior), a, CommitTask(j), Removing(ObjOf(j.record), Done(false)))
            && Unpublished(published, a, j, prior).fs == Installed(w.fs, j)
            && Unpublished(published, a, j, prior).leases == w.leases
  {
    UndoPublishIs(AtPublished(w, a, j, prior, retained), a, j, prior, retained);
    UndoRestoresRefs(w.fs, j, prior);
  }

  lemma UnpublishLeads(w: World, a: nat, j: Job, prior: Option<Record>, retained: bool) returns (back: World)
    requires Inv(w) && InPhase(w, a, CommitTask(j), Admitted(prior, retained)) && prior == RefAt(w.fs, PathOf(j.key))
    requires PathOf(j.key) in w.fs.refs ==> w.fs.refs[PathOf(j.key)].Parsed?
    ensures JobOk(j) && ObjOf(j.record) !in w.fs.objects
    ensures Leads(w, a, back) && InPhase(back, a, CommitTask(j), Removing(ObjOf(j.record), Done(false)))
    ensures back.fs == Installed(w.fs, j) && back.leases == w.leases
  {
    BothLead(w, a, j, prior, retained);
    var published := AtPublished(w, a, j, prior, retained);
    back := Unpublished(published, a, j, prior);
    UnpublishedIs(w, a, j, prior, retained);
    UndoPublishLeads(published, back, a, j, prior, retained);
    LeadsTrans(w, a, published, back);
  }

  lemma PublishUndone(w: World, a: nat, j: Job, locks: Locks) returns (w': World)
    requires AdmittedOn(w, a, j, w.fs, locks.All())
    ensures Leads(w, a, w') && InPhase(w', a, CommitTask(j), Done(false)) && w'.leases == w.leases && w'.fs == w.fs
  {
    if PathOf(j.key) in w.fs.refs {
      RefsParsed(w, PathOf(j.key));
    }
    var back := UnpublishLeads(w, a, j, RefAt(w.fs, PathOf(j.key)), RetainedBy(w.fs, locks.All(), PathOf(j.key)));
    NewObjectFree(w, ObjOf(j.record));
    LeadsInv(w, a, back);
    w' := LastObjectLeads(back, a, j, w.fs, locks);
    LeadsTrans(w, a, back, w');
  }

  /**
   * A commit that fails after its rename, with or without its ref written, is rolled back to the disk it was admitted
   * on.
   */
  lemma RollbackSimulated(fs: Fs, locks: Locks, j: Job, published: bool)
    ensures PublishRuns(fs, fs, locks.All(), j, false)
  {
    forall w, a | AdmittedOn(w, a, j, fs, locks.All())
      ensures exists w' :: && Leads(w, a, w') && InPhase(w', a, CommitTask(j), Done(false))
                           && w'.fs == fs && w'.leases == w.leases
    {
      if published {
        var w' := PublishUndone(w, a, j, locks);
      } else {
        var w' := RenameUndone(w, a, j, locks);
      }
    }
  }

  /** The whole critical section of a commit: swept to `admitted`, admitted, and then stored or rolled back. */
  ghost predicate CommitRuns(fs: Fs, fs': Fs, leased: set<ObjPath>, j: Job, stored: bool) {
    forall w, a | SweepingOn(w, a, CommitTask(j), fs, leased) ::
      exists w' ::
        Leads(w, a, w') && InPhase(w', a, CommitTask(j), Done(stored)) && w'.fs == fs' && w'.leases == w.leases
  }

  lemma AdmittedNow(w: World, a: nat, j: Job, locks: Locks, limits: Limits) returns (w': World)
    requires SweepingOn(w, a, CommitTask(j), w.fs, locks.All()) && j.record.storedBytes > 0
    requires Room(w.fs, locks, Some(PathOf(j.key)), j.record.storedBytes, limits)
    ensures Leads(w, a, w') && AdmittedOn(w', a, j, w.fs, locks.All()) && w'.leases == w.leases
  {
    RoomIsFits(w.fs, locks, PathOf(j.key), j.record.storedBytes, limits);
    w' := AdmitsNow(w, a, j, locks, limits);
  }

  lemma AdmitsNow(w: World, a: nat, j: Job, locks: Locks, limits: Limits) returns (w': World)
    requires SweepingOn(w, a, CommitTask(j), w.fs, locks.All())
    requires Fits(w.fs.objects, Going(RefAt(w.fs, PathOf(j.key)), RetainedBy(w.fs, locks.All(), PathOf(j.key))),
                  j.record.storedBytes, limits)
    ensures Leads(w, a, w') && AdmittedOn(w', a, j, w.fs, locks.All()) && w'.leases == w.leases
  {
    hide Inv, Leads;
    w' := Goto(w, a, Exclusive(CommitTask(j), Admission(w.fs, locks.All(), j)));
    AdmitIs(w, a, j, locks, limits);
    AdmitLeads(w, w', a, j, limits);
    LeadsInv(w, a, w');
  }

  lemma CommitOne(w: World, a: nat, fs0: Fs, admitted: Fs, fs: Fs, locks: Locks, j: Job, limits: Limits, stored: bool)
    returns (w': World)
    requires SweepingOn(w, a, CommitTask(j), fs0, locks.All())
    requires Sweepable(fs0, admitted, locks.All()) && PublishRuns(admitted, fs, locks.All(), j, stored)
    requires j.record.storedBytes > 0 && Room(admitted, locks, Some(PathOf(j.key)), j.record.storedBytes, limits)
    ensures Leads(w, a, w') && InPhase(w', a, CommitTask(j), Done(stored)) && w'.fs == fs && w'.leases == w.leases
  {
    var swept := w.(fs := admitted);
    StillSweeping(w, a, CommitTask(j), fs0, admitted, locks.All());
    var ready := AdmittedNow(swept, a, j, locks, limits);
    LeadsTrans(w, a, swept, ready);
    w' :| Leads(ready, a, w') && InPhase(w', a, CommitTask(j), Done(stored)) && w'.fs == fs
      && w'.leases == ready.leases;
    LeadsTrans(w, a, ready, w');
  }

  lemma CommitLeads(fs0: Fs, admitted: Fs, fs: Fs, locks: Locks, j: Job, limits: Limits, stored: bool)
    requires Sweepable(fs0, admitted, locks.All()) && PublishRuns(admitted, fs, locks.All(), j, stored)
    requires j.record.storedBytes > 0 && Room(admitted, locks, Some(PathOf(j.key)), j.record.storedBytes, limits)
    ensures CommitRuns(fs0, fs, locks.All(), j, stored)
  {
    forall w, a | SweepingOn(w, a, CommitTask(j), fs0, locks.All())
      ensures exists w' :: && Leads(w, a, w') && InPhase(w', a, CommitTask(j), Done(stored))
                           && w'.fs == fs && w'.leases == w.leases
    {
      var w' := CommitOne(w, a, fs0, admitted, fs, locks, j, limits, stored);
    }
  }

  /** What Commit promises of an outcome it reached past admission is what events lead to, stored or rolled back. */
  lemma CommitSimulated(fs0: Fs, admitted: Fs, fs: Fs, locks: Locks, j: Job, outcome: Outcome, limits: Limits)
    requires Sweeps(fs0, admitted, locks) && KeptOrUndone(admitted, fs, locks, j, outcome, limits)
    ensures CommitRuns(fs0, fs, locks.All(), j, outcome.Stored?)
  {
    SweepsSimulated(fs0, admitted, locks);
    if outcome.Stored? {
      StoredSimulated(admitted, locks, j);
    } else {
      RollbackSimulated(admitted, locks, j, true);
    }
    CommitLeads(fs0, admitted, fs, locks, j, limits, outcome.Stored?);
  }

  // -------------------------------------------------------------------- lookups

  /** A lookup that serves record `r` ends as a lease on it, and changes no file. */
  ghost predicate LookRuns(fs: Fs, key: CacheKey, r: Record) {
    forall w, a | Inv(w) && History(w) && At(w, a) && PcOf(w, a) == Looking(key) && w.fs == fs ::
      exists w' :: Leads(w, a, w') && Served(w, w', a, key, r)
  }

  ghost predicate Served(w: World, w': World, a: nat, key: CacheKey, r: Record) {
    && w'.fs == w.fs && !At(w', a) && w'.leases.Keys == w.leases.Keys + {w.nextLease}
    && w'.leases - {w.nextLease} == w.leases - {w.nextLease}
    && w'.leases[w.nextLease].key == key && w'.leases[w.nextLease].record == r
  }

  function AtLease(w: World, a: nat, key: CacheKey, r: Record, of: Publication): World
    requires At(w, a)
  {
    Goto(w, a, Leasing(key, r, w.nextLease)).(
      leases := w.leases[w.nextLease := Lease(w.actors[a].instance, key, r, of)], nextLease := w.nextLease + 1)
  }

  lemma LatestKnown(w: World, p: RefPath, r: Record)
    requires History(w) && RefAt(w.fs, p) == Some(r)
    ensures LastFor(w.log, p).Some?
  {
    assert Stands(w.log, w.fs.objects, p, r);
  }

  lemma LeaseLeads(w: World, a: nat, key: CacheKey, r: Record) returns (w': World)
    requires History(w) && At(w, a) && PcOf(w, a) == Looking(key) && RefAt(w.fs, PathOf(key)) == Some(r)
    requires ObjOf(r) in w.fs.objects && w.fs.objects[ObjOf(r)].lease
    ensures Leads(w, a, w') && At(w', a) && PcOf(w', a) == Leasing(key, r, w.nextLease) && w'.fs == w.fs
    ensures w'.leases.Keys == w.leases.Keys + {w.nextLease} && w'.leases - {w.nextLease} == w.leases - {w.nextLease}
    ensures w'.leases[w.nextLease].key == key && w'.leases[w.nextLease].record == r
  {
    hide Leads, History;
    LatestKnown(w, PathOf(key), r);
    var seen := Goto(w, a, Observed(key, r));
    ObserveLeads(w, seen, a);
    w' := AtLease(seen, a, key, r, LastFor(w.log, PathOf(key)).value);
    AcquireLeads(seen, w', a);
    LeadsTrans(w, a, seen, w');
  }

  /** lookup_inner that hits, as events. */
  lemma LookSimulated(fs: Fs, key: CacheKey, expected: Option<Schema>, allowStale: bool, now: nat)
    requires Servable(fs, PathOf(key), expected, allowStale, now)
    ensures LookRuns(fs, key, RefAt(fs, PathOf(key)).value)
  {
    var r := RefAt(fs, PathOf(key)).value;
    forall w, a | Inv(w) && History(w) && At(w, a) && PcOf(w, a) == Looking(key) && w.fs == fs
      ensures exists w' :: Leads(w, a, w') && Served(w, w', a, key, r)
    {
      var w' := ServeLeads(w, a, key, r, expected);
    }
  }

  lemma ServeLeads(w: World, a: nat, key: CacheKey, r: Record, expected: Option<Schema>) returns (w': World)
    requires History(w) && At(w, a) && PcOf(w, a) == Looking(key) && RefAt(w.fs, PathOf(key)) == Some(r)
    requires ObjOf(r) in w.fs.objects && w.fs.objects[ObjOf(r)].lease && ValidHit(r, w.fs.objects[ObjOf(r)], expected)
    ensures Leads(w, a, w') && Served(w, w', a, key, r)
  {
    var leased := LeaseLeads(w, a, key, r);
    var l := w.nextLease;
    var unlocked := Goto(leased, a, Validating(key, r, l));
    UnlockLeads(leased, unlocked, a);
    LeadsTrans(w, a, leased, unlocked);
    w' := Gone(unlocked, a);
    AcceptLeads(unlocked, w', a, expected);
    LeadsTrans(w, a, unlocked, w');
  }

  // Lookups that serve nothing.

  /** The call is after the exclusive lock, to remove the record it observed if it still is there. */
  predicate Seeks(w: World, a: nat, p: RefPath, r: Record) {
    At(w, a) && (PcOf(w, a) == HoldsMutex(IfCurrentTask(p, r)) || PcOf(w, a) == Waiting(IfCurrentTask(p, r)))
  }

  /** No ref, or one that is left for a revalidation or not asked for. */
  lemma MissedLeads(w: World, a: nat, key: CacheKey) returns (w': World)
    requires At(w, a) && PcOf(w, a) == Looking(key)
    ensures Leads(w, a, w') && !At(w', a) && w'.fs == w.fs && w'.leases == w.leases
  {
    w' := Gone(w, a);
    if RefAt(w.fs, PathOf(key)).None? {
      MissLeads(w, w', a);
    } else {
      var seen := Goto(w, a, Observed(key, RefAt(w.fs, PathOf(key)).value));
      ObserveLeads(w, seen, a);
      assert Gone(seen, a) == w';
      MissLeads(seen, w', a);
      LeadsTrans(w, a, seen, w');
    }
  }

  /** An expired ref. */
  lemma CondemnedLeads(w: World, a: nat, key: CacheKey, r: Record) returns (w': World)
    requires At(w, a) && PcOf(w, a) == Looking(key) && RefAt(w.fs, PathOf(key)) == Some(r)
    ensures Leads(w, a, w') && Seeks(w', a, PathOf(key), r) && w'.fs == w.fs && w'.leases == w.leases
  {
    var seen := Goto(w, a, Observed(key, r));
    ObserveLeads(w, seen, a);
    w' := Goto(seen, a, HoldsMutex(IfCurrentTask(PathOf(key), r)));
    CondemnLeads(seen, w', a);
    LeadsTrans(w, a, seen, w');
  }

  /** An object that does not pass: its lease is given back. */
  lemma RejectedLeads(w: World, a: nat, key: CacheKey, r: Record, expected: Option<Schema>) returns (w': World)
    requires History(w) && At(w, a) && PcOf(w, a) == Looking(key) && RefAt(w.fs, PathOf(key)) == Some(r)
    requires ObjOf(r) in w.fs.objects && w.fs.objects[ObjOf(r)].lease && !ValidHit(r, w.fs.objects[ObjOf(r)], expected)
    requires w.nextLease !in w.leases
    ensures Leads(w, a, w') && Seeks(w', a, PathOf(key), r) && w'.fs == w.fs && w'.leases == w.leases
  {
    hide Leads, History, ValidHit;
    var leased := LeaseLeads(w, a, key, r);
    var l := w.nextLease;
    var unlocked := Goto(leased, a, Validating(key, r, l));
    UnlockLeads(leased, unlocked, a);
    LeadsTrans(w, a, leased, unlocked);
    w' := Goto(unlocked, a, Waiting(IfCurrentTask(PathOf(key), r))).(leases := unlocked.leases - {l});
    RejectLeads(unlocked, w', a, expected);
    LeadsTrans(w, a, unlocked, w');
    assert w.leases - {l} == w.leases;
  }
}
