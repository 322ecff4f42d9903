/**
 * Critical sections: what a commit leaves behind when it succeeds or fails, and what a call
 * that acts on an observation made earlier can still change.
 */
module DiskSections {
  import opened Wrappers
  import opened DiskModel
  import opened DiskProtocol
  import opened DiskMoves
  import opened DiskHistory
  import opened DiskRuns

  lemma ChangedFromSection(w: World, e: Event, w': World)
    requires Inv(w) && Step(w, e, w') && ChangesFs(e)
    ensures Exclusion(w) && InSection(w, e.a)
  {
    EventPerforms(w, e, w');
  }

  /** While one call is in its critical section, nobody else changes refs or objects. */
  lemma SectionIsPrivate(w: World, e: Event, w': World, a: nat)
    requires Inv(w) && Step(w, e, w') && InSection(w, a) && ChangesFs(e)
    ensures Mover(e) == Some(a)
  {
    ChangedFromSection(w, e, w');
    if e.a != a {
      Alone(w, a, e.a);
    }
  }

  /** The only events a call can take part in while it holds the exclusive lock. */
  lemma SectionEvents(w: World, e: Event, w': World, a: nat)
    requires Step(w, e, w') && InSection(w, a) && Mover(e) == Some(a)
    ensures RemovalStep(w, e, w') || CommitStep(w, e, w')
  {
    if CallStep(w, e, w') {
      CallsStartOutside(w, e, w');
    } else if LockStep(w, e, w') || LookupStep(w, e, w') {
      LocksStartOutside(w, e, w');
    }
  }

  lemma CallsStartOutside(w: World, e: Event, w': World)
    requires CallStep(w, e, w')
    ensures Mover(e).Some? && !InSection(w, Mover(e).value)
  {
    CallMoves(w, e, w');
  }

  lemma LocksStartOutside(w: World, e: Event, w': World)
    requires LockStep(w, e, w') || LookupStep(w, e, w')
    ensures Mover(e).Some? ==> !InSection(w, Mover(e).value)
  {
    if LookupStep(w, e, w') {
      LookupMoves(w, e, w');
    } else if !e.Crash? {
      LockMoves(w, e, w');
    }
  }

  // ------------------------------------------------------- a commit, all or nothing

  predicate Committing(w: World, a: nat, j: Job) {
    InSection(w, a) && PcOf(w, a).task == CommitTask(j)
  }

  /** The unlink of a directory failed, or a rollback could not restore the ref. */
  predicate Fails(e: Event) {
    e.FailRemoval? || e.FailUndo?
  }

  /** The disk with the job's own object set aside. */
  function Without(fs: Fs, o: ObjPath): Fs {
    fs.(objects := fs.objects - {o})
  }

  function WithRef(fs: Fs, p: RefPath, r: Record): Fs {
    fs.(refs := fs.refs[p := Parsed(r)])
  }

  /**
   * How the disk differs from what it was at admission, phase by phase: the new object comes
   * first, then the ref, and on the way back the ref goes first and then the object.
   */
  ghost predicate CommitView(fs0: Fs, fs: Fs, j: Job, ph: Phase) {
    var o := ObjOf(j.record);
    var p := PathOf(j.key);
    match ph
    case Admitted(_, _) => fs == fs0
    case Renamed(_, _) => o in fs.objects && Without(fs, o) == fs0
    case Published(prior, _) =>
      o in fs.objects && Without(fs, o) == WithRef(fs0, p, j.record) && RefAt(fs0, p) == prior
    case Removing(target, after) =>
      if after == Done(false) then target == o && o in fs.objects && Without(fs, o) == fs0
      else after == Done(true) && target in Replaced(fs0, j) && target != o && StoredView(fs0, fs, j)
           && Lingers(fs0, fs, target)
    case Done(stored) => if stored then StoredView(fs0, fs, j) else fs == fs0
    case _ => false
  }

  /** The generation under the key when the commit was admitted. */
  function Former(fs0: Fs, j: Job): Option<ObjPath> {
    if RefAt(fs0, PathOf(j.key)).Some? then Some(ObjOf(RefAt(fs0, PathOf(j.key)).value)) else None
  }

  function Replaced(fs0: Fs, j: Job): set<ObjPath> {
    if Former(fs0, j).Some? then {Former(fs0, j).value} else {}
  }

  /** What is left of an object, perhaps not all of it, is what it was. */
  predicate Lingers(fs0: Fs, fs: Fs, o: ObjPath) {
    o in fs0.objects && o in fs.objects && Worn(fs0.objects[o], fs.objects[o])
  }

  /** The ref is the job's, its object is in place, and all else is as before but the replaced generation. */
  ghost predicate StoredView(fs0: Fs, fs: Fs, j: Job) {
    var o := ObjOf(j.record);
    && JobOk(j)
    && fs.refs == fs0.refs[PathOf(j.key) := Parsed(j.record)]
    && o in fs.objects && fs.objects[o] == JobDir(j)
    && fs.objects - (Replaced(fs0, j) + {o}) == fs0.objects - (Replaced(fs0, j) + {o})
  }

  /** One event of the call `a` itself, which is committing `j` and goes on doing so. */
  ghost predicate CommitTurn(w: World, e: Event, w': World, a: nat, j: Job) {
    CommitStep(w, e, w') && Mover(e) == Some(a) && Committing(w, a, j) && Committing(w', a, j)
  }

  lemma RenameView(w: World, e: Event, w': World, a: nat, j: Job)
    requires CommitTurn(w, e, w', a, j) && e.Rename? && ObjOf(j.record) !in w.fs.objects
    ensures CommitView(w.fs, w'.fs, j, PcOf(w', a).phase)
  {
    assert w'.fs.objects - {ObjOf(j.record)} == w.fs.objects;
  }

  lemma PublishView(fs0: Fs, w: World, e: Event, w': World, a: nat, j: Job)
    requires CommitTurn(w, e, w', a, j) && e.Publish? && CommitView(fs0, w.fs, j, PcOf(w, a).phase)
    requires PhaseOk(w, CommitTask(j), PcOf(w, a).phase)
    ensures CommitView(fs0, w'.fs, j, PcOf(w', a).phase)
  {
  }

  lemma UndoView(fs0: Fs, w: World, e: Event, w': World, a: nat, j: Job)
    requires CommitTurn(w, e, w', a, j) && e.UndoPublish? && CommitView(fs0, w.fs, j, PcOf(w, a).phase)
    requires forall p | p in fs0.refs :: fs0.refs[p].Parsed?
    ensures CommitView(fs0, w'.fs, j, PcOf(w', a).phase)
  {
    assert Apply(UndoAct(j, e.prior), WithRef(fs0, PathOf(j.key), j.record)).refs == fs0.refs;
  }

  lemma KeepView(fs0: Fs, w: World, e: Event, w': World, a: nat, j: Job)
    requires CommitTurn(w, e, w', a, j) && e.Keep? && CommitView(fs0, w.fs, j, PcOf(w, a).phase)
    requires PhaseOk(w, CommitTask(j), PcOf(w, a).phase)
    ensures CommitView(fs0, w'.fs, j, PcOf(w', a).phase)
  {
    var o := ObjOf(j.record);
    assert w.fs.objects - (Replaced(fs0, j) + {o}) == (w.fs.objects - {o}) - (Replaced(fs0, j) + {o});
    if e.prior.Some? {
      assert ObjOf(e.prior.value) in w.fs.objects - {o};
    }
  }

  lemma WornOn(dir: ObjectDir, mid: ObjectDir, left: ObjectDir)
    requires Worn(dir, mid) && Worn(mid, left)
    ensures Worn(dir, left)
  {
  }

  lemma OtherView(fs0: Fs, w: World, e: Event, w': World, a: nat, j: Job)
    requires CommitTurn(w, e, w', a, j) && !ChangesFs(e) && !e.Keep? && !Fails(e)
    requires CommitView(fs0, w.fs, j, PcOf(w, a).phase)
    ensures CommitView(fs0, w'.fs, j, PcOf(w', a).phase)
  {
  }

  lemma ErodeView(fs0: Fs, w: World, e: Event, w': World, a: nat, j: Job)
    requires RemovalStep(w, e, w') && e.Erosion? && e.a == a
    requires Committing(w, a, j) && CommitView(fs0, w.fs, j, PcOf(w, a).phase)
    ensures Committing(w', a, j) && CommitView(fs0, w'.fs, j, PcOf(w', a).phase)
  {
    var own := ObjOf(j.record);
    if e.o == own {
      assert w'.fs.objects - {own} == w.fs.objects - {own};
    } else {
      assert w'.fs.objects - (Replaced(fs0, j) + {own}) == w.fs.objects - (Replaced(fs0, j) + {own});
      WornOn(fs0.objects[e.o], w.fs.objects[e.o], e.dir);
    }
  }

  lemma RemoveView(fs0: Fs, w: World, e: Event, w': World, a: nat, j: Job)
    requires RemovalStep(w, e, w') && e.RemoveObject? && e.a == a
    requires Committing(w, a, j) && CommitView(fs0, w.fs, j, PcOf(w, a).phase)
    ensures Committing(w', a, j) && CommitView(fs0, w'.fs, j, PcOf(w', a).phase)
  {
    var own := ObjOf(j.record);
    if e.o == own {
      assert w'.fs.objects == w.fs.objects - {own};
    } else {
      assert w'.fs.objects - (Replaced(fs0, j) + {own}) == w.fs.objects - (Replaced(fs0, j) + {own});
    }
  }

  lemma SpareView(fs0: Fs, w: World, e: Event, w': World, a: nat, j: Job)
    requires RemovalStep(w, e, w') && e.SpareObject? && e.a == a && !Leased(w, ObjOf(j.record))
    requires Committing(w, a, j) && CommitView(fs0, w.fs, j, PcOf(w, a).phase)
    ensures Committing(w', a, j) && CommitView(fs0, w'.fs, j, PcOf(w', a).phase)
  {
  }

  /** An admitted commit removes one directory at a time, and sweeps no longer. */
  lemma AdmittedRemoves(w: World, e: Event, w': World, a: nat, j: Job)
    requires RemovalStep(w, e, w') && Mover(e) == Some(a) && !Fails(e)
    requires Committing(w, a, j) && !PcOf(w, a).phase.Sweeping?
    ensures e.a == a && (e.Erosion? || e.RemoveObject? || e.SpareObject?)
  {
  }

  lemma RemovalView(fs0: Fs, w: World, e: Event, w': World, a: nat, j: Job)
    requires RemovalStep(w, e, w') && Mover(e) == Some(a) && !Fails(e)
    requires Committing(w, a, j) && CommitView(fs0, w.fs, j, PcOf(w, a).phase)
    requires !Leased(w, ObjOf(j.record))
    ensures Committing(w', a, j) && CommitView(fs0, w'.fs, j, PcOf(w', a).phase)
  {
    AdmittedRemoves(w, e, w', a, j);
    if e.Erosion? {
      ErodeView(fs0, w, e, w', a, j);
    } else if e.RemoveObject? {
      RemoveView(fs0, w, e, w', a, j);
    } else {
      SpareView(fs0, w, e, w', a, j);
    }
  }

  /** A commit's own phase is vouched for, and the name it renames to is free. */
  lemma CommittingOk(w: World, a: nat, j: Job)
    requires Inv(w) && Committing(w, a, j)
    ensures PhaseOk(w, CommitTask(j), PcOf(w, a).phase)
    ensures PcOf(w, a).phase.Admitted? ==> ObjOf(j.record) !in w.fs.objects
  {
    InvAt(w, a);
  }

  lemma CommitStepView(fs0: Fs, w: World, e: Event, w': World, a: nat, j: Job)
    requires CommitTurn(w, e, w', a, j) && !Fails(e)
    requires CommitView(fs0, w.fs, j, PcOf(w, a).phase) && PhaseOk(w, CommitTask(j), PcOf(w, a).phase)
    requires PcOf(w, a).phase.Admitted? ==> ObjOf(j.record) !in w.fs.objects
    requires forall p | p in fs0.refs :: fs0.refs[p].Parsed?
    ensures CommitView(fs0, w'.fs, j, PcOf(w', a).phase)
  {
    if e.Rename? {
      RenameView(w, e, w', a, j);
    } else if e.Publish? {
      PublishView(fs0, w, e, w', a, j);
    } else if e.UndoPublish? {
      UndoView(fs0, w, e, w', a, j);
    } else if e.Keep? {
      KeepView(fs0, w, e, w', a, j);
    } else {
      OtherView(fs0, w, e, w', a, j);
    }
  }

  /** No lease is granted while a call is in its critical section. */
  lemma SectionGrantsNone(w: World, e: Event, w': World, a: nat)
    requires Inv(w) && Step(w, e, w') && InSection(w, a)
    ensures FewerLeases(w, w') && LeasedObjects(w') <= LeasedObjects(w)
  {
    StepChanges(w, e, w');
    if e.Acquire? {
      AcquireIsLookup(w, e, w');
      if e.a != a {
        Alone(w, a, e.a);
      }
    }
  }

  lemma SectionView(fs0: Fs, w: World, e: Event, w': World, a: nat, j: Job)
    requires Inv(w) && Step(w, e, w') && !Fails(e)
    requires Committing(w, a, j) && Committing(w', a, j)
    requires CommitView(fs0, w.fs, j, PcOf(w, a).phase) && !Leased(w, ObjOf(j.record))
    requires forall p | p in fs0.refs :: fs0.refs[p].Parsed?
    ensures CommitView(fs0, w'.fs, j, PcOf(w', a).phase) && !Leased(w', ObjOf(j.record))
  {
    SectionGrantsNone(w, e, w', a);
    if Mover(e) == Some(a) {
      SectionEvents(w, e, w', a);
      if RemovalStep(w, e, w') {
        RemovalView(fs0, w, e, w', a, j);
      } else {
        CommittingOk(w, a, j);
        CommitStepView(fs0, w, e, w', a, j);
      }
    } else {
      OthersStay(w, e, w', a);
      StepChanges(w, e, w');
      if ChangesFs(e) {
        SectionIsPrivate(w, e, w', a);
      }
    }
  }

  /** Call `a` is admitted at `i` and has not left its critical section by `k`. */
  ghost predicate CommitSpan(ws: seq<World>, es: seq<Event>, i: nat, k: nat, a: nat, j: Job) {
    && |ws| == |es| + 1 && i < k < |ws|
    && es[i].Admit? && es[i].a == a && es[i].j == j
    && (forall m | i < m <= k :: Committing(ws[m], a, j))
  }

  /** Between the two, no unlink failed and no rollback failed to restore the ref. */
  predicate Unfailing(es: seq<Event>, i: nat, k: nat)
    requires k <= |es|
  {
    forall m | i < m < k :: !Fails(es[m])
  }

  lemma AdmitView(w: World, e: Event, w': World)
    requires Inv(w) && Step(w, e, w') && e.Admit?
    ensures InSection(w', e.a) && CommitView(w.fs, w'.fs, e.j, PcOf(w', e.a).phase)
    ensures !Leased(w', ObjOf(e.j.record))
  {
    hide Step, Inv;
    AdmitIsCommit(w, e, w');
    NewNameFree(w, e.a, e.j);
  }

  lemma AdmitIsCommit(w: World, e: Event, w': World)
    requires Step(w, e, w') && e.Admit?
    ensures AdmitStep(w, w', e.a, e.j, e.limits)
  {
    hide AdmitStep;
  }

  /** Nobody leases an object by the name a capture still has for itself. */
  lemma NewNameFree(w: World, a: nat, j: Job)
    requires Inv(w) && InPhase(w, a, CommitTask(j), Sweeping)
    ensures !Leased(w, ObjOf(j.record)) && NewTo(w.fs, j)
  {
    InvAt(w, a);
    assert ObjOf(j.record) !in w.fs.objects;
    if PathOf(j.key) in w.fs.refs {
      assert RefOk(PathOf(j.key), w.fs.refs[PathOf(j.key)], w.fs.objects);
    }
  }

  /** Neither the object nor the ref of the job is on this disk. */
  predicate NewTo(fs: Fs, j: Job) {
    && ObjOf(j.record) !in fs.objects
    && (PathOf(j.key) in fs.refs ==> fs.refs[PathOf(j.key)] != Parsed(j.record))
  }

  lemma SpanStarts(ws: seq<World>, es: seq<Event>, i: nat, a: nat, j: Job)
    requires Run(ws, es) && i < |es| && es[i].Admit? && es[i].a == a && es[i].j == j
    ensures InSection(ws[i + 1], a) && CommitView(ws[i].fs, ws[i + 1].fs, j, PcOf(ws[i + 1], a).phase)
    ensures !Leased(ws[i + 1], ObjOf(j.record)) && NewTo(ws[i].fs, j)
    ensures forall p | p in ws[i].fs.refs :: ws[i].fs.refs[p].Parsed?
  {
    RunKeeps(ws, es, i);
    assert StepAt(ws, es, i);
    AdmitView(ws[i], es[i], ws[i + 1]);
    AdmitIsCommit(ws[i], es[i], ws[i + 1]);
    NewNameFree(ws[i], a, j);
  }

  lemma SpanGoesOn(ws: seq<World>, es: seq<Event>, fs0: Fs, k: nat, a: nat, j: Job)
    requires Run(ws, es) && k < |es| && !Fails(es[k])
    requires Committing(ws[k], a, j) && Committing(ws[k + 1], a, j)
    requires CommitView(fs0, ws[k].fs, j, PcOf(ws[k], a).phase) && !Leased(ws[k], ObjOf(j.record))
    requires forall p | p in fs0.refs :: fs0.refs[p].Parsed?
    ensures CommitView(fs0, ws[k + 1].fs, j, PcOf(ws[k + 1], a).phase) && !Leased(ws[k + 1], ObjOf(j.record))
  {
    RunKeeps(ws, es, k);
    assert StepAt(ws, es, k);
    SectionView(fs0, ws[k], es[k], ws[k + 1], a, j);
  }

  lemma {:induction false} CommitSpanView(ws: seq<World>, es: seq<Event>, i: nat, k: nat, a: nat, j: Job)
    requires Run(ws, es) && CommitSpan(ws, es, i, k, a, j) && Unfailing(es, i, k)
    ensures CommitView(ws[i].fs, ws[k].fs, j, PcOf(ws[k], a).phase) && !Leased(ws[k], ObjOf(j.record))
    decreases k
  {
    SpanStarts(ws, es, i, a, j);
    if i < k - 1 {
      CommitSpanView(ws, es, i, k - 1, a, j);
      SpanGoesOn(ws, es, ws[i].fs, k - 1, a, j);
    }
  }

  // ----------------------------------------------------- a commit that meets a failure

  /** The object of a rolled back job is still there, whole or not, and all else is as before. */
  ghost predicate OrphanLeft(fs0: Fs, fs: Fs, j: Job) {
    NewTo(fs0, j) && ObjOf(j.record) in fs.objects && Without(fs, ObjOf(j.record)) == fs0
  }

  /** The job's ref and its whole object are there, and all else is as before. */
  ghost predicate RefLeft(fs0: Fs, fs: Fs, j: Job) {
    var o := ObjOf(j.record);
    && NewTo(fs0, j) && JobOk(j)
    && o in fs.objects && fs.objects[o] == JobDir(j)
    && Without(fs, o) == WithRef(fs0, PathOf(j.key), j.record)
  }

  /** What the one failure of a commit leaves. */
  ghost predicate AfterFailure(fs0: Fs, fs: Fs, j: Job, ph: Phase, e: Event) {
    match ph
    case Done(false) => if e.FailUndo? then RefLeft(fs0, fs, j) else OrphanLeft(fs0, fs, j)
    case Done(true) =>
      && e.FailRemoval? && StoredView(fs0, fs, j)
      && Former(fs0, j).Some? && Former(fs0, j).value != ObjOf(j.record) && Lingers(fs0, fs, Former(fs0, j).value)
    case _ => false
  }

  lemma FailureStep(w: World, e: Event, w': World)
    requires Step(w, e, w') && Fails(e)
    ensures InSection(w, e.a) && w'.fs == w.fs
    ensures e.FailUndo? ==> FailUndoStep(w, w', e.a, e.j, e.prior, e.retained)
    ensures e.FailRemoval? ==> FailRemovalStep(w, w', e.a, e.t, e.o, e.after)
  {
  }

  /** Only whoever is in the critical section can fail there. */
  lemma FailureIsOwn(w: World, e: Event, w': World, a: nat)
    requires Exclusion(w) && Step(w, e, w') && Fails(e) && InSection(w, a)
    ensures e.a == a
  {
    FailureStep(w, e, w');
    if e.a != a {
      Alone(w, a, e.a);
    }
  }

  lemma FailUndoView(fs0: Fs, w: World, w': World, a: nat, j: Job, prior: Option<Record>, retained: bool)
    requires FailUndoStep(w, w', a, j, prior, retained) && CommitView(fs0, w.fs, j, PcOf(w, a).phase)
    requires PhaseOk(w, CommitTask(j), PcOf(w, a).phase) && NewTo(fs0, j)
    ensures PcOf(w', a).phase == Done(false) && RefLeft(fs0, w'.fs, j)
  {
  }

  lemma FailRemovalView(fs0: Fs, w: World, w': World, a: nat, j: Job, o: ObjPath, after: Phase, e: Event)
    requires FailRemovalStep(w, w', a, CommitTask(j), o, after) && CommitView(fs0, w.fs, j, PcOf(w, a).phase)
    requires NewTo(fs0, j) && e.FailRemoval?
    ensures AfterFailure(fs0, w'.fs, j, PcOf(w', a).phase, e)
  {
  }

  lemma FailureView(fs0: Fs, w: World, e: Event, w': World, a: nat, j: Job)
    requires Inv(w) && Step(w, e, w') && Fails(e) && Committing(w, a, j) && NewTo(fs0, j)
    requires CommitView(fs0, w.fs, j, PcOf(w, a).phase)
    ensures InSection(w', a) && AfterFailure(fs0, w'.fs, j, PcOf(w', a).phase, e)
  {
    hide Step, Inv;
    InvExclusion(w);
    FailureIsOwn(w, e, w', a);
    FailureStep(w, e, w');
    if e.FailUndo? {
      CommittingOk(w, a, j);
      FailUndoView(fs0, w, w', a, j, e.prior, e.retained);
    } else {
      FailRemovalView(fs0, w, w', a, j, e.o, e.after, e);
    }
  }

  lemma InvExclusion(w: World)
    requires Inv(w)
    ensures Exclusion(w)
  {
  }

  /** A commit that has decided does nothing more but return. */
  lemma DecidedRests(w: World, e: Event, w': World, a: nat, j: Job)
    requires RemovalStep(w, e, w') || CommitStep(w, e, w')
    requires Mover(e) == Some(a) && Committing(w, a, j) && PcOf(w, a).phase.Done?
    ensures !Committing(w', a, j)
  {
  }

  lemma DecidedStays(w: World, e: Event, w': World, a: nat, j: Job)
    requires Inv(w) && Step(w, e, w') && Committing(w, a, j) && Committing(w', a, j) && PcOf(w, a).phase.Done?
    ensures w'.fs == w.fs && PcOf(w', a) == PcOf(w, a) && !Fails(e)
  {
    hide Step, Inv, RemovalStep, CommitStep;
    if Mover(e) == Some(a) {
      SectionEvents(w, e, w', a);
      DecidedRests(w, e, w', a, j);
    } else {
      OthersStay(w, e, w', a);
      StepChanges(w, e, w');
      if ChangesFs(e) {
        SectionIsPrivate(w, e, w', a);
      }
      if Fails(e) {
        InvExclusion(w);
        FailureIsOwn(w, e, w', a);
      }
    }
  }

  lemma DecidedStaysAt(ws: seq<World>, es: seq<Event>, k: nat, a: nat, j: Job)
    requires Run(ws, es) && k < |es| && Committing(ws[k], a, j) && Committing(ws[k + 1], a, j)
    requires PcOf(ws[k], a).phase.Done?
    ensures ws[k + 1].fs == ws[k].fs && PcOf(ws[k + 1], a) == PcOf(ws[k], a) && !Fails(es[k])
  {
    hide Step, Inv, History;
    RunKeeps(ws, es, k);
    assert StepAt(ws, es, k);
    DecidedStays(ws[k], es[k], ws[k + 1], a, j);
  }

  lemma FailureAt(ws: seq<World>, es: seq<Event>, i: nat, k: nat, a: nat, j: Job)
    requires Run(ws, es) && CommitSpan(ws, es, i, k, a, j) && Unfailing(es, i, k) && k < |es| && Fails(es[k])
    ensures InSection(ws[k + 1], a) && AfterFailure(ws[i].fs, ws[k + 1].fs, j, PcOf(ws[k + 1], a).phase, es[k])
  {
    hide Step, Inv, History;
    CommitSpanView(ws, es, i, k, a, j);
    SpanStarts(ws, es, i, a, j);
    RunKeeps(ws, es, k);
    assert StepAt(ws, es, k);
    FailureView(ws[i].fs, ws[k], es[k], ws[k + 1], a, j);
  }

  /** A commit meets one failure at most, and then only has to return. */
  lemma {:induction false} FailedSpan(ws: seq<World>, es: seq<Event>, i: nat, k: nat, a: nat, j: Job) returns (f: nat)
    requires Run(ws, es) && CommitSpan(ws, es, i, k, a, j) && !Unfailing(es, i, k)
    ensures i < f < k && Fails(es[f]) && forall m | i < m < k && Fails(es[m]) :: m == f
    ensures AfterFailure(ws[i].fs, ws[k].fs, j, PcOf(ws[k], a).phase, es[f])
    decreases k
  {
    hide Step, Run, AfterFailure;
    if Unfailing(es, i, k - 1) {
      f := k - 1;
      FailureAt(ws, es, i, k - 1, a, j);
    } else {
      f := FailedSpan(ws, es, i, k - 1, a, j);
      FailureDecides(ws[i].fs, ws[k - 1].fs, j, PcOf(ws[k - 1], a).phase, es[f]);
      DecidedStaysAt(ws, es, k - 1, a, j);
    }
  }

  lemma FailureDecides(fs0: Fs, fs: Fs, j: Job, ph: Phase, e: Event)
    requires AfterFailure(fs0, fs, j, ph, e)
    ensures ph.Done?
  {
  }

  /** The three ways a failed commit can end tell each other apart. */
  lemma TracesDiffer(fs0: Fs, fs: Fs, j: Job)
    ensures RefLeft(fs0, fs, j) ==> fs != fs0 && !OrphanLeft(fs0, fs, j)
    ensures OrphanLeft(fs0, fs, j) ==> fs != fs0
  {
    if RefLeft(fs0, fs, j) {
      assert fs.refs[PathOf(j.key)] == Parsed(j.record);
    }
  }

  /**
   * A commit that fails after its admission leaves the disk exactly as it was then if and only if its
   * rollback met no failure.  If the ref could not be restored the new one stands, with its object; if
   * an unlink failed the new object is left behind, without its ref.
   */
  lemma FailedCommitLeavesNoTrace(ws: seq<World>, es: seq<Event>, i: nat, k: nat, a: nat, j: Job)
    requires Run(ws, es) && CommitSpan(ws, es, i, k, a, j) && PcOf(ws[k], a).phase == Done(false)
    ensures ws[k].fs == ws[i].fs <==> Unfailing(es, i, k)
    ensures RefLeft(ws[i].fs, ws[k].fs, j) <==> exists m | i < m < k :: es[m].FailUndo?
    ensures OrphanLeft(ws[i].fs, ws[k].fs, j) <==> exists m | i < m < k :: es[m].FailRemoval?
  {
    hide Step, Run, Without, WithRef;
    TracesDiffer(ws[i].fs, ws[k].fs, j);
    if Unfailing(es, i, k) {
      CommitSpanView(ws, es, i, k, a, j);
    } else {
      var f := FailedSpan(ws, es, i, k, a, j);
    }
  }

  /**
   * A commit about to return `Stored` has bound its key to its own capture and touched nothing else but
   * the generation it replaces, whether or not that could be unlinked.
   */
  lemma StoredCommitTouchesOneKey(ws: seq<World>, es: seq<Event>, i: nat, k: nat, a: nat, j: Job)
    requires Run(ws, es) && CommitSpan(ws, es, i, k, a, j) && PcOf(ws[k], a).phase == Done(true)
    ensures StoredView(ws[i].fs, ws[k].fs, j)
  {
    hide Step, Run, StoredView;
    if Unfailing(es, i, k) {
      CommitSpanView(ws, es, i, k, a, j);
    } else {
      var f := FailedSpan(ws, es, i, k, a, j);
    }
  }

  /** No lookup, of this or any other process, looks at refs while a commit is in its critical section. */
  lemma CommitUnobserved(ws: seq<World>, es: seq<Event>, m: nat, a: nat, j: Job, b: nat)
    requires Run(ws, es) && m < |ws| && Committing(ws[m], a, j) && At(ws[m], b) && b != a
    ensures !PcOf(ws[m], b).Looking? && !PcOf(ws[m], b).Observed? && !PcOf(ws[m], b).Leasing?
  {
    RunKeeps(ws, es, m);
    Alone(ws[m], a, b);
  }

  // -------------------------------------------------------- before admission

  /** Every ref still there is as it was; some may be gone. */
  ghost predicate OnlyEvicts(fs0: Fs, fs: Fs) {
    forall p | p in fs.refs :: p in fs0.refs && fs.refs[p] == fs0.refs[p]
  }

  predicate MakingRoom(w: World, a: nat, j: Job) {
    && Committing(w, a, j)
    && (PcOf(w, a).phase.Sweeping? || (PcOf(w, a).phase.Removing? && PcOf(w, a).phase.after.Sweeping?))
  }

  lemma SweepRemoves(w: World, e: Event, w': World, a: nat, j: Job)
    requires RemovalStep(w, e, w') && Mover(e) == Some(a) && MakingRoom(w, a, j)
    ensures OnlyEvicts(w.fs, w'.fs)
  {
  }

  lemma SweepPublishesNone(w: World, e: Event, w': World, a: nat, j: Job)
    requires CommitStep(w, e, w') && Mover(e) == Some(a) && MakingRoom(w, a, j)
    ensures !ChangesFs(e)
  {
  }

  lemma SweepEvicts(w: World, e: Event, w': World, a: nat, j: Job)
    requires Inv(w) && Step(w, e, w') && MakingRoom(w, a, j)
    ensures OnlyEvicts(w.fs, w'.fs)
  {
    StepChanges(w, e, w');
    if ChangesFs(e) {
      SectionIsPrivate(w, e, w', a);
      SectionEvents(w, e, w', a);
      if RemovalStep(w, e, w') {
        SweepRemoves(w, e, w', a, j);
      } else {
        SweepPublishesNone(w, e, w', a, j);
      }
    }
  }

  lemma SweepEvictsAt(ws: seq<World>, es: seq<Event>, k: nat, a: nat, j: Job)
    requires Run(ws, es) && k < |es| && MakingRoom(ws[k], a, j)
    ensures OnlyEvicts(ws[k].fs, ws[k + 1].fs)
  {
    RunKeeps(ws, es, k);
    assert StepAt(ws, es, k);
    SweepEvicts(ws[k], es[k], ws[k + 1], a, j);
  }

  /** Up to its admission, all that a commit does to refs is to evict some. */
  lemma {:induction false} RoomIsMadeByEviction(ws: seq<World>, es: seq<Event>, i: nat, k: nat, a: nat, j: Job)
    requires Run(ws, es) && i <= k < |ws| && forall m | i <= m <= k :: MakingRoom(ws[m], a, j)
    ensures OnlyEvicts(ws[i].fs, ws[k].fs)
    decreases k
  {
    if i < k {
      RoomIsMadeByEviction(ws, es, i, k - 1, a, j);
      SweepEvictsAt(ws, es, k - 1, a, j);
    }
  }

  // ------------------------------------------------------- acting on an old observation

  /** The record a conditional removal or renewal was asked to act on. */
  predicate Observer(w: World, a: nat, p: RefPath, seen: Record) {
    && InSection(w, a)
    && (PcOf(w, a).task.IfCurrentTask? || PcOf(w, a).task.RefreshTask?)
    && PcOf(w, a).task.path == p && PcOf(w, a).task.seen == seen
  }

  lemma RefsChangedBy(w: World, e: Event, w': World)
    requires RemovalStep(w, e, w') && !e.DropRef? && !e.Refresh?
    ensures w'.fs.refs == w.fs.refs
  {
  }

  lemma ObserverDrops(w: World, e: Event, w': World, a: nat, p: RefPath, seen: Record)
    requires RemovalStep(w, e, w') && e.DropRef? && e.a == a && Observer(w, a, p, seen)
    ensures RefAt(w.fs, p) == Some(seen) && w'.fs.refs == w.fs.refs - {p}
  {
  }

  lemma ObserverRenews(w: World, e: Event, w': World, a: nat, p: RefPath, seen: Record)
    requires RemovalStep(w, e, w') && e.Refresh? && e.a == a && Observer(w, a, p, seen)
    ensures RefAt(w.fs, p) == Some(seen)
    ensures forall q | q in w.fs.refs && q != p :: q in w'.fs.refs && w'.fs.refs[q] == w.fs.refs[q]
  {
  }

  lemma ObserverRemoves(w: World, e: Event, w': World, a: nat, p: RefPath, seen: Record)
    requires RemovalStep(w, e, w') && Mover(e) == Some(a) && Observer(w, a, p, seen)
    ensures RefAt(w.fs, p) != Some(seen) ==> w'.fs.refs == w.fs.refs
    ensures forall q | q in w.fs.refs && q != p :: q in w'.fs.refs && w'.fs.refs[q] == w.fs.refs[q]
  {
    hide RemovalStep, Observer;
    if e.DropRef? {
      ObserverDrops(w, e, w', a, p, seen);
    } else if e.Refresh? {
      ObserverRenews(w, e, w', a, p, seen);
    } else {
      RefsChangedBy(w, e, w');
    }
  }

  lemma ObserverPublishesNone(w: World, e: Event, w': World, a: nat, p: RefPath, seen: Record)
    requires CommitStep(w, e, w') && Mover(e) == Some(a) && Observer(w, a, p, seen)
    ensures !ChangesFs(e)
  {
  }

  /**
   * Whatever happened since the observation: a ref changes only if it still is the very record
   * observed, and all other refs stay.
   */
  lemma ObserverChangesOnlyWhatItSaw(w: World, e: Event, w': World, a: nat, p: RefPath, seen: Record)
    requires Inv(w) && Step(w, e, w') && Observer(w, a, p, seen)
    ensures RefAt(w.fs, p) != Some(seen) ==> w'.fs.refs == w.fs.refs
    ensures forall q | q in w.fs.refs && q != p :: q in w'.fs.refs && w'.fs.refs[q] == w.fs.refs[q]
  {
    StepChanges(w, e, w');
    if ChangesFs(e) {
      SectionIsPrivate(w, e, w', a);
      SectionEvents(w, e, w', a);
      if RemovalStep(w, e, w') {
        ObserverRemoves(w, e, w', a, p, seen);
      } else {
        ObserverPublishesNone(w, e, w', a, p, seen);
      }
    }
  }

  lemma ReferencedExists(fs: Fs, leased: set<ObjPath>, o: ObjPath)
    requires Sound(fs, leased) && Referenced(fs, o)
    ensures o in fs.objects
  {
    var q :| q in fs.refs && Refers(fs.refs[q], o);
    assert RefOk(q, fs.refs[q], fs.objects);
  }

  /** Nobody, in any step, touches an object that a ref names. */
  lemma ReferencedNeverTouched(w: World, e: Event, w': World, o: ObjPath)
    requires Inv(w) && Step(w, e, w') && Referenced(w.fs, o)
    ensures o in w.fs.objects && o in w'.fs.objects && w'.fs.objects[o] == w.fs.objects[o]
  {
    ReferencedExists(w.fs, LeasedObjects(w), o);
    StepChanges(w, e, w');
    if ChangesFs(e) {
      EventPerforms(w, e, w');
      KeptObjects(w.fs, LeasedObjects(w), ActOf(e), o);
    }
  }

  lemma StaleRecord(fs: Fs, log: seq<Publication>, p: RefPath, seen: Record)
    requires RefsStand(fs, log)
    requires LastFor(log, p).Some? && LastFor(log, p).value.generation != seen.generation
    ensures RefAt(fs, p) != Some(seen)
  {
    assert p in fs.refs ==> Stands(log, fs.objects, p, fs.refs[p].record);
  }

  /**
   * A lookup's cleanup, a removal or a renewal that observed one generation of a key does nothing
   * to a ref or its object once a later publication of that key stands.
   */
  lemma StaleObserverIsHarmless(ws: seq<World>, es: seq<Event>, i: nat, a: nat, p: RefPath, seen: Record)
    requires Run(ws, es) && i < |es| && Observer(ws[i], a, p, seen)
    requires LastFor(ws[i].log, p).Some? && LastFor(ws[i].log, p).value.generation != seen.generation
    ensures ws[i + 1].fs.refs == ws[i].fs.refs
    ensures forall o | Referenced(ws[i].fs, o) ::
              o in ws[i].fs.objects && o in ws[i + 1].fs.objects && ws[i + 1].fs.objects[o] == ws[i].fs.objects[o]
  {
    RunKeeps(ws, es, i);
    assert StepAt(ws, es, i);
    StaleRecord(ws[i].fs, ws[i].log, p, seen);
    ObserverChangesOnlyWhatItSaw(ws[i], es[i], ws[i + 1], a, p, seen);
    forall o | Referenced(ws[i].fs, o)
      ensures o in ws[i].fs.objects && o in ws[i + 1].fs.objects && ws[i + 1].fs.objects[o] == ws[i].fs.objects[o]
    {
      ReferencedNeverTouched(ws[i], es[i], ws[i + 1], o);
    }
  }
}
