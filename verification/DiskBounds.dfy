/**
 * Bounded admission: with the same limits in every process, and no publication cut short by a crash
 * or a failure of its own, the encoded bytes and the number of all objects, referenced or orphaned,
 * stay within the limits whenever nobody is in the middle of a publication.
 */
module DiskBounds {
  import opened Wrappers
  import opened Sums
  import opened DiskModel
  import opened DiskProtocol
  import opened DiskMoves
  import opened DiskHistory
  import opened DiskRuns
  import opened DiskSections

  ghost predicate InBounds(objects: map<ObjPath, ObjectDir>, limits: Limits) {
    Total(Weights(objects)) <= limits.maxBytes && |objects| <= limits.maxEntries
  }

  lemma WeightsSize(objects: map<ObjPath, ObjectDir>)
    ensures |Weights(objects)| == |objects|
  {
    assert Weights(objects).Keys == objects.Keys;
  }

  lemma FewerInBounds(objects: map<ObjPath, ObjectDir>, gone: set<ObjPath>, limits: Limits)
    requires InBounds(objects, limits)
    ensures InBounds(objects - gone, limits)
  {
    TotalSubmap(Weights(objects - gone), Weights(objects));
    WeightsSize(objects - gone);
    WeightsSize(objects);
  }

  lemma UpdateMinus<K, V>(m: map<K, V>, k: K, v: V, gone: set<K>)
    requires k !in gone
    ensures m[k := v] - gone == (m - gone)[k := v]
  {
  }

  lemma UpdateThenMinus<K, V>(m: map<K, V>, k: K, v: V)
    ensures m[k := v] - {k} == m - {k}
    ensures k !in m ==> m - {k} == m
  {
  }

  lemma WornBytes(dir: ObjectDir, left: ObjectDir)
    requires Worn(dir, left)
    ensures ObjectBytes(left) <= ObjectBytes(dir)
  {
    SumSeqMonotone(seq(|left.parts|, i requires 0 <= i < |left.parts| => FileBytes(left.parts[i])),
                   seq(|dir.parts|, i requires 0 <= i < |dir.parts| => FileBytes(dir.parts[i])));
  }

  lemma WornInBounds(objects: map<ObjPath, ObjectDir>, o: ObjPath, dir: ObjectDir, limits: Limits)
    requires InBounds(objects, limits) && o in objects && Worn(objects[o], dir)
    ensures InBounds(objects[o := dir], limits)
  {
    WornBytes(objects[o], dir);
    TotalRemove(Weights(objects), o);
    TotalRemove(Weights(objects[o := dir]), o);
    assert Weights(objects) - {o} == Weights(objects[o := dir]) - {o};
    assert objects[o := dir].Keys == objects.Keys;
  }

  lemma WeightsGrow(objects: map<ObjPath, ObjectDir>, o: ObjPath, dir: ObjectDir)
    requires o !in objects
    ensures Weights(objects[o := dir]) == Weights(objects)[o := ObjectBytes(dir)]
    ensures |objects[o := dir]| == |objects| + 1
  {
    assert objects[o := dir].Keys == objects.Keys + {o};
  }

  lemma GrownInBounds(objects: map<ObjPath, ObjectDir>, o: ObjPath, dir: ObjectDir, limits: Limits)
    requires o !in objects
    requires Total(Weights(objects)) + ObjectBytes(dir) <= limits.maxBytes && |objects| + 1 <= limits.maxEntries
    ensures InBounds(objects[o := dir], limits)
  {
    WeightsGrow(objects, o, dir);
    TotalInsert(Weights(objects), o, ObjectBytes(dir));
  }

  lemma InstalledInBounds(objects: map<ObjPath, ObjectDir>, o: ObjPath, dir: ObjectDir, gone: set<ObjPath>,
                          limits: Limits)
    requires o !in objects && o !in gone && Fits(objects, gone, ObjectBytes(dir), limits)
    ensures InBounds(objects[o := dir] - gone, limits)
  {
    UpdateMinus(objects, o, dir, gone);
    GrownInBounds(objects - gone, o, dir, limits);
  }

  // ------------------------------------------------------------------ the invariant

  /** Objects may be over the limits only in these phases. */
  predicate Critical(pc: Pc) {
    && pc.Exclusive? && pc.task.CommitTask?
    && (pc.phase.Renamed? || pc.phase.Published? || (pc.phase.Removing? && pc.phase.after.Done?))
  }

  /** A crash, a failed unlink or a failed rollback of a call that has, for the moment, an object too many on disk. */
  ghost predicate CutsShort(w: World, e: Event) {
    || (Fails(e) && At(w, e.a) && Critical(PcOf(w, e.a)))
    || (e.Crash? && exists b :: b in w.actors && w.actors[b].instance == e.instance && Critical(PcOf(w, b)))
  }

  /** The replaced generation is not leased unless it was when the commit was admitted. */
  predicate Spared(leased: set<ObjPath>, prior: Option<Record>, retained: bool) {
    prior.Some? && !retained ==> ObjOf(prior.value) !in leased
  }

  ghost predicate PhaseBound(w: World, j: Job, ph: Phase, limits: Limits) {
    match ph
    case Admitted(prior, retained) =>
      && InBounds(w.fs.objects, limits) && Spared(LeasedObjects(w), prior, retained)
      && Fits(w.fs.objects, Going(prior, retained), j.record.storedBytes, limits)
    case Renamed(prior, retained) =>
      && Spared(LeasedObjects(w), prior, retained)
      && InBounds(w.fs.objects - {ObjOf(j.record)}, limits) && InBounds(w.fs.objects - Going(prior, retained), limits)
    case Published(prior, retained) =>
      && Spared(LeasedObjects(w), prior, retained)
      && InBounds(w.fs.objects - {ObjOf(j.record)}, limits) && InBounds(w.fs.objects - Going(prior, retained), limits)
    case Removing(o, Done(_)) =>
      InBounds(w.fs.objects - {o}, limits) && (Leased(w, o) ==> InBounds(w.fs.objects, limits))
    case _ => InBounds(w.fs.objects, limits)
  }

  ghost predicate Bounded(w: World, limits: Limits) {
    && (forall a | a in w.actors && PcOf(w, a).Exclusive? && PcOf(w, a).task.CommitTask? ::
          PhaseBound(w, PcOf(w, a).task.job, PcOf(w, a).phase, limits))
    && ((forall a | a in w.actors :: !Critical(PcOf(w, a))) ==> InBounds(w.fs.objects, limits))
  }

  lemma PhaseGivesBounds(w: World, j: Job, ph: Phase, limits: Limits)
    requires PhaseBound(w, j, ph, limits) && !Critical(Exclusive(CommitTask(j), ph))
    ensures InBounds(w.fs.objects, limits)
  {
  }

  /** The one call in its critical section decides for all. */
  lemma SectionDecides(w: World, a: nat, j: Job, limits: Limits)
    requires Exclusion(w) && Committing(w, a, j) && PhaseBound(w, j, PcOf(w, a).phase, limits)
    ensures Bounded(w, limits)
  {
    forall b | b in w.actors && b != a
      ensures !PcOf(w, b).Exclusive?
    {
      Alone(w, a, b);
    }
    if !Critical(PcOf(w, a)) {
      PhaseGivesBounds(w, j, PcOf(w, a).phase, limits);
    }
  }

  /** With no commit in its critical section the objects alone decide. */
  lemma NoneCommitting(w: World, limits: Limits)
    requires forall b | b in w.actors && PcOf(w, b).Exclusive? :: !PcOf(w, b).task.CommitTask?
    requires InBounds(w.fs.objects, limits)
    ensures Bounded(w, limits)
  {
  }

  // ------------------------------------------------------- a commit's own steps

  lemma AdmitBounds(w: World, w': World, a: nat, j: Job, limits: Limits)
    requires InBounds(w.fs.objects, limits) && AdmitStep(w, w', a, j, limits)
    ensures PhaseBound(w', j, PcOf(w', a).phase, limits)
  {
  }

  lemma JobBytes(j: Job)
    requires JobOk(j)
    ensures ObjectBytes(JobDir(j)) == j.record.storedBytes
  {
    JobSeals(j, map[ObjOf(j.record) := JobDir(j)]);
    StoredBytesAreObjectBytes(JobDir(j), j.record);
  }

  /** The new object has a name no ref could know. */
  lemma NewName(w: World, a: nat, j: Job, prior: Option<Record>, retained: bool)
    requires Inv(w) && InPhase(w, a, CommitTask(j), Admitted(prior, retained))
    ensures JobOk(j) && j.record.generation in w.temps && w.temps[j.record.generation] == JobDir(j)
    ensures ObjOf(j.record) !in w.fs.objects && ObjOf(j.record) !in Going(prior, retained)
  {
    assert PcOk(w, PcOf(w, a));
    if prior.Some? {
      assert RefOk(PathOf(j.key), w.fs.refs[PathOf(j.key)], w.fs.objects);
    }
  }

  lemma RenameInstalls(w: World, w': World, a: nat, j: Job, prior: Option<Record>, retained: bool)
    requires |j.lens| == |j.content.parts|
    requires j.record.generation in w.temps && w.temps[j.record.generation] == JobDir(j)
    requires RenameStep(w, w', a, j, prior, retained)
    ensures Committing(w', a, j) && PcOf(w', a).phase == Renamed(prior, retained)
    ensures w'.fs.objects == w.fs.objects[ObjOf(j.record) := JobDir(j)] && w'.leases == w.leases
  {
  }

  lemma RenamedBounds(w: World, w': World, j: Job, prior: Option<Record>, retained: bool, limits: Limits)
    requires JobOk(j) && w'.fs.objects == w.fs.objects[ObjOf(j.record) := JobDir(j)] && w'.leases == w.leases
    requires ObjOf(j.record) !in w.fs.objects && ObjOf(j.record) !in Going(prior, retained)
    requires PhaseBound(w, j, Admitted(prior, retained), limits)
    ensures PhaseBound(w', j, Renamed(prior, retained), limits)
  {
    JobBytes(j);
    InstalledInBounds(w.fs.objects, ObjOf(j.record), JobDir(j), Going(prior, retained), limits);
    UpdateThenMinus(w.fs.objects, ObjOf(j.record), JobDir(j));
  }

  lemma RenameBounds(w: World, w': World, a: nat, j: Job, prior: Option<Record>, retained: bool, limits: Limits)
    requires JobOk(j) && j.record.generation in w.temps && w.temps[j.record.generation] == JobDir(j)
    requires ObjOf(j.record) !in w.fs.objects && ObjOf(j.record) !in Going(prior, retained)
    requires PhaseBound(w, j, Admitted(prior, retained), limits)
    requires RenameStep(w, w', a, j, prior, retained)
    ensures Committing(w', a, j) && PhaseBound(w', j, PcOf(w', a).phase, limits)
  {
    RenameInstalls(w, w', a, j, prior, retained);
    RenamedBounds(w, w', j, prior, retained, limits);
  }

  lemma PublishBounds(w: World, w': World, a: nat, j: Job, prior: Option<Record>, retained: bool, limits: Limits)
    requires PhaseBound(w, j, Renamed(prior, retained), limits) && PublishStep(w, w', a, j, prior, retained)
    ensures PhaseBound(w', j, PcOf(w', a).phase, limits)
  {
  }

  lemma UndoBounds(w: World, w': World, a: nat, j: Job, prior: Option<Record>, retained: bool, limits: Limits)
    requires !Leased(w, ObjOf(j.record)) && InBounds(w.fs.objects - {ObjOf(j.record)}, limits)
    requires UndoRenameStep(w, w', a, j, prior, retained) || UndoPublishStep(w, w', a, j, prior, retained)
    ensures Committing(w', a, j) && PhaseBound(w', j, PcOf(w', a).phase, limits)
  {
    assert w'.leases == w.leases && w'.fs.objects == w.fs.objects;
  }

  lemma KeptBounds(w: World, w': World, j: Job, prior: Option<Record>, retained: bool, limits: Limits)
    requires w'.fs == w.fs && w'.leases == w.leases && PhaseBound(w, j, Published(prior, retained), limits)
    ensures PhaseBound(w', j, if prior.Some? then Removing(ObjOf(prior.value), Done(true)) else Done(true), limits)
  {
    assert w.fs.objects - {} == w.fs.objects;
    if prior.Some? && retained {
      FewerInBounds(w.fs.objects, {ObjOf(prior.value)}, limits);
    }
  }

  lemma KeepBounds(w: World, w': World, a: nat, j: Job, prior: Option<Record>, retained: bool, limits: Limits)
    requires PhaseBound(w, j, Published(prior, retained), limits) && KeepStep(w, w', a, j, prior, retained)
    ensures PhaseBound(w', j, PcOf(w', a).phase, limits)
  {
    KeptBounds(w, w', j, prior, retained, limits);
  }

  lemma ErosionBounds(w: World, w': World, a: nat, j: Job, o: ObjPath, after: Phase, dir: ObjectDir, limits: Limits)
    requires ErodeStep(w, w', a, CommitTask(j), o, after, dir) && PhaseEnds(after)
    requires PhaseBound(w, j, Removing(o, after), limits)
    ensures Committing(w', a, j) && PhaseBound(w', j, PcOf(w', a).phase, limits)
  {
    if after.Done? {
      UpdateThenMinus(w.fs.objects, o, dir);
    } else {
      WornInBounds(w.fs.objects, o, dir, limits);
    }
  }

  lemma DeletedBounds(w: World, w': World, j: Job, o: ObjPath, after: Phase, limits: Limits)
    requires w'.fs.objects == w.fs.objects - {o} && PhaseEnds(after)
    requires PhaseBound(w, j, Removing(o, after), limits)
    ensures PhaseBound(w', j, after, limits)
  {
    if after.Sweeping? {
      FewerInBounds(w.fs.objects, {o}, limits);
    }
  }

  lemma RemoveDeletes(w: World, w': World, a: nat, j: Job, o: ObjPath, after: Phase)
    requires RemoveObjectStep(w, w', a, CommitTask(j), o, after)
    ensures Committing(w', a, j) && PcOf(w', a).phase == after && w'.fs.objects == w.fs.objects - {o}
  {
  }

  lemma RemoveBounds(w: World, w': World, a: nat, j: Job, o: ObjPath, after: Phase, limits: Limits)
    requires RemoveObjectStep(w, w', a, CommitTask(j), o, after) && PhaseEnds(after)
    requires PhaseBound(w, j, Removing(o, after), limits)
    ensures Committing(w', a, j) && PhaseBound(w', j, PcOf(w', a).phase, limits)
  {
    RemoveDeletes(w, w', a, j, o, after);
    DeletedBounds(w, w', j, o, after, limits);
  }

  /** Where a removal can lead to. */
  predicate PhaseEnds(after: Phase) {
    after.Sweeping? || after.Done?
  }

  /**
   * Unlinking a ref, choosing an orphan, failing to unlink before the rename and sparing a leased object
   * leave all objects in place.
   */
  lemma QuietRemoval(w: World, e: Event, w': World, a: nat, j: Job)
    requires RemovalStep(w, e, w') && Mover(e) == Some(a) && !CutsShort(w, e) && !e.Erosion? && !e.RemoveObject?
    requires Committing(w, a, j) && (PcOf(w, a).phase.Removing? ==> PhaseEnds(PcOf(w, a).phase.after))
    ensures Committing(w', a, j) && w'.fs.objects == w.fs.objects && w'.leases == w.leases
    ensures var ph, ph' := PcOf(w, a).phase, PcOf(w', a).phase;
            || (ph.Sweeping? && ph'.Removing? && ph'.after.Sweeping?)
            || (ph.Removing? && ph' == ph.after && (Leased(w, ph.target) || ph.after.Sweeping?))
  {
  }

  lemma SparedBounds(w: World, w': World, j: Job, o: ObjPath, after: Phase, limits: Limits)
    requires w'.fs.objects == w.fs.objects && PhaseEnds(after) && (Leased(w, o) || after.Sweeping?)
    requires PhaseBound(w, j, Removing(o, after), limits)
    ensures PhaseBound(w', j, after, limits)
  {
  }

  lemma QuietRemovalBounds(w: World, e: Event, w': World, a: nat, j: Job, limits: Limits)
    requires RemovalStep(w, e, w') && Mover(e) == Some(a) && !CutsShort(w, e) && !e.Erosion? && !e.RemoveObject?
    requires Committing(w, a, j) && PhaseBound(w, j, PcOf(w, a).phase, limits)
    requires PcOf(w, a).phase.Removing? ==> PhaseEnds(PcOf(w, a).phase.after)
    ensures Committing(w', a, j) && PhaseBound(w', j, PcOf(w', a).phase, limits)
  {
    QuietRemoval(w, e, w', a, j);
    if PcOf(w, a).phase.Removing? {
      SparedBounds(w, w', j, PcOf(w, a).phase.target, PcOf(w, a).phase.after, limits);
    }
  }

  lemma RemovalKinds(w: World, e: Event, w': World, a: nat, j: Job)
    requires RemovalStep(w, e, w') && Mover(e) == Some(a) && Committing(w, a, j)
    ensures e.Erosion? ==> ErodeStep(w, w', a, CommitTask(j), e.o, e.after, e.dir)
    ensures e.RemoveObject? ==> RemoveObjectStep(w, w', a, CommitTask(j), e.o, e.after)
  {
  }

  lemma RemovalBounds(w: World, e: Event, w': World, a: nat, j: Job, limits: Limits)
    requires RemovalStep(w, e, w') && Mover(e) == Some(a) && !CutsShort(w, e)
    requires Committing(w, a, j) && PhaseBound(w, j, PcOf(w, a).phase, limits)
    requires PcOf(w, a).phase.Removing? ==> PhaseEnds(PcOf(w, a).phase.after)
    ensures Committing(w', a, j) && PhaseBound(w', j, PcOf(w', a).phase, limits)
  {
    RemovalKinds(w, e, w', a, j);
    if e.Erosion? {
      ErosionBounds(w, w', a, j, e.o, e.after, e.dir, limits);
    } else if e.RemoveObject? {
      RemoveBounds(w, w', a, j, e.o, e.after, limits);
    } else {
      QuietRemovalBounds(w, e, w', a, j, limits);
    }
  }

  // ------------------------------------------------------------ every step keeps it

  /** No admission under other limits, and no publication cut short. */
  ghost predicate Obeys(w: World, e: Event, limits: Limits) {
    !CutsShort(w, e) && (e.Admit? ==> e.limits == limits)
  }

  predicate EndsCommit(e: Event) {
    e.Return? || e.Refuse? || e.Leave?
  }

  lemma NewObjectUnleased(w: World, a: nat, j: Job, prior: Option<Record>, retained: bool)
    requires Inv(w)
             && (InPhase(w, a, CommitTask(j), Renamed(prior, retained))
                 || InPhase(w, a, CommitTask(j), Published(prior, retained)))
    ensures !Leased(w, ObjOf(j.record))
  {
    assert PcOk(w, PcOf(w, a));
  }

  lemma OtherCase(w: World, e: Event, w': World, a: nat, j: Job, limits: Limits)
    requires CommitStep(w, e, w') && Mover(e) == Some(a) && Obeys(w, e, limits) && (e.Admit? || e.Publish? || e.Keep?)
    requires Committing(w, a, j) && PhaseBound(w, j, PcOf(w, a).phase, limits)
    ensures Committing(w', a, j) && PhaseBound(w', j, PcOf(w', a).phase, limits)
  {
    if e.Admit? {
      AdmitBounds(w, w', a, j, limits);
    } else if e.Publish? {
      PublishBounds(w, w', a, j, e.prior, e.retained, limits);
    } else {
      KeepBounds(w, w', a, j, e.prior, e.retained, limits);
    }
  }

  lemma CommitKinds(w: World, e: Event, w': World, a: nat, j: Job)
    requires CommitStep(w, e, w') && Mover(e) == Some(a) && !CutsShort(w, e) && !EndsCommit(e) && Committing(w, a, j)
    ensures e.Rename? ==> RenameStep(w, w', a, j, e.prior, e.retained)
    ensures e.UndoRename? ==> UndoRenameStep(w, w', a, j, e.prior, e.retained)
    ensures e.UndoPublish? ==> UndoPublishStep(w, w', a, j, e.prior, e.retained)
    ensures e.Admit? || e.Publish? || e.Keep? || e.Rename? || e.UndoRename? || e.UndoPublish?
  {
  }

  lemma CommitBounds(w: World, e: Event, w': World, a: nat, j: Job, limits: Limits)
    requires Inv(w) && CommitStep(w, e, w') && Mover(e) == Some(a) && Obeys(w, e, limits) && !EndsCommit(e)
    requires Committing(w, a, j) && PhaseBound(w, j, PcOf(w, a).phase, limits)
    ensures Committing(w', a, j) && PhaseBound(w', j, PcOf(w', a).phase, limits)
  {
    CommitKinds(w, e, w', a, j);
    if e.Rename? {
      NewName(w, a, j, e.prior, e.retained);
      RenameBounds(w, w', a, j, e.prior, e.retained, limits);
    } else if e.UndoRename? || e.UndoPublish? {
      NewObjectUnleased(w, a, j, e.prior, e.retained);
      UndoBounds(w, w', a, j, e.prior, e.retained, limits);
    } else {
      OtherCase(w, e, w', a, j, limits);
    }
  }

  lemma EndBounds(w: World, e: Event, w': World, a: nat, j: Job, limits: Limits)
    requires CommitStep(w, e, w') && Mover(e) == Some(a) && EndsCommit(e)
    requires Committing(w, a, j) && PhaseBound(w, j, PcOf(w, a).phase, limits)
    ensures InBounds(w'.fs.objects, limits) && !InSection(w', a) && OnlyMoved(w, w', a)
  {
    EndsOutside(w, e, w', a, j);
  }

  lemma EndsOutside(w: World, e: Event, w': World, a: nat, j: Job)
    requires CommitStep(w, e, w') && Mover(e) == Some(a) && EndsCommit(e) && Committing(w, a, j)
    ensures w'.fs == w.fs && !InSection(w', a) && OnlyMoved(w, w', a)
    ensures PcOf(w, a).phase.Done? || PcOf(w, a).phase.Sweeping? || PcOf(w, a).phase.Admitted?
  {
  }

  lemma EndedBounds(w: World, e: Event, w': World, a: nat, j: Job, limits: Limits)
    requires Exclusion(w) && CommitStep(w, e, w') && Mover(e) == Some(a) && EndsCommit(e)
    requires Committing(w, a, j) && PhaseBound(w, j, PcOf(w, a).phase, limits)
    ensures Bounded(w', limits)
  {
    EndBounds(w, e, w', a, j, limits);
    forall b | b in w'.actors
      ensures !PcOf(w', b).Exclusive?
    {
      if b != a {
        Alone(w, a, b);
      }
    }
    NoneCommitting(w', limits);
  }

  lemma InvPhase(w: World, a: nat, j: Job)
    requires Inv(w) && Committing(w, a, j)
    ensures PcOf(w, a).phase.Removing? ==> PhaseEnds(PcOf(w, a).phase.after)
  {
    assert PcOk(w, PcOf(w, a));
  }

  lemma MoverBounds(w: World, e: Event, w': World, a: nat, j: Job, limits: Limits)
    requires Inv(w) && Exclusion(w') && Step(w, e, w') && Mover(e) == Some(a) && Obeys(w, e, limits)
    requires Committing(w, a, j) && PhaseBound(w, j, PcOf(w, a).phase, limits)
    ensures Bounded(w', limits)
  {
    SectionEvents(w, e, w', a);
    if RemovalStep(w, e, w') {
      InvPhase(w, a, j);
      RemovalBounds(w, e, w', a, j, limits);
      SectionDecides(w', a, j, limits);
    } else if EndsCommit(e) {
      EndedBounds(w, e, w', a, j, limits);
    } else {
      CommitBounds(w, e, w', a, j, limits);
      SectionDecides(w', a, j, limits);
    }
  }

  lemma SamePhaseBound(w: World, w': World, j: Job, ph: Phase, limits: Limits)
    requires w'.fs == w.fs && LeasedObjects(w') <= LeasedObjects(w) && PhaseBound(w, j, ph, limits)
    ensures PhaseBound(w', j, ph, limits)
  {
  }

  lemma BystanderBounds(w: World, e: Event, w': World, a: nat, j: Job, limits: Limits)
    requires Inv(w) && Inv(w') && Step(w, e, w') && Mover(e) != Some(a)
    requires At(w, a) && (e.Crash? ==> e.instance != w.actors[a].instance)
    requires Committing(w, a, j) && PhaseBound(w, j, PcOf(w, a).phase, limits)
    ensures Bounded(w', limits)
  {
    OthersStayAlive(w, e, w', a);
    SectionGrantsNone(w, e, w', a);
    StepChanges(w, e, w');
    if ChangesFs(e) {
      SectionIsPrivate(w, e, w', a);
    }
    SamePhaseBound(w, w', j, PcOf(w, a).phase, limits);
    SectionDecides(w', a, j, limits);
  }

  /** A crash that takes a commit along leaves its disk behind, which is within bounds unless it was mid-publication. */
  lemma CrashedBounds(w: World, e: Event, w': World, a: nat, j: Job, limits: Limits)
    requires Exclusion(w) && Step(w, e, w') && e.Crash? && Committing(w, a, j) && e.instance == w.actors[a].instance
    requires PhaseBound(w, j, PcOf(w, a).phase, limits) && !CutsShort(w, e)
    ensures Bounded(w', limits)
  {
    CrashIs(w, e, w');
    PhaseGivesBounds(w, j, PcOf(w, a).phase, limits);
    forall b | b in w'.actors
      ensures !PcOf(w', b).Exclusive?
    {
      CrashMoves(w, w', e.instance, b);
      Alone(w, a, b);
    }
    NoneCommitting(w', limits);
  }

  lemma CrashIs(w: World, e: Event, w': World)
    requires Step(w, e, w') && e.Crash?
    ensures CrashStep(w, w', e.instance) && w'.fs == w.fs
  {
  }

  // Steps while no commit is in its critical section.

  predicate CommitPc(pc: Pc) {
    pc.Exclusive? && pc.task.CommitTask?
  }

  ghost predicate NoCommit(w: World) {
    forall b | b in w.actors :: !CommitPc(PcOf(w, b))
  }

  ghost predicate JustEntering(w: World) {
    forall b | b in w.actors && CommitPc(PcOf(w, b)) :: PcOf(w, b).phase.Sweeping?
  }

  lemma RemovalEntersNone(w: World, e: Event, w': World)
    requires RemovalStep(w, e, w') && NoCommit(w)
    ensures NoCommit(w')
  {
    RemovalMoves(w, e, w');
  }

  lemma CommitStepNeedsCommit(w: World, e: Event, w': World)
    requires CommitStep(w, e, w') && NoCommit(w)
    ensures e.Leave? && NoCommit(w')
  {
  }

  lemma CallEntersNone(w: World, e: Event, w': World)
    requires CallStep(w, e, w') && NoCommit(w)
    ensures NoCommit(w')
  {
    CallMoves(w, e, w');
  }

  lemma LockEntersSweeping(w: World, e: Event, w': World)
    requires LockStep(w, e, w') && NoCommit(w)
    ensures JustEntering(w')
  {
  }

  lemma LookupEntersNone(w: World, e: Event, w': World)
    requires LookupStep(w, e, w') && NoCommit(w)
    ensures NoCommit(w')
  {
    LookupMoves(w, e, w');
  }

  lemma EntersSweeping(w: World, e: Event, w': World)
    requires Step(w, e, w') && NoCommit(w)
    ensures JustEntering(w')
  {
    if CallStep(w, e, w') {
      CallEntersNone(w, e, w');
    } else if LockStep(w, e, w') {
      LockEntersSweeping(w, e, w');
    } else if LookupStep(w, e, w') {
      LookupEntersNone(w, e, w');
    } else if RemovalStep(w, e, w') {
      RemovalEntersNone(w, e, w');
    } else {
      CommitStepNeedsCommit(w, e, w');
    }
  }

  /** What a removal event does to objects: one worn, one gone, or nothing. */
  lemma RemovalObjects(w: World, e: Event, w': World)
    requires RemovalStep(w, e, w')
    ensures e.Erosion? ==>
              e.o in w.fs.objects && Worn(w.fs.objects[e.o], e.dir) && w'.fs.objects == w.fs.objects[e.o := e.dir]
    ensures e.RemoveObject? ==> w'.fs.objects == w.fs.objects - {e.o}
    ensures !e.Erosion? && !e.RemoveObject? ==> w'.fs.objects == w.fs.objects
  {
  }

  lemma SweepObjects(w: World, e: Event, w': World, limits: Limits)
    requires RemovalStep(w, e, w') && InBounds(w.fs.objects, limits)
    ensures InBounds(w'.fs.objects, limits)
  {
    RemovalObjects(w, e, w');
    if e.Erosion? {
      WornInBounds(w.fs.objects, e.o, e.dir, limits);
    } else if e.RemoveObject? {
      FewerInBounds(w.fs.objects, {e.o}, limits);
    }
  }

  lemma UncommittedBounds(w: World, e: Event, w': World, limits: Limits)
    requires Step(w, e, w') && NoCommit(w) && InBounds(w.fs.objects, limits)
    ensures Bounded(w', limits)
  {
    EntersSweeping(w, e, w');
    StepChanges(w, e, w');
    if ChangesFs(e) {
      StepKind(w, e, w');
      if RemovalStep(w, e, w') {
        SweepObjects(w, e, w', limits);
      } else {
        CommitStepNeedsCommit(w, e, w');
      }
    }
    EnteringBounds(w', limits);
  }

  lemma EnteringBounds(w: World, limits: Limits)
    requires JustEntering(w) && InBounds(w.fs.objects, limits)
    ensures Bounded(w, limits)
  {
  }

  lemma StepBounds(w: World, e: Event, w': World, limits: Limits)
    requires Inv(w) && Inv(w') && Step(w, e, w') && Bounded(w, limits) && Obeys(w, e, limits)
    ensures Bounded(w', limits)
  {
    if a :| a in w.actors && CommitPc(PcOf(w, a)) {
      var j := PcOf(w, a).task.job;
      if Mover(e) == Some(a) {
        MoverBounds(w, e, w', a, j, limits);
      } else if e.Crash? && e.instance == w.actors[a].instance {
        CrashedBounds(w, e, w', a, j, limits);
      } else {
        BystanderBounds(w, e, w', a, j, limits);
      }
    } else {
      UncommittedBounds(w, e, w', limits);
    }
  }

  lemma InitBounds(limits: Limits)
    ensures Bounded(Init(), limits)
  {
    assert Weights(map[]) == map[];
  }

  lemma {:induction false} RunBounds(ws: seq<World>, es: seq<Event>, i: nat, limits: Limits)
    requires Run(ws, es) && i < |ws| && forall m | 0 <= m < i :: Obeys(ws[m], es[m], limits)
    ensures Bounded(ws[i], limits)
  {
    hide Step, Inv, Bounded, Obeys, History;
    if i == 0 {
      InitBounds(limits);
    } else {
      RunBounds(ws, es, i - 1, limits);
      RunKeeps(ws, es, i - 1);
      RunKeeps(ws, es, i);
      assert StepAt(ws, es, i - 1);
      StepBounds(ws[i - 1], es[i - 1], ws[i], limits);
    }
  }

  /**
   * With equal limits everywhere, and no publication cut short by a crash of its process, a failed unlink
   * or a failed rollback: whenever nobody is between a rename and the removal that follows it, all objects
   * on disk, the refs' and the orphans' together, are within both limits.  Other crashes and failures do
   * no harm.
   */
  lemma QuiescentWithinLimits(ws: seq<World>, es: seq<Event>, i: nat, limits: Limits)
    requires Run(ws, es) && i < |ws| && forall m | 0 <= m < i :: Obeys(ws[m], es[m], limits)
    requires forall a | a in ws[i].actors :: !Critical(PcOf(ws[i], a))
    ensures Total(Weights(ws[i].fs.objects)) <= limits.maxBytes && |ws[i].fs.objects| <= limits.maxEntries
  {
    RunBounds(ws, es, i, limits);
  }
}
