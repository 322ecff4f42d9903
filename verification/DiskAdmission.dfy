/**
 * What admission buys a single commit, whatever happened before it: when it is about to return
 * `Stored`, whether everything on disk is within the limits it was admitted under.
 */
module DiskAdmission {
  import opened Wrappers
  import opened Sums
  import opened DiskModel
  import opened DiskProtocol
  import opened DiskMoves
  import opened DiskHistory
  import opened DiskRuns
  import opened DiskSections
  import opened DiskBounds

  /** What the admission test still guarantees in each phase that leads to `Stored`. */
  ghost predicate Room(objects: map<ObjPath, ObjectDir>, leased: set<ObjPath>, j: Job, ph: Phase, limits: Limits) {
    match ph
    case Admitted(prior, retained) =>
      Spared(leased, prior, retained) && Fits(objects, Going(prior, retained), j.record.storedBytes, limits)
    case Renamed(prior, retained) =>
      Spared(leased, prior, retained) && InBounds(objects - Going(prior, retained), limits)
    case Published(prior, retained) =>
      Spared(leased, prior, retained) && InBounds(objects - Going(prior, retained), limits)
    case Removing(o, after) =>
      after == Done(true) ==> InBounds(objects - {o}, limits) && (o in leased ==> InBounds(objects, limits))
    case Done(stored) => stored ==> InBounds(objects, limits)
    case _ => true
  }

  ghost predicate HasRoom(w: World, a: nat, j: Job, limits: Limits) {
    Committing(w, a, j) && Room(w.fs.objects, LeasedObjects(w), j, PcOf(w, a).phase, limits)
  }

  lemma FewerLeasesRoom(objects: map<ObjPath, ObjectDir>, leased: set<ObjPath>, fewer: set<ObjPath>, j: Job, ph: Phase,
                        limits: Limits)
    requires Room(objects, leased, j, ph, limits) && fewer <= leased
    ensures Room(objects, fewer, j, ph, limits)
  {
  }

  lemma AdmitRoom(w: World, w': World, a: nat, j: Job, limits: Limits)
    requires AdmitStep(w, w', a, j, limits)
    ensures HasRoom(w', a, j, limits)
  {
  }

  lemma InstallRoom(objects: map<ObjPath, ObjectDir>, leased: set<ObjPath>, j: Job, prior: Option<Record>,
                    retained: bool, limits: Limits)
    requires JobOk(j) && Room(objects, leased, j, Admitted(prior, retained), limits)
    requires ObjOf(j.record) !in objects && ObjOf(j.record) !in Going(prior, retained)
    ensures Room(objects[ObjOf(j.record) := JobDir(j)], leased, j, Renamed(prior, retained), limits)
  {
    JobBytes(j);
    InstalledInBounds(objects, ObjOf(j.record), JobDir(j), Going(prior, retained), limits);
  }

  lemma RenameRoom(w: World, w': World, a: nat, j: Job, prior: Option<Record>, retained: bool, limits: Limits)
    requires Inv(w) && RenameStep(w, w', a, j, prior, retained) && HasRoom(w, a, j, limits)
    ensures HasRoom(w', a, j, limits)
  {
    NewName(w, a, j, prior, retained);
    RenameInstalls(w, w', a, j, prior, retained);
    InstallRoom(w.fs.objects, LeasedObjects(w), j, prior, retained, limits);
  }

  lemma KeepRoom(objects: map<ObjPath, ObjectDir>, leased: set<ObjPath>, j: Job, prior: Option<Record>, retained: bool,
                 limits: Limits)
    requires Room(objects, leased, j, Published(prior, retained), limits)
    ensures prior.None? ==> Room(objects, leased, j, Done(true), limits)
    ensures prior.Some? ==> Room(objects, leased, j, Removing(ObjOf(prior.value), Done(true)), limits)
  {
    assert objects - {} == objects;
    if prior.Some? && retained {
      FewerInBounds(objects, {ObjOf(prior.value)}, limits);
    }
  }

  /** The events of a commit after its admission, other than the rename and removals. */
  lemma PlainStep(w: World, e: Event, w': World, a: nat, j: Job)
    requires CommitStep(w, e, w') && Mover(e) == Some(a) && !Fails(e) && !e.Rename? && !e.Admit?
    requires Committing(w, a, j) && Committing(w', a, j)
    ensures w'.fs.objects == w.fs.objects && w'.leases == w.leases
    ensures var ph, ph' := PcOf(w, a).phase, PcOf(w', a).phase;
            || (ph.Renamed? && ph' == Published(ph.prior, ph.retained))
            || (ph'.Removing? && ph'.after == Done(false))
            || (ph.Published? && ph.prior.None? && ph' == Done(true))
            || (ph.Published? && ph.prior.Some? && ph' == Removing(ObjOf(ph.prior.value), Done(true)))
  {
  }

  lemma PlainRoom(w: World, e: Event, w': World, a: nat, j: Job, limits: Limits)
    requires CommitStep(w, e, w') && Mover(e) == Some(a) && !Fails(e) && !e.Rename? && !e.Admit?
    requires HasRoom(w, a, j, limits) && Committing(w', a, j)
    ensures HasRoom(w', a, j, limits)
  {
    PlainStep(w, e, w', a, j);
    var ph := PcOf(w, a).phase;
    if ph.Published? {
      KeepRoom(w.fs.objects, LeasedObjects(w), j, ph.prior, ph.retained, limits);
    }
  }

  /** A removal after admission: its target is worn, gone, or spared because it is leased. */
  lemma RemovalStepKinds(w: World, e: Event, w': World, a: nat, j: Job)
    requires RemovalStep(w, e, w') && Mover(e) == Some(a) && !Fails(e)
    requires Committing(w, a, j) && PcOf(w, a).phase.Removing?
    ensures Committing(w', a, j) && w'.leases == w.leases
    ensures var ph, ph' := PcOf(w, a).phase, PcOf(w', a).phase;
            || (ph' == ph && ph.target in w.fs.objects && e.Erosion?
                && w'.fs.objects == w.fs.objects[ph.target := e.dir]
                && !Leased(w, ph.target))
            || (ph' == ph.after && w'.fs.objects == w.fs.objects - {ph.target} && !Leased(w, ph.target))
            || (ph' == ph.after && w'.fs.objects == w.fs.objects && Leased(w, ph.target))
  {
  }

  lemma RemovalRoom(w: World, e: Event, w': World, a: nat, j: Job, limits: Limits)
    requires RemovalStep(w, e, w') && Mover(e) == Some(a) && !Fails(e)
    requires HasRoom(w, a, j, limits) && PcOf(w, a).phase.Removing? && PcOf(w, a).phase.after.Done?
    ensures HasRoom(w', a, j, limits)
  {
    RemovalStepKinds(w, e, w', a, j);
    if e.Erosion? && PcOf(w', a).phase == PcOf(w, a).phase {
      UpdateThenMinus(w.fs.objects, PcOf(w, a).phase.target, e.dir);
    }
  }

  /** Nothing that others do in the meantime takes the room away. */
  lemma BystanderRoom(w: World, e: Event, w': World, a: nat, j: Job, limits: Limits)
    requires Inv(w) && Step(w, e, w') && Mover(e) != Some(a) && HasRoom(w, a, j, limits) && Committing(w', a, j)
    ensures HasRoom(w', a, j, limits)
  {
    OthersStay(w, e, w', a);
    SectionGrantsNone(w, e, w', a);
    StepChanges(w, e, w');
    if ChangesFs(e) {
      SectionIsPrivate(w, e, w', a);
    }
    FewerLeasesRoom(w.fs.objects, LeasedObjects(w), LeasedObjects(w'), j, PcOf(w, a).phase, limits);
  }

  /** Past its admission a commit is never sweeping again. */
  predicate PastAdmission(ph: Phase) {
    ph.Admitted? || ph.Renamed? || ph.Published? || ph.Done? || (ph.Removing? && ph.after.Done?)
  }

  lemma OwnEvent(w: World, e: Event, w': World, a: nat, j: Job)
    requires Step(w, e, w') && Mover(e) == Some(a) && Committing(w, a, j) && PastAdmission(PcOf(w, a).phase)
    ensures RemovalStep(w, e, w') ==> PcOf(w, a).phase.Removing?
    ensures RemovalStep(w, e, w') || CommitStep(w, e, w')
    ensures CommitStep(w, e, w') ==> !e.Admit? && (e.Rename? ==> RenameStep(w, w', a, j, e.prior, e.retained))
  {
    SectionEvents(w, e, w', a);
  }

  lemma OwnRoom(w: World, e: Event, w': World, a: nat, j: Job, limits: Limits)
    requires Inv(w) && Step(w, e, w') && Mover(e) == Some(a) && !Fails(e) && HasRoom(w, a, j, limits)
    requires PastAdmission(PcOf(w, a).phase) && Committing(w', a, j)
    ensures HasRoom(w', a, j, limits)
  {
    OwnEvent(w, e, w', a, j);
    if RemovalStep(w, e, w') {
      RemovalRoom(w, e, w', a, j, limits);
    } else if e.Rename? {
      RenameRoom(w, w', a, j, e.prior, e.retained, limits);
    } else {
      PlainRoom(w, e, w', a, j, limits);
    }
  }

  lemma ViewIsPast(fs0: Fs, fs: Fs, j: Job, ph: Phase)
    requires CommitView(fs0, fs, j, ph)
    ensures PastAdmission(ph)
  {
  }

  lemma {:induction false} SpanHasRoom(ws: seq<World>, es: seq<Event>, i: nat, k: nat, a: nat, j: Job)
    requires Run(ws, es) && CommitSpan(ws, es, i, k, a, j) && Unfailing(es, i, k)
    ensures HasRoom(ws[k], a, j, es[i].limits)
    decreases k
  {
    assert StepAt(ws, es, k - 1);
    if i == k - 1 {
      AdmitIsCommit(ws[i], es[i], ws[k]);
      AdmitRoom(ws[i], ws[k], a, j, es[i].limits);
    } else {
      SpanHasRoom(ws, es, i, k - 1, a, j);
      CommitSpanView(ws, es, i, k - 1, a, j);
      ViewIsPast(ws[i].fs, ws[k - 1].fs, j, PcOf(ws[k - 1], a).phase);
      RunKeeps(ws, es, k - 1);
      StepRoom(ws[k - 1], es[k - 1], ws[k], a, j, es[i].limits);
    }
  }

  lemma StepRoom(w: World, e: Event, w': World, a: nat, j: Job, limits: Limits)
    requires Inv(w) && Step(w, e, w') && !Fails(e) && HasRoom(w, a, j, limits)
    requires PastAdmission(PcOf(w, a).phase) && Committing(w', a, j)
    ensures HasRoom(w', a, j, limits)
  {
    if Mover(e) == Some(a) {
      OwnRoom(w, e, w', a, j, limits);
    } else {
      BystanderRoom(w, e, w', a, j, limits);
    }
  }

  // ------------------------------------------------- when the replaced generation stays

  /** The new entry fits beside all that was there but the replaced generation, and what is left of that. */
  ghost predicate FitsBeside(fs0: Fs, fs: Fs, j: Job, limits: Limits) {
    && Former(fs0, j).Some? && Former(fs0, j).value in fs.objects
    && |fs0.objects| + 1 <= limits.maxEntries
    && Total(Weights(fs0.objects - {Former(fs0, j).value})) + j.record.storedBytes
       + ObjectBytes(fs.objects[Former(fs0, j).value]) <= limits.maxBytes
  }

  /** Two entries more than are there without either. */
  lemma TwoMore(objects: map<ObjPath, ObjectDir>, x: ObjPath, dir: ObjectDir, y: ObjPath, dir': ObjectDir)
    requires x !in objects && y !in objects && x != y
    ensures Total(Weights(objects[x := dir][y := dir'])) ==
              Total(Weights(objects)) + ObjectBytes(dir) + ObjectBytes(dir')
    ensures |objects[x := dir][y := dir']| == |objects| + 2
  {
    WeightsGrow(objects, x, dir);
    WeightsGrow(objects[x := dir], y, dir');
    TotalInsert(Weights(objects), x, ObjectBytes(dir));
    TotalInsert(Weights(objects[x := dir]), y, ObjectBytes(dir'));
  }

  lemma OneFewerObject(objects: map<ObjPath, ObjectDir>, o: ObjPath)
    requires o in objects
    ensures |objects - {o}| == |objects| - 1
    ensures Total(Weights(objects - {o})) + ObjectBytes(objects[o]) == Total(Weights(objects))
  {
    var rest := objects - {o};
    assert rest[o := objects[o]] == objects;
    WeightsGrow(rest, o, objects[o]);
    TotalInsert(Weights(rest), o, ObjectBytes(objects[o]));
  }

  /** A stored commit that could not unlink the generation it replaced. */
  ghost predicate BothThere(fs0: Fs, fs: Fs, j: Job) {
    && NewTo(fs0, j) && StoredView(fs0, fs, j)
    && Former(fs0, j).Some? && Lingers(fs0, fs, Former(fs0, j).value) && Former(fs0, j).value != ObjOf(j.record)
  }

  lemma BothCount(fs0: Fs, fs: Fs, j: Job)
    requires BothThere(fs0, fs, j)
    ensures |fs.objects| == |fs0.objects| + 1
    ensures Total(Weights(fs.objects)) == Total(Weights(fs0.objects - {Former(fs0, j).value})) + j.record.storedBytes
                                          + ObjectBytes(fs.objects[Former(fs0, j).value])
  {
    var former, own := Former(fs0, j).value, ObjOf(j.record);
    var rest := fs0.objects - {former};
    assert fs.objects - {former, own} == rest by {
      assert Replaced(fs0, j) + {own} == {former, own};
      assert fs0.objects - {former, own} == rest;
    }
    assert fs.objects == rest[former := fs.objects[former]][own := JobDir(j)];
    TwoMore(rest, former, fs.objects[former], own, JobDir(j));
    OneFewerObject(fs0.objects, former);
    JobBytes(j);
  }

  lemma FailedUnlink(ws: seq<World>, es: seq<Event>, i: nat, k: nat, a: nat, j: Job)
    requires Run(ws, es) && CommitSpan(ws, es, i, k, a, j) && PcOf(ws[k], a).phase == Done(true)
    requires !Unfailing(es, i, k)
    ensures BothThere(ws[i].fs, ws[k].fs, j)
  {
    hide Step, Run, StoredView, Lingers, NewTo;
    SpanStarts(ws, es, i, a, j);
    var f := FailedSpan(ws, es, i, k, a, j);
  }

  /**
   * When a commit is about to return `Stored`, all objects, referenced or orphaned, are within the limits
   * it was admitted under, exactly if it met no failure or the new entry fits beside what it failed to
   * unlink; nothing is asked of what happened before.  For the number of entries the condition can be
   * read off the disk at admission.
   */
  lemma StoredWithinLimits(ws: seq<World>, es: seq<Event>, i: nat, k: nat, a: nat, j: Job)
    requires Run(ws, es) && CommitSpan(ws, es, i, k, a, j) && PcOf(ws[k], a).phase == Done(true)
    ensures Total(Weights(ws[k].fs.objects)) <= es[i].limits.maxBytes && |ws[k].fs.objects| <= es[i].limits.maxEntries
            <==> Unfailing(es, i, k) || FitsBeside(ws[i].fs, ws[k].fs, j, es[i].limits)
    ensures |ws[k].fs.objects| <= es[i].limits.maxEntries
            <==> Unfailing(es, i, k) || |ws[i].fs.objects| + 1 <= es[i].limits.maxEntries
  {
    hide Step, Run, BothThere;
    if Unfailing(es, i, k) {
      SpanHasRoom(ws, es, i, k, a, j);
    } else {
      FailedUnlink(ws, es, i, k, a, j);
      BothCount(ws[i].fs, ws[k].fs, j);
      BothFormer(ws[i].fs, ws[k].fs, j);
    }
  }

  lemma BothFormer(fs0: Fs, fs: Fs, j: Job)
    requires BothThere(fs0, fs, j)
    ensures Former(fs0, j).Some? && Former(fs0, j).value in fs0.objects && Former(fs0, j).value in fs.objects
    ensures ObjectBytes(fs.objects[Former(fs0, j).value]) <= ObjectBytes(fs0.objects[Former(fs0, j).value])
  {
    WornBytes(fs0.objects[Former(fs0, j).value], fs.objects[Former(fs0, j).value]);
  }

  lemma BesideIffFits(fs0: Fs, fs: Fs, j: Job, limits: Limits)
    requires BothThere(fs0, fs, j)
    ensures Fits(fs0.objects, {}, j.record.storedBytes, limits) ==> FitsBeside(fs0, fs, j, limits)
    ensures fs.objects[Former(fs0, j).value] == fs0.objects[Former(fs0, j).value] ==>
              (FitsBeside(fs0, fs, j, limits) <==> Fits(fs0.objects, {}, j.record.storedBytes, limits))
  {
    BothFormer(fs0, fs, j);
    OneFewerObject(fs0.objects, Former(fs0, j).value);
    assert fs0.objects - {} == fs0.objects;
  }

  /**
   * If, at admission, there is room for the new entry without removing anything, the limits hold when the
   * commit is about to return `Stored`, whatever fails; and if an unlink fails and leaves the replaced
   * generation whole, only then.
   */
  lemma RoomForBoth(ws: seq<World>, es: seq<Event>, i: nat, k: nat, a: nat, j: Job)
    requires Run(ws, es) && CommitSpan(ws, es, i, k, a, j) && PcOf(ws[k], a).phase == Done(true)
    ensures Fits(ws[i].fs.objects, {}, j.record.storedBytes, es[i].limits) ==>
              InBounds(ws[k].fs.objects, es[i].limits)
    ensures !Unfailing(es, i, k) ==>
              && Former(ws[i].fs, j).Some? && Former(ws[i].fs, j).value in ws[i].fs.objects
              && Former(ws[i].fs, j).value in ws[k].fs.objects
              && (ws[k].fs.objects[Former(ws[i].fs, j).value] == ws[i].fs.objects[Former(ws[i].fs, j).value] ==>
                    (InBounds(ws[k].fs.objects, es[i].limits)
                     <==> Fits(ws[i].fs.objects, {}, j.record.storedBytes, es[i].limits)))
  {
    hide Step, Run, BothThere, Fits, FitsBeside;
    StoredWithinLimits(ws, es, i, k, a, j);
    if !Unfailing(es, i, k) {
      FailedUnlink(ws, es, i, k, a, j);
      BothFormer(ws[i].fs, ws[k].fs, j);
      BesideIffFits(ws[i].fs, ws[k].fs, j, es[i].limits);
    }
  }

}
