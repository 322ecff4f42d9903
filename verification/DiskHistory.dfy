/**
 * What the protocol promises over whole runs: which publication a hit replays, what a
 * failed commit leaves behind, and what a stale observer can no longer touch.
 */
module DiskHistory {
  import opened Wrappers
  import opened CacheKeys
  import opened DiskModel
  import opened DiskProtocol
  import opened DiskMoves

  // ------------------------------------------------------ what events change

  predicate ChangesFs(e: Event) {
    e.DropRef? || e.Erosion? || e.RemoveObject? || e.Refresh? || e.Rename? || e.Publish? || e.UndoPublish?
  }

  predicate ChangesLog(e: Event) {
    e.Publish? || e.UndoPublish? || e.Return?
  }

  /** The one filesystem step an event performs. */
  function ActOf(e: Event): Act
    requires ChangesFs(e)
    requires e.Rename? ==> |e.j.lens| == |e.j.content.parts|
  {
    match e
    case DropRef(_, _, p) => Unbind(p)
    case Erosion(_, _, o, _, dir) => Erode(o, dir)
    case RemoveObject(_, _, o, _) => Delete(o)
    case Refresh(_, t) =>
      if t.RefreshTask? then Bind(t.path, Parsed(t.renewed)) else Unbind(RefPath(OfScope([]), OfScope([])))
    case Rename(_, j, _, _) => Install(ObjOf(j.record), JobDir(j))
    case Publish(_, j, _, _) => Bind(PathOf(j.key), Parsed(j.record))
    case UndoPublish(_, j, prior, _) => UndoAct(j, prior)
  }

  ghost predicate FewerLeases(w: World, w': World) {
    && (forall l | l in w'.leases :: l in w.leases && w'.leases[l] == w.leases[l])
    && w'.nextLease == w.nextLease
  }

  lemma CallStepChanges(w: World, e: Event, w': World)
    requires CallStep(w, e, w')
    ensures !ChangesFs(e) && !ChangesLog(e)
    ensures w'.fs == w.fs && w'.log == w.log && FewerLeases(w, w')
  {
  }

  lemma LockStepChanges(w: World, e: Event, w': World)
    requires LockStep(w, e, w')
    ensures !ChangesFs(e) && !ChangesLog(e)
    ensures w'.fs == w.fs && w'.log == w.log && FewerLeases(w, w')
  {
  }

  lemma LookupStepChanges(w: World, e: Event, w': World)
    requires LookupStep(w, e, w')
    ensures !ChangesFs(e) && !ChangesLog(e)
    ensures w'.fs == w.fs && w'.log == w.log && (!e.Acquire? ==> FewerLeases(w, w'))
  {
  }

  lemma RemovalStepChanges(w: World, e: Event, w': World)
    requires RemovalStep(w, e, w')
    ensures w'.log == w.log && FewerLeases(w, w') && (!ChangesFs(e) ==> w'.fs == w.fs)
    ensures !ChangesLog(e)
  {
  }

  lemma CommitStepChanges(w: World, e: Event, w': World)
    requires CommitStep(w, e, w')
    ensures FewerLeases(w, w')
    ensures !ChangesFs(e) ==> w'.fs == w.fs
    ensures !ChangesLog(e) ==> w'.log == w.log
  {
  }

  /** Refs and objects, the log and the set of leases each change at named events only. */
  lemma StepChanges(w: World, e: Event, w': World)
    requires Step(w, e, w')
    ensures !ChangesFs(e) ==> w'.fs == w.fs
    ensures !ChangesLog(e) ==> w'.log == w.log
    ensures !e.Acquire? ==> FewerLeases(w, w')
  {
    if CallStep(w, e, w') {
      CallStepChanges(w, e, w');
    } else if LockStep(w, e, w') {
      LockStepChanges(w, e, w');
    } else if LookupStep(w, e, w') {
      LookupStepChanges(w, e, w');
    } else if RemovalStep(w, e, w') {
      RemovalStepChanges(w, e, w');
    } else {
      CommitStepChanges(w, e, w');
    }
  }

  /** A filesystem step is taken inside a critical section, and is an allowed one. */
  lemma EventPerforms(w: World, e: Event, w': World)
    requires Inv(w) && Step(w, e, w') && ChangesFs(e)
    ensures e.Rename? ==> JobOk(e.j)
    ensures Performs(w, w', e.a, ActOf(e))
  {
    StepKind(w, e, w');
    if RemovalStep(w, e, w') {
      RemovalPerforms(w, e, w');
    } else {
      CommitPerforms(w, e, w');
    }
  }

  lemma RemovalPerforms(w: World, e: Event, w': World)
    requires Inv(w) && RemovalStep(w, e, w') && ChangesFs(e)
    ensures !e.Rename? && Performs(w, w', e.a, ActOf(e))
  {
    hide Inv, Performs, DropRefStep, ErodeStep, RemoveObjectStep;
    match e
    case DropRef(a, t, p) => DropRefKeeps(w, w', a, t, p);
    case Erosion(a, t, o, after, dir) => ErodeKeeps(w, w', a, t, o, after, dir);
    case RemoveObject(a, t, o, after) => RemoveObjectKeeps(w, w', a, t, o, after);
    case Refresh(a, t) => RefreshKeeps(w, w', a, t);
    case _ =>
  }

  lemma CommitPerforms(w: World, e: Event, w': World)
    requires Inv(w) && CommitStep(w, e, w') && ChangesFs(e)
    ensures e.Rename? ==> JobOk(e.j)
    ensures Performs(w, w', e.a, ActOf(e))
  {
    hide Inv, Performs, JobOk, RenameStep, PublishStep, UndoPublishStep;
    match e
    case Rename(a, j, prior, retained) => RenameKeeps(w, w', a, j, prior, retained);
    case Publish(a, j, prior, retained) => PublishKeeps(w, w', a, j, prior, retained);
    case UndoPublish(a, j, prior, retained) => UndoPublishKeeps(w, w', a, j, prior, retained);
    case _ =>
  }

  // --------------------------------------------------- the log and the disk agree

  /** The record at `p` is of the latest publication there, and its object replays what was captured. */
  ghost predicate Stands(log: seq<Publication>, objects: map<ObjPath, ObjectDir>, p: RefPath, r: Record) {
    && LastFor(log, p).Some?
    && LastFor(log, p).value.generation == r.generation
    && ObjOf(r) in objects
    && Replays(objects[ObjOf(r)], r, LastFor(log, p).value.content)
  }

  /** A leased object replays the publication its lookup found in force. */
  ghost predicate Honest(objects: map<ObjPath, ObjectDir>, x: Lease) {
    && x.of.key == x.key
    && x.of.generation == x.record.generation
    && ObjOf(x.record) in objects
    && Replays(objects[ObjOf(x.record)], x.record, x.of.content)
    && ValidHit(x.record, objects[ObjOf(x.record)], None)
  }

  ghost predicate Top(log: seq<Publication>, j: Job) {
    log != [] && log[|log| - 1] == Publication(j.key, j.record.generation, j.content, false)
  }

  /** While a commit is between its publication and its return, its entry is the last of the log. */
  ghost predicate PcHistory(log: seq<Publication>, objects: map<ObjPath, ObjectDir>, pc: Pc) {
    pc.Exclusive? && pc.task.CommitTask? ==>
      match pc.phase
      case Published(prior, _) =>
        && Top(log, pc.task.job)
        && (prior.Some? ==> Stands(log[..|log| - 1], objects, PathOf(pc.task.job.key), prior.value))
      case Removing(_, after) => after == Done(true) ==> Top(log, pc.task.job)
      case Done(stored) => stored ==> Top(log, pc.task.job)
      case _ => true
  }

  ghost predicate RefsStand(fs: Fs, log: seq<Publication>) {
    forall p | p in fs.refs :: fs.refs[p].Parsed? && Stands(log, fs.objects, p, fs.refs[p].record)
  }

  ghost predicate History(w: World) {
    && RefsStand(w.fs, w.log)
    && (forall l | l in w.leases :: Honest(w.fs.objects, w.leases[l]))
    && (forall a | a in w.actors :: PcHistory(w.log, w.fs.objects, PcOf(w, a)))
  }

  lemma LastForAppend(log: seq<Publication>, x: Publication, p: RefPath)
    ensures LastFor(log + [x], p) == if PathOf(x.key) == p then Some(x) else LastFor(log, p)
  {
    assert (log + [x])[..|log|] == log;
  }

  lemma {:induction false} LastForPath(log: seq<Publication>, p: RefPath)
    requires LastFor(log, p).Some?
    ensures PathOf(LastFor(log, p).value.key) == p
  {
    if PathOf(log[|log| - 1].key) != p {
      LastForPath(log[..|log| - 1], p);
    }
  }

  // Actors: whoever moved knows what it must; whoever did not is unaffected.

  ghost predicate MovedHistory(w: World, w': World) {
    forall b | b in w'.actors ::
      (b in w.actors && PcOf(w, b) == PcOf(w', b)) || PcHistory(w'.log, w'.fs.objects, PcOf(w', b))
  }

  lemma OutsideMoved(w: World, w': World, a: nat)
    requires MovesOutside(w, w', a)
    ensures MovedHistory(w, w')
  {
  }

  lemma CallStepMoved(w: World, e: Event, w': World)
    requires CallStep(w, e, w')
    ensures MovedHistory(w, w')
  {
    CallMoves(w, e, w');
    OutsideMoved(w, w', Mover(e).value);
  }

  lemma LockStepMoved(w: World, e: Event, w': World)
    requires LockStep(w, e, w')
    ensures MovedHistory(w, w')
  {
    if !e.Crash? {
      LockMoves(w, e, w');
      MoverMoved(w, w', Mover(e).value);
    }
  }

  lemma LookupStepMoved(w: World, e: Event, w': World)
    requires LookupStep(w, e, w')
    ensures MovedHistory(w, w')
  {
    LookupMoves(w, e, w');
    if !e.Release? {
      OutsideMoved(w, w', Mover(e).value);
    }
  }

  ghost predicate RemovalsEnd(w: World) {
    forall b | b in w.actors && PcOf(w, b).Exclusive? && PcOf(w, b).phase.Removing? ::
      PcOf(w, b).phase.after.Sweeping? || PcOf(w, b).phase.after.Done?
  }

  /** Only the mover's own knowledge is at stake. */
  lemma MoverMoved(w: World, w': World, a: nat)
    requires OnlyMoved(w, w', a) && (At(w', a) ==> PcHistory(w'.log, w'.fs.objects, PcOf(w', a)))
    ensures MovedHistory(w, w')
  {
  }

  /** A removal in progress goes on knowing what it knew. */
  lemma TurnKnows(log: seq<Publication>, objects: map<ObjPath, ObjectDir>, objects': map<ObjPath, ObjectDir>, pc: Pc,
                  pc': Pc)
    requires RemovalTurn(pc, pc') && PcHistory(log, objects, pc)
    requires pc.phase.Removing? ==> pc.phase.after.Sweeping? || pc.phase.after.Done?
    ensures pc' == pc || PcHistory(log, objects', pc')
  {
  }

  lemma RemovalStepMoved(w: World, e: Event, w': World)
    requires RemovalStep(w, e, w') && RemovalsEnd(w)
    requires forall b | b in w.actors :: PcHistory(w.log, w.fs.objects, PcOf(w, b))
    ensures MovedHistory(w, w')
  {
    RemovalMoves(w, e, w');
    RemovalStepChanges(w, e, w');
    var a := Mover(e).value;
    TurnKnows(w.log, w.fs.objects, w'.fs.objects, PcOf(w, a), PcOf(w', a));
  }

  lemma CommitMoverKnows(w: World, e: Event, w': World)
    requires CommitStep(w, e, w') && !ChangesLog(e) && !e.Release? && !e.Crash? && At(w, e.a)
    requires PcHistory(w.log, w.fs.objects, PcOf(w, e.a))
    ensures At(w', e.a) ==> PcHistory(w'.log, w'.fs.objects, PcOf(w', e.a))
  {
  }

  lemma CommitStepMoved(w: World, e: Event, w': World)
    requires CommitStep(w, e, w') && !ChangesLog(e)
    requires forall b | b in w.actors :: PcHistory(w.log, w.fs.objects, PcOf(w, b))
    ensures MovedHistory(w, w')
  {
    CommitMoves(w, e, w');
    CommitMoverKnows(w, e, w');
    MoverMoved(w, w', e.a);
  }

  lemma StepMoved(w: World, e: Event, w': World)
    requires Step(w, e, w') && !ChangesLog(e) && RemovalsEnd(w)
    requires forall b | b in w.actors :: PcHistory(w.log, w.fs.objects, PcOf(w, b))
    ensures MovedHistory(w, w')
  {
    if CallStep(w, e, w') {
      CallStepMoved(w, e, w');
    } else if LockStep(w, e, w') {
      LockStepMoved(w, e, w');
    } else if LookupStep(w, e, w') {
      LookupStepMoved(w, e, w');
    } else if RemovalStep(w, e, w') {
      RemovalStepMoved(w, e, w');
    } else {
      CommitStepMoved(w, e, w');
    }
  }

  lemma InvRemovalsEnd(w: World)
    requires Inv(w)
    ensures RemovalsEnd(w)
  {
    assert forall b | b in w.actors :: PcOk(w, PcOf(w, b));
  }

  /** Nobody else is in a critical section. */
  lemma Alone(w: World, a: nat, b: nat)
    requires Exclusion(w) && InSection(w, a) && At(w, b) && b != a
    ensures !HasRoot(PcOf(w, b))
  {
    assert Compatible(w.actors[a], w.actors[b]);
  }

  // Events that leave files and log alone.

  lemma QuietHistory(w: World, e: Event, w': World)
    requires Inv(w) && History(w) && Step(w, e, w') && !ChangesFs(e) && !ChangesLog(e)
    ensures History(w')
  {
    StepChanges(w, e, w');
    InvRemovalsEnd(w);
    StepMoved(w, e, w');
    if e.Acquire? {
      AcquireHistory(w, w', e.a);
    }
  }

  lemma AcquireHistory(w: World, w': World, a: nat)
    requires Inv(w) && History(w) && AcquireStep(w, w', a)
    ensures forall l | l in w'.leases :: Honest(w'.fs.objects, w'.leases[l])
  {
    var pc := PcOf(w, a);
    assert PcOk(w, pc);
    FreshLeaseHonest(w.fs, w.log, pc.key, pc.record, w.actors[a].instance);
  }

  lemma FreshLeaseHonest(fs: Fs, log: seq<Publication>, key: CacheKey, r: Record, instance: nat)
    requires RefAt(fs, PathOf(key)) == Some(r) && RefsStand(fs, log)
    requires RefOk(PathOf(key), fs.refs[PathOf(key)], fs.objects)
    ensures LastFor(log, PathOf(key)).Some?
    ensures Honest(fs.objects, Lease(instance, key, r, LastFor(log, PathOf(key)).value))
  {
    assert Stands(log, fs.objects, PathOf(key), r);
    LastForPath(log, PathOf(key));
  }

  // Events that change files.

  /** The objects that refs and leases rely on are untouched. */
  lemma KeptObjects(fs: Fs, leased: set<ObjPath>, act: Act, o: ObjPath)
    requires Sound(fs, leased) && Allowed(act, fs, leased) && o in fs.objects
    requires Referenced(fs, o) || o in leased
    ensures o in Apply(act, fs).objects && Apply(act, fs).objects[o] == fs.objects[o]
  {
  }

  lemma LeasesKept(w: World, w': World, act: Act)
    requires Sound(w.fs, LeasedObjects(w)) && Allowed(act, w.fs, LeasedObjects(w)) && w'.fs == Apply(act, w.fs)
    requires FewerLeases(w, w') && forall l | l in w.leases :: Honest(w.fs.objects, w.leases[l])
    ensures forall l | l in w'.leases :: Honest(w'.fs.objects, w'.leases[l])
  {
    forall l | l in w'.leases
      ensures Honest(w'.fs.objects, w'.leases[l])
    {
      assert Leased(w, ObjOf(w.leases[l].record));
      KeptObjects(w.fs, LeasedObjects(w), act, ObjOf(w.leases[l].record));
    }
  }

  /** A ref that an act does not rebind stands as before. */
  lemma RefKept(fs: Fs, leased: set<ObjPath>, log: seq<Publication>, act: Act, p: RefPath)
    requires Sound(fs, leased) && Allowed(act, fs, leased)
    requires p in fs.refs && fs.refs[p].Parsed? && Stands(log, fs.objects, p, fs.refs[p].record)
    requires act.Bind? || act.Unbind? ==> act.path != p
    ensures p in Apply(act, fs).refs && Apply(act, fs).refs[p] == fs.refs[p]
    ensures Stands(log, Apply(act, fs).objects, p, fs.refs[p].record)
  {
    assert Refers(fs.refs[p], ObjOf(fs.refs[p].record));
    KeptObjects(fs, leased, act, ObjOf(fs.refs[p].record));
  }

  lemma RefsKept(fs: Fs, leased: set<ObjPath>, log: seq<Publication>, act: Act)
    requires Sound(fs, leased) && Allowed(act, fs, leased) && RefsStand(fs, log)
    requires act.Bind? ==>
               act.path in fs.refs && act.file.Parsed? && SameSeal(fs.refs[act.path].record, act.file.record)
    ensures RefsStand(Apply(act, fs), log)
  {
    forall p | p in Apply(act, fs).refs
      ensures Apply(act, fs).refs[p].Parsed? && Stands(log, Apply(act, fs).objects, p, Apply(act, fs).refs[p].record)
    {
      if act.Bind? && act.path == p {
      } else {
        RefKept(fs, leased, log, act, p);
      }
    }
  }

  lemma ActorsKept(w: World, w': World, a: nat)
    requires Exclusion(w) && InSection(w, a) && OnlyMoved(w, w', a)
    requires forall b | b in w.actors :: PcHistory(w.log, w.fs.objects, PcOf(w, b))
    requires At(w', a) ==> PcHistory(w'.log, w'.fs.objects, PcOf(w', a))
    ensures forall b | b in w'.actors :: PcHistory(w'.log, w'.fs.objects, PcOf(w', b))
  {
    forall b | b in w'.actors && b != a
      ensures PcHistory(w'.log, w'.fs.objects, PcOf(w', b))
    {
      Alone(w, a, b);
    }
  }

  /** What carries the log through a filesystem step: one call, alone in its section, takes an allowed one. */
  ghost predicate Acts(w: World, w': World, a: nat, act: Act) {
    && Exclusion(w) && Sound(w.fs, LeasedObjects(w))
    && InSection(w, a) && OnlyMoved(w, w', a) && FewerLeases(w, w')
    && Allowed(act, w.fs, LeasedObjects(w)) && w'.fs == Apply(act, w.fs)
  }

  lemma PerformsActs(w: World, w': World, a: nat, act: Act)
    requires Exclusion(w) && Sound(w.fs, LeasedObjects(w)) && Performs(w, w', a, act)
    ensures Acts(w, w', a, act)
  {
  }

  lemma RefreshesInPlace(w: World, w': World, a: nat, t: Task)
    requires RefreshStep(w, w', a, t) && PcOk(w, PcOf(w, a))
    ensures t.path in w.fs.refs && SameSeal(w.fs.refs[t.path].record, t.renewed)
  {
  }

  lemma RemovalActs(w: World, e: Event, w': World)
    requires Inv(w) && RemovalStep(w, e, w') && ChangesFs(e)
    ensures !e.Rename? && Acts(w, w', e.a, ActOf(e)) && PcOk(w, PcOf(w, e.a))
  {
    RemovalPerforms(w, e, w');
    PerformsActs(w, w', e.a, ActOf(e));
  }

  lemma RemovalHistory(w: World, e: Event, w': World)
    requires Inv(w) && History(w) && RemovalStep(w, e, w') && ChangesFs(e)
    ensures History(w')
  {
    RemovalActs(w, e, w');
    InvRemovalsEnd(w);
    RemovalHistoryBy(w, e, w');
  }

  lemma RemovalHistoryBy(w: World, e: Event, w': World)
    requires History(w) && RemovalStep(w, e, w') && ChangesFs(e) && RemovalsEnd(w)
    requires !e.Rename? && Acts(w, w', e.a, ActOf(e)) && PcOk(w, PcOf(w, e.a))
    ensures History(w')
  {
    hide Acts;
    RemovalStepChanges(w, e, w');
    RemovalStepMoved(w, e, w');
    if e.Refresh? {
      RefreshesInPlace(w, w', e.a, e.t);
    }
    FsHistoryBy(w, w', e.a, ActOf(e));
  }

  lemma RenameHistory(w: World, w': World, a: nat, j: Job, prior: Option<Record>, retained: bool)
    requires History(w) && RenameStep(w, w', a, j, prior, retained)
    requires JobOk(j) && Acts(w, w', a, Install(ObjOf(j.record), JobDir(j)))
    ensures History(w')
  {
    FsHistoryBy(w, w', a, Install(ObjOf(j.record), JobDir(j)));
  }

  lemma FsHistoryBy(w: World, w': World, a: nat, act: Act)
    requires History(w) && Acts(w, w', a, act)
    requires w'.log == w.log && MovedHistory(w, w')
    requires act.Bind? ==>
               act.path in w.fs.refs && act.file.Parsed? && SameSeal(w.fs.refs[act.path].record, act.file.record)
    requires At(w', a) && PcOf(w', a) == PcOf(w, a) ==> PcHistory(w'.log, w'.fs.objects, PcOf(w', a))
    ensures History(w')
  {
    LeasesKept(w, w', act);
    RefsKept(w.fs, LeasedObjects(w), w.log, act);
    ActorsKept(w, w', a);
  }

  // Publication, rollback, return.

  lemma PublishedStands(fs: Fs, log: seq<Publication>, j: Job)
    requires RefsStand(fs, log) && JobOk(j)
    requires ObjOf(j.record) in fs.objects && fs.objects[ObjOf(j.record)] == JobDir(j)
    ensures RefsStand(Apply(Bind(PathOf(j.key), Parsed(j.record)), fs),
                      log + [Publication(j.key, j.record.generation, j.content, false)])
  {
    var x := Publication(j.key, j.record.generation, j.content, false);
    var fs' := Apply(Bind(PathOf(j.key), Parsed(j.record)), fs);
    forall p | p in fs'.refs
      ensures fs'.refs[p].Parsed? && Stands(log + [x], fs'.objects, p, fs'.refs[p].record)
    {
      LastForAppend(log, x, p);
    }
  }

  lemma PublishedPc(w: World, w': World, a: nat, j: Job, prior: Option<Record>, retained: bool)
    requires PublishStep(w, w', a, j, prior, retained)
    requires RefsStand(w.fs, w.log) && RefAt(w.fs, PathOf(j.key)) == prior
    ensures PcHistory(w'.log, w'.fs.objects, PcOf(w', a))
  {
    assert w'.log[..|w'.log| - 1] == w.log;
  }

  lemma PublishHistory(w: World, w': World, a: nat, j: Job, prior: Option<Record>, retained: bool)
    requires History(w) && PublishStep(w, w', a, j, prior, retained)
    requires Acts(w, w', a, Bind(PathOf(j.key), Parsed(j.record))) && PcOk(w, PcOf(w, a))
    ensures History(w')
  {
    PublishedStands(w.fs, w.log, j);
    LeasesKept(w, w', Bind(PathOf(j.key), Parsed(j.record)));
    PublishedPc(w, w', a, j, prior, retained);
    ActorsKept(w, w', a);
  }

  lemma UndoneStands(fs: Fs, log: seq<Publication>, x: Publication, j: Job, prior: Option<Record>)
    requires RefsStand(fs, log + [x]) && x.key == j.key
    requires prior.Some? ==> Stands(log, fs.objects, PathOf(j.key), prior.value)
    ensures RefsStand(Apply(UndoAct(j, prior), fs), log)
  {
    var fs' := Apply(UndoAct(j, prior), fs);
    forall p | p in fs'.refs
      ensures fs'.refs[p].Parsed? && Stands(log, fs'.objects, p, fs'.refs[p].record)
    {
      LastForAppend(log, x, p);
    }
  }

  lemma UndoneRefs(w: World, w': World, a: nat, j: Job, prior: Option<Record>, retained: bool)
    requires UndoPublishStep(w, w', a, j, prior, retained)
    requires RefsStand(w.fs, w.log) && PcHistory(w.log, w.fs.objects, PcOf(w, a))
    ensures RefsStand(w'.fs, w'.log)
    ensures PcHistory(w'.log, w'.fs.objects, PcOf(w', a))
  {
    assert w.log == w'.log + [w.log[|w.log| - 1]];
    UndoneStands(w.fs, w'.log, w.log[|w.log| - 1], j, prior);
  }

  lemma UndoHistory(w: World, w': World, a: nat, j: Job, prior: Option<Record>, retained: bool)
    requires History(w) && UndoPublishStep(w, w', a, j, prior, retained) && Acts(w, w', a, UndoAct(j, prior))
    ensures History(w')
  {
    UndoneRefs(w, w', a, j, prior, retained);
    LeasesKept(w, w', UndoAct(j, prior));
    ActorsKept(w, w', a);
  }

  lemma ReturnHistory(w: World, w': World, a: nat, j: Job)
    requires Exclusion(w) && History(w) && ReturnStep(w, w', a, j)
    ensures History(w')
  {
    var n := |w.log| - 1;
    var x := w.log[n].(returned := true);
    assert w'.log == w.log[..n] + [x];
    assert w.log == w.log[..n] + [w.log[n]];
    forall p | p in w'.fs.refs
      ensures w'.fs.refs[p].Parsed? && Stands(w'.log, w'.fs.objects, p, w'.fs.refs[p].record)
    {
      LastForAppend(w.log[..n], x, p);
      LastForAppend(w.log[..n], w.log[n], p);
    }
    ActorsKept(w, w', a);
  }

  /** In every step, the refs on disk keep agreeing with the log of publications. */
  lemma StepKeepsHistory(w: World, e: Event, w': World)
    requires Inv(w) && History(w) && Step(w, e, w')
    ensures History(w')
  {
    StepKind(w, e, w');
    if !ChangesFs(e) && !ChangesLog(e) {
      QuietHistory(w, e, w');
    } else if RemovalStep(w, e, w') {
      RemovalHistory(w, e, w');
    } else {
      CommitHistory(w, e, w');
    }
  }

  lemma StepKind(w: World, e: Event, w': World)
    requires Step(w, e, w')
    ensures ChangesFs(e) || ChangesLog(e) ==> RemovalStep(w, e, w') || CommitStep(w, e, w')
    ensures RemovalStep(w, e, w') ==> !ChangesLog(e)
  {
    if CallStep(w, e, w') {
      CallStepChanges(w, e, w');
    } else if LockStep(w, e, w') {
      LockStepChanges(w, e, w');
    } else if LookupStep(w, e, w') {
      LookupStepChanges(w, e, w');
    }
  }

  lemma CommitActs(w: World, e: Event, w': World)
    requires Inv(w) && CommitStep(w, e, w') && ChangesFs(e)
    ensures e.Rename? ==> JobOk(e.j)
    ensures Acts(w, w', e.a, ActOf(e)) && PcOk(w, PcOf(w, e.a))
  {
    CommitPerforms(w, e, w');
    PerformsActs(w, w', e.a, ActOf(e));
  }

  lemma CommitHistory(w: World, e: Event, w': World)
    requires Inv(w) && History(w) && CommitStep(w, e, w') && (ChangesFs(e) || ChangesLog(e))
    ensures History(w')
  {
    if e.Return? {
      ReturnHistory(w, w', e.a, e.j);
    } else {
      CommitActs(w, e, w');
      CommitHistoryBy(w, e, w');
    }
  }

  lemma CommitHistoryBy(w: World, e: Event, w': World)
    requires History(w) && CommitStep(w, e, w') && ChangesFs(e)
    requires (e.Rename? ==> JobOk(e.j)) && Acts(w, w', e.a, ActOf(e)) && PcOk(w, PcOf(w, e.a))
    ensures History(w')
  {
    hide History, Acts, PcOk, JobOk, RenameStep, PublishStep, UndoPublishStep;
    match e
    case Rename(a, j, prior, retained) => RenameHistory(w, w', a, j, prior, retained);
    case Publish(a, j, prior, retained) => PublishHistory(w, w', a, j, prior, retained);
    case UndoPublish(a, j, prior, retained) => UndoHistory(w, w', a, j, prior, retained);
    case _ =>
  }

}
