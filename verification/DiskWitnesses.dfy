/**
 * Concrete runs that show what the promises of the persistent cache leave out: a hit on a publication
 * whose commit never returned, a failed commit whose ref or object stays because its rollback failed,
 * and limits exceeded after a crash or a failed unlink.
 */
module DiskWitnesses {
  import opened Wrappers
  import opened Sums
  import opened CacheKeys
  import opened CacheControls
  import opened DiskModel
  import opened DiskProtocol
  import opened DiskSections
  import opened DiskStored
  import opened DiskBounds
  import opened DiskPaths

  const SOME_KEY := CacheKey([], [], [], [], [], None, None, 0, None, [], [], None, None, None, None)

  const SOME_CONTROL := CacheControl(None, None, SCOPE_CATALOG, false, None, None, false, None, None, false)

  const ONE := Limits(1, 1)

  // --------------------------------------------------------------------- runs

  lemma ExtendRun(ws: seq<World>, es: seq<Event>, e: Event, w: World) returns (vs: seq<World>, fs: seq<Event>)
    requires Run(ws, es) && Step(ws[|es|], e, w)
    ensures Run(vs, fs) && vs == ws + [w] && fs == es + [e] && vs[|fs|] == w
  {
    vs, fs := ws + [w], es + [e];
    RunExtends(ws, es, e, w);
  }

  lemma ExtendTwice(ws: seq<World>, es: seq<Event>, e: Event, w: World, e': Event, w': World)
    returns (vs: seq<World>, fs: seq<Event>)
    requires Run(ws, es) && Step(ws[|es|], e, w) && Step(w, e', w')
    ensures Run(vs, fs) && vs == ws + [w, w'] && fs == es + [e, e'] && vs[|fs|] == w'
  {
    hide *;
    vs, fs := ExtendRun(ws, es, e, w);
    vs, fs := ExtendRun(vs, fs, e', w');
  }

  /** No crash and no failure, and the one limit for all. */
  predicate Orderly(e: Event) {
    !Fails(e) && !e.Crash? && (e.Admit? ==> e.limits == ONE)
  }

  predicate AllOrderly(es: seq<Event>) {
    forall m | 0 <= m < |es| :: Orderly(es[m])
  }

  // ------------------------------------------------- a commit of one empty batch list

  function Content0(): Content {
    EmptyContent([], 1)
  }

  /** Generation `g` of the one key, one byte long. */
  function Entry(g: nat): Job {
    JobFor(g, SOME_KEY, Content0(), Zstd, [1], 0, 9, SOME_CONTROL)
  }

  lemma EntryOk(g: nat)
    ensures JobOk(Entry(g)) && Entry(g).key == SOME_KEY
    ensures Entry(g).record.storedBytes == 1 && Entry(g).record.generation == g
    ensures ObjectBytes(JobDir(Entry(g))) == 1
  {
    assert SumSeq([1]) == 1;
    JobBytes(Entry(g));
  }

  /** Call 0 of instance 0 at work on a disk, with what was used and published before. */
  function Worker(fs: Fs, temps: map<nat, ObjectDir>, used: set<nat>, pc: Pc, log: seq<Publication>): World {
    World(fs, temps, used, map[], 0, map[0 := Actor(0, pc)], log)
  }

  function Idle(fs: Fs, used: set<nat>, log: seq<Publication>): World {
    World(fs, map[], used, map[], 0, map[], log)
  }

  /** The capture of generation `g`, sealed. */
  function Sealed(g: nat): map<nat, ObjectDir> {
    map[g := JobDir(Entry(g))]
  }

  function Task0(g: nat): Task {
    CommitTask(Entry(g))
  }

  lemma BeginIs(fs: Fs, used: set<nat>, log: seq<Publication>, g: nat)
    requires g !in used
    ensures CallStep(Idle(fs, used, log), Begin(0, 0, g, [], 1, Zstd),
                     Worker(fs, map[g := PartialDir(Content0())], used + {g}, Capturing(g, Content0(), Zstd), log))
  {
  }

  lemma FinishIs(fs: Fs, used: set<nat>, log: seq<Publication>, g: nat)
    ensures CallStep(Worker(fs, map[g := PartialDir(Content0())], used, Capturing(g, Content0(), Zstd), log),
                     Finish(0, SOME_KEY, [1], 0, 9, SOME_CONTROL),
                     Worker(fs, Sealed(g), used, Waiting(Task0(g)), log))
  {
  }

  lemma LocksAre(fs: Fs, used: set<nat>, log: seq<Publication>, g: nat)
    ensures LockStep(Worker(fs, Sealed(g), used, Waiting(Task0(g)), log), TakeMutex(0),
                     Worker(fs, Sealed(g), used, HoldsMutex(Task0(g)), log))
    ensures LockStep(Worker(fs, Sealed(g), used, HoldsMutex(Task0(g)), log), LockExclusive(0),
                     Worker(fs, Sealed(g), used, Exclusive(Task0(g), Sweeping), log))
  {
  }

  /** From an idle disk to the critical section. */
  lemma Enter(ws: seq<World>, es: seq<Event>, fs: Fs, used: set<nat>, log: seq<Publication>, g: nat)
    returns (vs: seq<World>, gs: seq<Event>)
    requires Run(ws, es) && ws[|es|] == Idle(fs, used, log) && g !in used && AllOrderly(es)
    ensures Run(vs, gs) && |gs| == |es| + 4 && AllOrderly(gs)
    ensures vs[|gs|] == Worker(fs, Sealed(g), used + {g}, Exclusive(Task0(g), Sweeping), log)
  {
    hide Run, CallStep, LockStep, LookupStep, RemovalStep, CommitStep;
    BeginIs(fs, used, log, g);
    FinishIs(fs, used + {g}, log, g);
    LocksAre(fs, used + {g}, log, g);
    vs, gs := ExtendTwice(ws, es, Begin(0, 0, g, [], 1, Zstd),
                          Worker(fs, map[g := PartialDir(Content0())], used + {g}, Capturing(g, Content0(), Zstd), log),
                          Finish(0, SOME_KEY, [1], 0, 9, SOME_CONTROL),
                          Worker(fs, Sealed(g), used + {g}, Waiting(Task0(g)), log));
    vs, gs := ExtendTwice(vs, gs, TakeMutex(0), Worker(fs, Sealed(g), used + {g}, HoldsMutex(Task0(g)), log),
                          LockExclusive(0), Worker(fs, Sealed(g), used + {g}, Exclusive(Task0(g), Sweeping), log));
  }

  // The disk after each filesystem step.

  const EMPTY := Fs(map[], map[])

  function Object(g: nat): ObjPath {
    ObjOf(Entry(g).record)
  }

  function Bound(g: nat): map<RefPath, RefFile> {
    map[PathOf(SOME_KEY) := Parsed(Entry(g).record)]
  }

  /** Generation `g` alone, with its ref. */
  function Only(g: nat): Fs {
    Fs(Bound(g), map[Object(g) := JobDir(Entry(g))])
  }

  /** Generations 0 and 1, with the ref of `g`. */
  function Both(g: nat): Fs {
    Fs(Bound(g), map[Object(0) := JobDir(Entry(0)), Object(1) := JobDir(Entry(1))])
  }

  function Published0(g: nat, returned: bool): Publication {
    Publication(SOME_KEY, g, Content0(), returned)
  }

  function Prior(g: nat): Option<Record> {
    Some(Entry(g).record)
  }

  lemma NoBytes(objects: map<ObjPath, ObjectDir>)
    requires objects == map[]
    ensures Fits(objects, {}, 1, ONE)
  {
    assert Weights(objects - {}) == map[];
  }

  lemma AdmitIs(fs: Fs, used: set<nat>, log: seq<Publication>, g: nat, prior: Option<Record>)
    requires RefAt(fs, PathOf(SOME_KEY)) == prior && Fits(fs.objects, Going(prior, false), 1, ONE)
    ensures AdmitStep(Worker(fs, Sealed(g), used, Exclusive(Task0(g), Sweeping), log),
                      Worker(fs, Sealed(g), used, Exclusive(Task0(g), Admitted(prior, false)), log), 0, Entry(g), ONE)
  {
    hide Entry, Fits, JobOk, ObjectBytes;
    EntryOk(g);
    assert LeasedObjects(Worker(fs, Sealed(g), used, Exclusive(Task0(g), Sweeping), log)) == {};
  }

  lemma FirstAdmit()
    ensures AdmitStep(Worker(EMPTY, Sealed(0), {0}, Exclusive(Task0(0), Sweeping), []),
                      Worker(EMPTY, Sealed(0), {0}, Exclusive(Task0(0), Admitted(None, false)), []), 0, Entry(0), ONE)
  {
    NoBytes(EMPTY.objects);
    AdmitIs(EMPTY, {0}, [], 0, None);
  }

  lemma FirstRename()
    ensures RenameStep(Worker(EMPTY, Sealed(0), {0}, Exclusive(Task0(0), Admitted(None, false)), []),
                       Worker(Fs(map[], Only(0).objects), map[], {0}, Exclusive(Task0(0), Renamed(None, false)), []),
                       0, Entry(0), None, false)
  {
    EntryOk(0);
  }

  lemma FirstPublish()
    ensures PublishStep(Worker(Fs(map[], Only(0).objects), map[], {0}, Exclusive(Task0(0), Renamed(None, false)), []),
                        FirstPublished(), 0, Entry(0), None, false)
  {
    EntryOk(0);
  }

  function FirstPublished(): World {
    Worker(Only(0), map[], {0}, Exclusive(Task0(0), Published(None, false)), [Published0(0, false)])
  }

  function FirstAdmitted(): World {
    Worker(EMPTY, Sealed(0), {0}, Exclusive(Task0(0), Admitted(None, false)), [])
  }

  function FirstRenamed(): World {
    Worker(Fs(map[], Only(0).objects), map[], {0}, Exclusive(Task0(0), Renamed(None, false)), [])
  }

  lemma EmptyRun()
    ensures Run([Init()], []) && Init() == Idle(EMPTY, {}, []) && AllOrderly([])
  {
  }

  lemma FirstEntry() returns (ws: seq<World>, es: seq<Event>)
    ensures Run(ws, es) && |es| == 5 && ws[5] == FirstAdmitted() && AllOrderly(es)
    ensures ws[4].fs == EMPTY && es[4] == Admit(0, Entry(0), ONE)
  {
    hide Step, StepAt, AdmitStep, Entry, Sealed;
    EmptyRun();
    ws, es := Enter([Init()], [], EMPTY, {}, [], 0);
    assert {} + {0} == {0};
    FirstAdmit();
    AdmitIsStep(Worker(EMPTY, Sealed(0), {0}, Exclusive(Task0(0), Sweeping), []), FirstAdmitted(), 0, Entry(0), ONE);
    ws, es := ExtendRun(ws, es, Admit(0, Entry(0), ONE), FirstAdmitted());
  }

  lemma FirstSteps()
    ensures Step(FirstAdmitted(), Rename(0, Entry(0), None, false), FirstRenamed())
    ensures Step(FirstRenamed(), Publish(0, Entry(0), None, false), FirstPublished())
  {
    FirstRename();
    RenameIsStep(FirstAdmitted(), FirstRenamed(), 0, Entry(0), None, false);
    FirstPublish();
    PublishIsStep(FirstRenamed(), FirstPublished(), 0, Entry(0), None, false);
  }

  /** The first commit, up to the rename of its ref. */
  lemma FirstCommit() returns (ws: seq<World>, es: seq<Event>)
    ensures Run(ws, es) && |es| == 7 && |ws| == 8 && ws[7] == FirstPublished() && AllOrderly(es)
    ensures ws[4].fs == EMPTY && es[4] == Admit(0, Entry(0), ONE)
    ensures ws[5] == FirstAdmitted() && ws[6] == FirstRenamed()
  {
    hide Step, StepAt, Entry;
    ws, es := FirstEntry();
    FirstSteps();
    ws, es := ExtendTwice(ws, es, Rename(0, Entry(0), None, false), FirstRenamed(),
                          Publish(0, Entry(0), None, false), FirstPublished());
  }

  // ------------------------------------- a crash before the return, and then a lookup

  function Crashed(): World {
    Idle(Only(0), {0}, [Published0(0, false)])
  }

  function Looker(pc: Pc): World {
    Crashed().(actors := map[1 := Actor(1, pc)])
  }

  function LeaseTaken(): Lease {
    Lease(1, SOME_KEY, Entry(0).record, Published0(0, false))
  }

  function Leaser(pc: Pc): World {
    Looker(pc).(leases := map[0 := LeaseTaken()], nextLease := 1)
  }

  function HitWorld(): World {
    Crashed().(leases := map[0 := LeaseTaken()], nextLease := 1)
  }

  lemma CrashIs()
    ensures LockStep(FirstPublished(), Crash(0), Crashed())
  {
  }

  lemma StartsAre()
    ensures CallStep(Crashed(), Start(1, 1, LookTask(SOME_KEY)), Looker(Waiting(LookTask(SOME_KEY))))
    ensures LockStep(Looker(Waiting(LookTask(SOME_KEY))), TakeMutex(1), Looker(HoldsMutex(LookTask(SOME_KEY))))
  {
  }

  lemma ObserveIs()
    ensures LockStep(Looker(HoldsMutex(LookTask(SOME_KEY))), LockShared(1), Looker(Looking(SOME_KEY)))
    ensures LookupStep(Looker(Looking(SOME_KEY)), Observe(1), Looker(Observed(SOME_KEY, Entry(0).record)))
  {
  }

  lemma AcquireIs()
    ensures AcquireStep(Looker(Observed(SOME_KEY, Entry(0).record)), Leaser(Leasing(SOME_KEY, Entry(0).record, 0)), 1)
  {
    assert LastFor(Crashed().log, PathOf(SOME_KEY)) == Some(LeaseTaken().of);
  }

  lemma AcceptIs()
    ensures UnlockStep(Leaser(Leasing(SOME_KEY, Entry(0).record, 0)), Leaser(Validating(SOME_KEY, Entry(0).record, 0)),
                       1)
    ensures AcceptStep(Leaser(Validating(SOME_KEY, Entry(0).record, 0)), HitWorld(), 1, None)
  {
    var j := Entry(0);
    SealedPasses(j.key, j.content, j.codec, j.lens, j.record, None);
    assert HitWorld() == Gone(Leaser(Validating(SOME_KEY, j.record, 0)), 1);
  }

  lemma LookingRun() returns (ws: seq<World>, es: seq<Event>)
    ensures Run(ws, es) && |es| == 12 && ws[12] == Looker(Observed(SOME_KEY, Entry(0).record))
    ensures ws[7] == FirstPublished() && es[7] == Crash(0)
  {
    hide Run, CallStep, LockStep, LookupStep, RemovalStep, CommitStep;
    ws, es := FirstCommit();
    CrashIs();
    ws, es := ExtendRun(ws, es, Crash(0), Crashed());
    StartsAre();
    ws, es := ExtendTwice(ws, es, Start(1, 1, LookTask(SOME_KEY)), Looker(Waiting(LookTask(SOME_KEY))),
                          TakeMutex(1), Looker(HoldsMutex(LookTask(SOME_KEY))));
    ObserveIs();
    ws, es := ExtendTwice(ws, es, LockShared(1), Looker(Looking(SOME_KEY)),
                          Observe(1), Looker(Observed(SOME_KEY, Entry(0).record)));
  }

  lemma CrashCuts()
    ensures Cut(FirstPublished(), Crash(0), 0)
  {
    assert 0 in FirstPublished().actors && Finishing(PcOf(FirstPublished(), 0))
           && CutsCall(FirstPublished(), Crash(0), 0);
  }

  lemma HitSteps()
    ensures Step(Looker(Observed(SOME_KEY, Entry(0).record)), Acquire(1), Leaser(Leasing(SOME_KEY, Entry(0).record, 0)))
    ensures Step(Leaser(Leasing(SOME_KEY, Entry(0).record, 0)), Unlock(1),
                 Leaser(Validating(SOME_KEY, Entry(0).record, 0)))
    ensures Step(Leaser(Validating(SOME_KEY, Entry(0).record, 0)), Accept(1, None), HitWorld())
  {
    AcquireIs();
    AcquireIsStep(Looker(Observed(SOME_KEY, Entry(0).record)), Leaser(Leasing(SOME_KEY, Entry(0).record, 0)), 1);
    AcceptIs();
    UnlockIsStep(Leaser(Leasing(SOME_KEY, Entry(0).record, 0)), Leaser(Validating(SOME_KEY, Entry(0).record, 0)), 1);
    AcceptIsStep(Leaser(Validating(SOME_KEY, Entry(0).record, 0)), HitWorld(), 1, None);
  }

  lemma HitRun() returns (ws: seq<World>, es: seq<Event>)
    ensures Run(ws, es) && |es| == 15 && ws[15] == HitWorld()
    ensures ws[7] == FirstPublished() && es[7] == Crash(0) && es[12].Acquire? && es[14].Accept?
  {
    hide Step, Run;
    ws, es := LookingRun();
    HitSteps();
    ws, es := ExtendTwice(ws, es, Acquire(1), Leaser(Leasing(SOME_KEY, Entry(0).record, 0)),
                          Unlock(1), Leaser(Validating(SOME_KEY, Entry(0).record, 0)));
    ws, es := ExtendRun(ws, es, Accept(1, None), HitWorld());
  }

  /**
   * A crash right after the ref is renamed cuts its commit off, and a lookup of another process then
   * hits a publication whose commit never returned.
   */
  lemma HitOnUnreturned() returns (ws: seq<World>, es: seq<Event>)
    ensures Run(ws, es) && |es| == 15 && CutAt(ws, es, 7, 0)
    ensures es[12].Acquire? && es[14].Accept? && ws[15].actors == map[]
    ensures 0 in ws[15].leases && ws[15].leases[0].key == SOME_KEY && !ws[15].leases[0].of.returned
  {
    ws, es := HitRun();
    CrashCuts();
  }

  // ------------------------------------------------------- a rollback that fails

  /** The first commit, with its object on disk and no ref. */
  function FirstUndone(ph: Phase): World {
    Worker(Fs(map[], Only(0).objects), map[], {0}, Exclusive(Task0(0), ph), [])
  }

  function FirstStuck(): World {
    Worker(Only(0), map[], {0}, Exclusive(Task0(0), Done(false)), [Published0(0, false)])
  }

  lemma FailUndoIs()
    ensures Step(FirstPublished(), FailUndo(0, Entry(0), None, false), FirstStuck())
  {
  }

  lemma UndoIs()
    ensures UndoPublishStep(FirstPublished(), FirstUndone(Removing(Object(0), Done(false))), 0, Entry(0), None, false)
    ensures FailRemovalStep(FirstUndone(Removing(Object(0), Done(false))), FirstUndone(Done(false)), 0, Task0(0),
                            Object(0), Done(false))
  {
    var p := PathOf(SOME_KEY);
    assert Bound(0) - {p} == map[];
  }

  lemma UndoSteps()
    ensures Step(FirstPublished(), UndoPublish(0, Entry(0), None, false), FirstUndone(Removing(Object(0), Done(false))))
    ensures Step(FirstUndone(Removing(Object(0), Done(false))), FailRemoval(0, Task0(0), Object(0), Done(false)),
                 FirstUndone(Done(false)))
  {
    UndoIs();
    UndoPublishIsStep(FirstPublished(), FirstUndone(Removing(Object(0), Done(false))), 0, Entry(0), None, false);
    FailRemovalIsStep(FirstUndone(Removing(Object(0), Done(false))), FirstUndone(Done(false)), 0, Task0(0),
                      Object(0), Done(false));
  }

  lemma AllCommitting()
    ensures Committing(FirstAdmitted(), 0, Entry(0)) && Committing(FirstRenamed(), 0, Entry(0))
    ensures Committing(FirstPublished(), 0, Entry(0)) && Committing(FirstStuck(), 0, Entry(0))
    ensures forall ph :: Committing(FirstUndone(ph), 0, Entry(0))
  {
  }

  lemma FailUndoRun() returns (ws: seq<World>, es: seq<Event>)
    ensures Run(ws, es) && |es| == 8 && es[7].FailUndo? && AllOrderly(es[..7])
    ensures CommitSpan(ws, es, 4, 8, 0, Entry(0)) && ws[4].fs == EMPTY && ws[8] == FirstStuck()
  {
    hide Step, Run, Committing;
    ws, es := FirstCommit();
    FailUndoIs();
    ws, es := ExtendRun(ws, es, FailUndo(0, Entry(0), None, false), FirstStuck());
    AllCommitting();
  }

  /** A rollback that cannot restore the ref: the commit fails, and yet its ref stands on a disk that was empty. */
  lemma FailedRollbackLeavesRef() returns (ws: seq<World>, es: seq<Event>)
    ensures Run(ws, es) && |es| == 8 && es[7].FailUndo? && AllOrderly(es[..7])
    ensures CommitSpan(ws, es, 4, 8, 0, Entry(0)) && InPhase(ws[8], 0, Task0(0), Done(false))
    ensures ws[4].fs == EMPTY && RefAt(ws[8].fs, PathOf(SOME_KEY)) == Some(Entry(0).record)
  {
    ws, es := FailUndoRun();
  }

  lemma FailRemovalRun() returns (ws: seq<World>, es: seq<Event>)
    ensures Run(ws, es) && |es| == 9 && es[8].FailRemoval? && AllOrderly(es[..8])
    ensures CommitSpan(ws, es, 4, 9, 0, Entry(0)) && ws[4].fs == EMPTY && ws[9] == FirstUndone(Done(false))
  {
    hide Step, Run, Committing, Entry;
    ws, es := FirstCommit();
    UndoSteps();
    ws, es := ExtendTwice(ws, es, UndoPublish(0, Entry(0), None, false),
                          FirstUndone(Removing(Object(0), Done(false))),
                          FailRemoval(0, Task0(0), Object(0), Done(false)), FirstUndone(Done(false)));
    AllCommitting();
    assert ws[7] == FirstPublished() && ws[8] == FirstUndone(Removing(Object(0), Done(false)));
  }

  /** A rollback that restores the ref and cannot unlink the object: it stays, on a disk that was empty. */
  lemma FailedRollbackLeavesObject() returns (ws: seq<World>, es: seq<Event>)
    ensures Run(ws, es) && |es| == 9 && es[8].FailRemoval? && AllOrderly(es[..8])
    ensures CommitSpan(ws, es, 4, 9, 0, Entry(0)) && InPhase(ws[9], 0, Task0(0), Done(false))
    ensures ws[4].fs == EMPTY && ws[9].fs.refs == map[] && ObjOf(Entry(0).record) in ws[9].fs.objects
  {
    ws, es := FailRemovalRun();
  }

  // --------------------------------------------- a second commit under the same key

  lemma ReturnIs()
    ensures KeepStep(FirstPublished(), FirstDone(), 0, Entry(0), None, false)
    ensures ReturnStep(FirstDone(), FirstReturned(), 0, Entry(0))
  {
  }

  lemma SecondFits()
    ensures Fits(Only(0).objects, {Object(0)}, 1, ONE)
  {
    assert Only(0).objects - {Object(0)} == map[];
    assert Weights(Only(0).objects - {Object(0)}) == map[];
  }

  function SecondSweeping(): World {
    Worker(Only(0), Sealed(1), {0, 1}, Exclusive(Task0(1), Sweeping), [Published0(0, true)])
  }

  function SecondAdmitted(): World {
    Worker(Only(0), Sealed(1), {0, 1}, Exclusive(Task0(1), Admitted(Prior(0), false)), [Published0(0, true)])
  }

  lemma SecondAdmit()
    ensures AdmitStep(SecondSweeping(), SecondAdmitted(), 0, Entry(1), ONE)
  {
    SecondFits();
    AdmitIs(Only(0), {0, 1}, [Published0(0, true)], 1, Prior(0));
  }

  function SecondRenamed(): World {
    Worker(Both(0), map[], {0, 1}, Exclusive(Task0(1), Renamed(Prior(0), false)), [Published0(0, true)])
  }

  lemma SecondRename()
    ensures RenameStep(SecondAdmitted(), SecondRenamed(), 0, Entry(1), Prior(0), false)
  {
    EntryOk(1);
  }

  function FirstDone(): World {
    Worker(Only(0), map[], {0}, Exclusive(Task0(0), Done(true)), [Published0(0, false)])
  }

  function FirstReturned(): World {
    Idle(Only(0), {0}, [Published0(0, true)])
  }

  lemma ReturnSteps()
    ensures Step(FirstPublished(), Keep(0, Entry(0), None, false), FirstDone())
    ensures Step(FirstDone(), Return(0, Entry(0)), FirstReturned())
  {
    ReturnIs();
    KeepIsStep(FirstPublished(), FirstDone(), 0, Entry(0), None, false);
    ReturnIsStep(FirstDone(), FirstReturned(), 0, Entry(0));
  }

  lemma FirstReturn() returns (ws: seq<World>, es: seq<Event>)
    ensures Run(ws, es) && |es| == 9 && ws[9] == FirstReturned() && AllOrderly(es)
  {
    ws, es := FirstCommit();
    ReturnSteps();
    ws, es := ExtendTwice(ws, es, Keep(0, Entry(0), None, false), FirstDone(), Return(0, Entry(0)), FirstReturned());
  }

  lemma SecondEntry() returns (ws: seq<World>, es: seq<Event>)
    ensures Run(ws, es) && |es| == 13 && ws[13] == SecondSweeping() && AllOrderly(es)
  {
    ws, es := FirstReturn();
    ws, es := Enter(ws, es, Only(0), {0}, [Published0(0, true)], 1);
    assert {0} + {1} == {0, 1};
  }

  lemma SecondSteps()
    ensures Step(SecondSweeping(), Admit(0, Entry(1), ONE), SecondAdmitted())
    ensures Step(SecondAdmitted(), Rename(0, Entry(1), Prior(0), false), SecondRenamed())
  {
    SecondAdmit();
    AdmitIsStep(SecondSweeping(), SecondAdmitted(), 0, Entry(1), ONE);
    SecondRename();
    RenameIsStep(SecondAdmitted(), SecondRenamed(), 0, Entry(1), Prior(0), false);
  }

  lemma SecondCommit() returns (ws: seq<World>, es: seq<Event>)
    ensures Run(ws, es) && |es| == 15 && ws[15] == SecondRenamed() && AllOrderly(es)
    ensures es[13] == Admit(0, Entry(1), ONE)
  {
    ws, es := SecondEntry();
    SecondSteps();
    ws, es := ExtendTwice(ws, es, Admit(0, Entry(1), ONE), SecondAdmitted(),
                          Rename(0, Entry(1), Prior(0), false), SecondRenamed());
  }

  lemma TwoObjects()
    ensures |Both(0).objects| == 2 && |Both(1).objects| == 2
  {
    assert Object(0) != Object(1);
    assert Both(0).objects.Keys == {Object(0), Object(1)} == Both(1).objects.Keys;
  }

  lemma SecondCrash()
    ensures LockStep(SecondRenamed(), Crash(0), Idle(Both(0), {0, 1}, [Published0(0, true)]))
  {
  }

  /** One crash, and nothing else out of order: with nobody at work, two entries stand under a limit of one. */
  lemma CrashExceedsLimits() returns (ws: seq<World>, es: seq<Event>)
    ensures Run(ws, es) && |es| == 16 && es[15].Crash? && AllOrderly(es[..15])
    ensures ws[16].actors == map[] && |ws[16].fs.objects| == 2
  {
    ws, es := SecondCommit();
    SecondCrash();
    ws, es := ExtendRun(ws, es, Crash(0), Idle(Both(0), {0, 1}, [Published0(0, true)]));
    TwoObjects();
  }

  function SecondPublished(ph: Phase): World {
    Worker(Both(1), map[], {0, 1}, Exclusive(Task0(1), ph), [Published0(0, true), Published0(1, false)])
  }

  lemma SecondPublishSteps()
    ensures Step(SecondRenamed(), Publish(0, Entry(1), Prior(0), false), SecondPublished(Published(Prior(0), false)))
    ensures Step(SecondPublished(Published(Prior(0), false)), Keep(0, Entry(1), Prior(0), false),
                 SecondPublished(Removing(Object(0), Done(true))))
    ensures Step(SecondPublished(Removing(Object(0), Done(true))), FailRemoval(0, Task0(1), Object(0), Done(true)),
                 SecondPublished(Done(true)))
  {
    SecondPublish();
    PublishIsStep(SecondRenamed(), SecondPublished(Published(Prior(0), false)), 0, Entry(1), Prior(0), false);
    KeepIsStep(SecondPublished(Published(Prior(0), false)), SecondPublished(Removing(Object(0), Done(true))),
               0, Entry(1), Prior(0), false);
    FailRemovalIsStep(SecondPublished(Removing(Object(0), Done(true))), SecondPublished(Done(true)),
                      0, Task0(1), Object(0), Done(true));
  }

  lemma SecondPublish()
    ensures PublishStep(SecondRenamed(), SecondPublished(Published(Prior(0), false)), 0, Entry(1), Prior(0), false)
    ensures KeepStep(SecondPublished(Published(Prior(0), false)), SecondPublished(Removing(Object(0), Done(true))),
                     0, Entry(1), Prior(0), false)
    ensures FailRemovalStep(SecondPublished(Removing(Object(0), Done(true))), SecondPublished(Done(true)),
                            0, Task0(1), Object(0), Done(true))
  {
    assert [Published0(0, true)] + [Published0(1, false)] == [Published0(0, true), Published0(1, false)];
  }

  lemma FailedUnlinkRun() returns (ws: seq<World>, es: seq<Event>)
    ensures Run(ws, es) && |es| == 18 && ws[18] == SecondPublished(Done(true)) && AllOrderly(es[..17])
    ensures es[13] == Admit(0, Entry(1), ONE) && es[17].FailRemoval?
  {
    hide Step, Run;
    ws, es := SecondCommit();
    SecondPublishSteps();
    ws, es := ExtendTwice(ws, es, Publish(0, Entry(1), Prior(0), false), SecondPublished(Published(Prior(0), false)),
                          Keep(0, Entry(1), Prior(0), false), SecondPublished(Removing(Object(0), Done(true))));
    ws, es := ExtendRun(ws, es, FailRemoval(0, Task0(1), Object(0), Done(true)), SecondPublished(Done(true)));
  }

  /**
   * One failed unlink, of the generation just replaced: `Stored` is about to be returned with two
   * entries under a limit of one.
   */
  lemma FailedUnlinkExceedsLimits() returns (ws: seq<World>, es: seq<Event>)
    ensures Run(ws, es) && |es| == 18 && es[17].FailRemoval? && AllOrderly(es[..17])
    ensures es[13] == Admit(0, Entry(1), ONE) && InPhase(ws[18], 0, Task0(1), Done(true)) && |ws[18].fs.objects| == 2
  {
    ws, es := FailedUnlinkRun();
    TwoObjects();
  }

}
