/**
 * Any number of cache instances, in any number of processes, working on one root.
 *
 * An actor is one call in progress.  Its instance has one mutex and one handle on the
 * root lock file; the lock file excludes other handles only, so exclusion between two
 * actors of one instance is the mutex's business.  Every event is one filesystem step,
 * one lock operation or one crash, and events of all actors interleave freely.
 */
module DiskProtocol {
  import opened Wrappers
  import opened Schemas
  import opened Sums
  import opened CacheKeys
  import opened CacheControls
  import opened DiskModel

  // ------------------------------------------------------------------- state

  /** A finished capture with the ref it is to be published under. */
  datatype Job = Job(key: CacheKey, content: Content, codec: Codec, lens: seq<nat>, record: Record)

  datatype Task =
    | CommitTask(job: Job)
    | DiscardTask(generation: nat)                             // drop of an unpublished capture
    | SweepTask                                                // remove, flush, reap, reconcile
    | IfCurrentTask(path: RefPath, seen: Record)               // removal of one observed record
    | RefreshTask(path: RefPath, seen: Record, renewed: Record)  // revalidation of one observed record
    | LookTask(key: CacheKey)

  datatype Phase =
    | Sweeping
    | Removing(target: ObjPath, after: Phase)
    | Admitted(prior: Option<Record>, retained: bool)
    | Renamed(prior: Option<Record>, retained: bool)
    | Published(prior: Option<Record>, retained: bool)
    | Refreshed
    | Done(stored: bool)

  datatype Pc =
    | Capturing(generation: nat, content: Content, codec: Codec)
    | Waiting(task: Task)
    | HoldsMutex(task: Task)
    | Looking(key: CacheKey)                                // shared root lock from here ...
    | Observed(key: CacheKey, record: Record)
    | Leasing(key: CacheKey, record: Record, lease: nat)    // ... to here
    | Validating(key: CacheKey, record: Record, lease: nat)
    | Exclusive(task: Task, phase: Phase)

  datatype Actor = Actor(instance: nat, pc: Pc)

  /** A publication that stood: its ref was renamed into place and not rolled back. */
  datatype Publication = Publication(key: CacheKey, generation: nat, content: Content, returned: bool)

  datatype Lease = Lease(instance: nat, key: CacheKey, record: Record, of: Publication)

  datatype World = World(
    fs: Fs,
    temps: map<nat, ObjectDir>,
    used: set<nat>,
    leases: map<nat, Lease>,
    nextLease: nat,
    actors: map<nat, Actor>,
    log: seq<Publication>)

  function Init(): World {
    World(Fs(map[], map[]), map[], {}, map[], 0, map[], [])
  }

  function ObjectsOf(leases: map<nat, Lease>): set<ObjPath> {
    set l | l in leases :: ObjOf(leases[l].record)
  }

  function LeasedObjects(w: World): set<ObjPath> {
    ObjectsOf(w.leases)
  }

  predicate HasMutex(pc: Pc) {
    pc.HoldsMutex? || pc.Looking? || pc.Observed? || pc.Leasing? || pc.Exclusive?
  }

  predicate HasRoot(pc: Pc) {
    pc.Looking? || pc.Observed? || pc.Leasing? || pc.Exclusive?
  }

  /** The capture whose temporary directory, and lease on it, the actor holds. */
  function OwnedByTask(t: Task): Option<nat> {
    match t
    case CommitTask(j) => Some(j.record.generation)
    case DiscardTask(g) => Some(g)
    case _ => None
  }

  function Owned(pc: Pc): Option<nat> {
    match pc
    case Capturing(g, _, _) => Some(g)
    case Waiting(t) => OwnedByTask(t)
    case HoldsMutex(t) => OwnedByTask(t)
    case Exclusive(t, _) => OwnedByTask(t)
    case _ => None
  }

  /** The lease a lookup in progress is about to hand out. */
  function Held(pc: Pc): Option<nat> {
    match pc
    case Leasing(_, _, l) => Some(l)
    case Validating(_, _, l) => Some(l)
    case _ => None
  }

  function RefAt(fs: Fs, p: RefPath): Option<Record> {
    if p in fs.refs && fs.refs[p].Parsed? then Some(fs.refs[p].record) else None
  }

  /** The latest publication under a ref path. */
  function LastFor(log: seq<Publication>, p: RefPath): Option<Publication> {
    if log == [] then None
    else if PathOf(log[|log| - 1].key) == p then Some(log[|log| - 1])
    else LastFor(log[..|log| - 1], p)
  }

  // -------------------------------------------------------- captures and jobs

  function EmptyContent(schema: Schema, partitions: nat): Content {
    Content(schema, seq(partitions, i => []))
  }

  /** A capture directory while batches are still being written: no manifest yet. */
  function PartialDir(content: Content): ObjectDir {
    ObjectDir(true, NoManifest,
              seq(|content.parts|, i requires 0 <= i < |content.parts| => Arrow(content.schema, content.parts[i], 0)))
  }

  function Pushed(content: Content, partition: nat, batch: Batch): Content
    requires partition < |content.parts|
  {
    content.(parts := content.parts[partition := content.parts[partition] + [batch]])
  }

  function JobManifest(j: Job): Manifest
    requires |j.lens| == |j.content.parts|
  {
    ManifestOf(j.key, j.content, j.codec, j.lens)
  }

  function JobDir(j: Job): ObjectDir
    requires |j.lens| == |j.content.parts|
  {
    SealedDir(j.key, j.content, j.codec, j.lens)
  }

  predicate JobOk(j: Job) {
    && |j.lens| == |j.content.parts| > 0
    && (forall i | 0 <= i < |j.lens| :: j.lens[i] > 0)
    && Describes(j.record, JobManifest(j))
    && j.record.version == FORMAT_VERSION
    && j.record.identityDigest == OfScope(j.key.identityScope)
  }

  function JobFor(generation: nat, key: CacheKey, content: Content, codec: Codec, lens: seq<nat>,
                  createdMs: nat, expiresMs: nat, control: CacheControl): Job
    requires |lens| == |content.parts|
  {
    var m := ManifestOf(key, content, codec, lens);
    Job(key, content, codec, lens,
        RecordOf(key, generation, m, SumSeq(BatchCounts(content.parts)), createdMs, expiresMs, control))
  }

  /** A revalidated record: only freshness and validators may differ. */
  predicate SameSeal(r: Record, renewed: Record) {
    renewed == r.(createdMs := renewed.createdMs, expiresMs := renewed.expiresMs, etag := renewed.etag,
                lastModified := renewed.lastModified, revalidatable := renewed.revalidatable,
                staleIfError := renewed.staleIfError)
  }

  // ------------------------------------------------------------------- steps

  datatype Limits = Limits(maxBytes: nat, maxEntries: nat)

  predicate At(w: World, a: nat) {
    a in w.actors
  }

  function PcOf(w: World, a: nat): Pc
    requires At(w, a)
  {
    w.actors[a].pc
  }

  function Goto(w: World, a: nat, pc: Pc): World
    requires At(w, a)
  {
    w.(actors := w.actors[a := w.actors[a].(pc := pc)])
  }

  function Spawn(w: World, a: nat, instance: nat, pc: Pc): World {
    w.(actors := w.actors[a := Actor(instance, pc)])
  }

  function Gone(w: World, a: nat): World {
    w.(actors := w.actors - {a})
  }

  predicate InSection(w: World, a: nat) {
    At(w, a) && PcOf(w, a).Exclusive?
  }

  predicate InPhase(w: World, a: nat, t: Task, ph: Phase) {
    At(w, a) && PcOf(w, a) == Exclusive(t, ph)
  }

  predicate Leased(w: World, o: ObjPath) {
    o in LeasedObjects(w)
  }

  // A capture: begin_capture, push_batch, and the sealing that precedes publication.

  ghost predicate BeginStep(w: World, w': World, a: nat, instance: nat, g: nat, schema: Schema, n: nat, codec: Codec) {
    && !At(w, a) && g !in w.used && n > 0
    && var content := EmptyContent(schema, n);
    && w' == Spawn(w, a, instance, Capturing(g, content, codec)).(
               temps := w.temps[g := PartialDir(content)], used := w.used + {g})
  }

  ghost predicate PushStep(w: World, w': World, a: nat, i: nat, batch: Batch) {
    && At(w, a) && PcOf(w, a).Capturing?
    && var pc := PcOf(w, a);
    && i < |pc.content.parts| && batch.schema == pc.content.schema
    && var content := Pushed(pc.content, i, batch);
    && w' == Goto(w, a, pc.(content := content)).(temps := w.temps[pc.generation := PartialDir(content)])
  }

  ghost predicate FinishStep(w: World, w': World, a: nat, key: CacheKey, lens: seq<nat>,
                             createdMs: nat, expiresMs: nat, control: CacheControl) {
    && At(w, a) && PcOf(w, a).Capturing?
    && var pc := PcOf(w, a);
    && |lens| == |pc.content.parts| > 0 && (forall i | 0 <= i < |lens| :: lens[i] > 0)
    && var job := JobFor(pc.generation, key, pc.content, pc.codec, lens, createdMs, expiresMs, control);
    && w' == Goto(w, a, Waiting(CommitTask(job))).(temps := w.temps[pc.generation := JobDir(job)])
  }

  /** An aborted, dropped or refused capture still has its directory to remove. */
  ghost predicate AbandonStep(w: World, w': World, a: nat) {
    && At(w, a)
    && (PcOf(w, a).Capturing? || (PcOf(w, a).Waiting? && PcOf(w, a).task.CommitTask?))
    && w' == Goto(w, a, Waiting(DiscardTask(Owned(PcOf(w, a)).value)))
  }

  // Calls that begin without a capture.

  ghost predicate StartStep(w: World, w': World, a: nat, instance: nat, t: Task) {
    && !At(w, a) && (t.SweepTask? || t.LookTask?)
    && w' == Spawn(w, a, instance, Waiting(t))
  }

  /** remove_hit and revalidate_freshness act on the record of a hit they are given, through any handle on the root. */
  ghost predicate StartOnHitStep(w: World, w': World, a: nat, instance: nat, l: nat, t: Task) {
    && !At(w, a) && l in w.leases
    && var x := w.leases[l];
    && (t == IfCurrentTask(PathOf(x.key), x.record)
        || (t.RefreshTask? && t.path == PathOf(x.key) && t.seen == x.record && SameSeal(x.record, t.renewed)))
    && w' == Spawn(w, a, instance, Waiting(t))
  }

  // Locks.

  ghost predicate TakeMutexStep(w: World, w': World, a: nat) {
    && At(w, a) && PcOf(w, a).Waiting?
    && (forall b | b in w.actors && b != a && w.actors[b].instance == w.actors[a].instance :: !HasMutex(PcOf(w, b)))
    && w' == Goto(w, a, HoldsMutex(PcOf(w, a).task))
  }

  ghost predicate LockSharedStep(w: World, w': World, a: nat) {
    && At(w, a) && PcOf(w, a).HoldsMutex? && PcOf(w, a).task.LookTask?
    && (forall b | b in w.actors && w.actors[b].instance != w.actors[a].instance :: !PcOf(w, b).Exclusive?)
    && w' == Goto(w, a, Looking(PcOf(w, a).task.key))
  }

  ghost predicate LockExclusiveStep(w: World, w': World, a: nat) {
    && At(w, a) && PcOf(w, a).HoldsMutex? && !PcOf(w, a).task.LookTask?
    && (forall b | b in w.actors && w.actors[b].instance != w.actors[a].instance :: !HasRoot(PcOf(w, b)))
    && w' == Goto(w, a, Exclusive(PcOf(w, a).task, Sweeping))
  }

  // A lookup, up to the point where it holds a lease.

  ghost predicate ObserveStep(w: World, w': World, a: nat) {
    && At(w, a) && PcOf(w, a).Looking?
    && RefAt(w.fs, PathOf(PcOf(w, a).key)).Some?
    && w' == Goto(w, a, Observed(PcOf(w, a).key, RefAt(w.fs, PathOf(PcOf(w, a).key)).value))
  }

  /** No ref, or a stale one kept for revalidation. */
  ghost predicate MissStep(w: World, w': World, a: nat) {
    && At(w, a)
    && (PcOf(w, a).Observed? || (PcOf(w, a).Looking? && RefAt(w.fs, PathOf(PcOf(w, a).key)).None?))
    && w' == Gone(w, a)
  }

  /** An expired or inconsistent ref: the shared lock is dropped and the exclusive one sought. */
  ghost predicate CondemnStep(w: World, w': World, a: nat) {
    && At(w, a) && PcOf(w, a).Observed?
    && w' == Goto(w, a, HoldsMutex(IfCurrentTask(PathOf(PcOf(w, a).key), PcOf(w, a).record)))
  }

  ghost predicate AcquireStep(w: World, w': World, a: nat) {
    && At(w, a) && PcOf(w, a).Observed?
    && var pc := PcOf(w, a);
    && ObjOf(pc.record) in w.fs.objects && w.fs.objects[ObjOf(pc.record)].lease
    && LastFor(w.log, PathOf(pc.key)).Some?
    && var lease := Lease(w.actors[a].instance, pc.key, pc.record, LastFor(w.log, PathOf(pc.key)).value);
    && w' == Goto(w, a, Leasing(pc.key, pc.record, w.nextLease)).(
               leases := w.leases[w.nextLease := lease], nextLease := w.nextLease + 1)
  }

  ghost predicate UnlockStep(w: World, w': World, a: nat) {
    && At(w, a) && PcOf(w, a).Leasing?
    && w' == Goto(w, a, Validating(PcOf(w, a).key, PcOf(w, a).record, PcOf(w, a).lease))
  }

  /** Validation passed: the hit lives on as its lease. */
  ghost predicate AcceptStep(w: World, w': World, a: nat, expected: Option<Schema>) {
    && At(w, a) && PcOf(w, a).Validating?
    && var r := PcOf(w, a).record;
    && ObjOf(r) in w.fs.objects && ValidHit(r, w.fs.objects[ObjOf(r)], expected)
    && w' == Gone(w, a)
  }

  ghost predicate RejectStep(w: World, w': World, a: nat, expected: Option<Schema>) {
    && At(w, a) && PcOf(w, a).Validating?
    && var pc := PcOf(w, a);
    && ObjOf(pc.record) in w.fs.objects && !ValidHit(pc.record, w.fs.objects[ObjOf(pc.record)], expected)
    && w' == Goto(w, a, Waiting(IfCurrentTask(PathOf(pc.key), pc.record))).(leases := w.leases - {pc.lease})
  }

  /** The last holder of a hit or of one of its readers lets go. */
  ghost predicate ReleaseStep(w: World, w': World, l: nat) {
    && l in w.leases
    && (forall b | b in w.actors :: Held(PcOf(w, b)) != Some(l))
    && w' == w.(leases := w.leases - {l})
  }

  // Removals inside a critical section.

  ghost predicate DropRefStep(w: World, w': World, a: nat, t: Task, p: RefPath) {
    && InPhase(w, a, t, Sweeping) && RefAt(w.fs, p).Some?
    && (t.CommitTask? || t.SweepTask? || (t.IfCurrentTask? && p == t.path && RefAt(w.fs, p) == Some(t.seen)))
    && var after := if t.IfCurrentTask? then Done(false) else Sweeping;
    && w' == Goto(w, a, Exclusive(t, Removing(ObjOf(RefAt(w.fs, p).value), after))).(fs := Apply(Unbind(p), w.fs))
  }

  ghost predicate DropOrphanStep(w: World, w': World, a: nat, t: Task, o: ObjPath) {
    && InPhase(w, a, t, Sweeping) && (t.CommitTask? || t.SweepTask?)
    && o in w.fs.objects && !Referenced(w.fs, o)
    && w' == Goto(w, a, Exclusive(t, Removing(o, Sweeping)))
  }

  /** A directory removal that has unlinked some entries and may yet be cut short. */
  ghost predicate ErodeStep(w: World, w': World, a: nat, t: Task, o: ObjPath, after: Phase, dir: ObjectDir) {
    && InPhase(w, a, t, Removing(o, after)) && o in w.fs.objects && !Leased(w, o) && Worn(w.fs.objects[o], dir)
    && w' == w.(fs := Apply(Erode(o, dir), w.fs))
  }

  ghost predicate RemoveObjectStep(w: World, w': World, a: nat, t: Task, o: ObjPath, after: Phase) {
    && InPhase(w, a, t, Removing(o, after)) && !Leased(w, o)
    && w' == Goto(w, a, Exclusive(t, after)).(fs := Apply(Delete(o), w.fs))
  }

  ghost predicate SpareObjectStep(w: World, w': World, a: nat, t: Task, o: ObjPath, after: Phase) {
    && InPhase(w, a, t, Removing(o, after)) && Leased(w, o)
    && w' == Goto(w, a, Exclusive(t, after))
  }

  /** The removal failed; the directory stays behind as an orphan. */
  ghost predicate FailRemovalStep(w: World, w': World, a: nat, t: Task, o: ObjPath, after: Phase) {
    && InPhase(w, a, t, Removing(o, after))
    && w' == Goto(w, a, Exclusive(t, after))
  }

  ghost predicate ReapTempStep(w: World, w': World, a: nat, g: nat) {
    && InPhase(w, a, SweepTask, Sweeping) && g in w.temps
    && (forall b | b in w.actors :: Owned(PcOf(w, b)) != Some(g))
    && w' == w.(temps := w.temps - {g})
  }

  ghost predicate RemoveTempStep(w: World, w': World, a: nat, g: nat) {
    && InPhase(w, a, DiscardTask(g), Sweeping)
    && w' == Goto(w, a, Exclusive(DiscardTask(g), Done(false))).(temps := w.temps - {g})
  }

  /** The ref is no longer the record that was observed. */
  ghost predicate MismatchStep(w: World, w': World, a: nat, t: Task) {
    && InPhase(w, a, t, Sweeping) && (t.IfCurrentTask? || t.RefreshTask?)
    && RefAt(w.fs, t.path) != Some(t.seen)
    && w' == Goto(w, a, Exclusive(t, Done(false)))
  }

  ghost predicate RefreshStep(w: World, w': World, a: nat, t: Task) {
    && InPhase(w, a, t, Sweeping) && t.RefreshTask? && RefAt(w.fs, t.path) == Some(t.seen)
    && w' == Goto(w, a, Exclusive(t, Refreshed)).(fs := Apply(Bind(t.path, Parsed(t.renewed)), w.fs))
  }

  /** The renewed lifetime elapsed while the ref was being written. */
  ghost predicate WithdrawStep(w: World, w': World, a: nat, t: Task) {
    && InPhase(w, a, t, Refreshed) && t.RefreshTask?
    && w' == Goto(w, a, Exclusive(IfCurrentTask(t.path, t.renewed), Sweeping))
  }

  // Publication and rollback.

  /** Byte weights of all objects on disk, referenced or orphaned. */
  function Weights(objects: map<ObjPath, ObjectDir>): map<ObjPath, nat> {
    map o | o in objects :: ObjectBytes(objects[o])
  }

  /** Everything on disk but what is going, plus the incoming entry, is within both bounds. */
  ghost predicate Fits(objects: map<ObjPath, ObjectDir>, going: set<ObjPath>, incoming: nat, limits: Limits) {
    && Total(Weights(objects - going)) + incoming <= limits.maxBytes
    && |objects - going| + 1 <= limits.maxEntries
  }

  function Going(prior: Option<Record>, retained: bool): set<ObjPath> {
    if prior.Some? && !retained then {ObjOf(prior.value)} else {}
  }

  ghost predicate AdmitStep(w: World, w': World, a: nat, j: Job, limits: Limits) {
    && InPhase(w, a, CommitTask(j), Sweeping)
    && var prior := RefAt(w.fs, PathOf(j.key));
    && var retained := prior.Some? && Leased(w, ObjOf(prior.value));
    && Fits(w.fs.objects, Going(prior, retained), j.record.storedBytes, limits)
    && w' == Goto(w, a, Exclusive(CommitTask(j), Admitted(prior, retained)))
  }

  ghost predicate RenameStep(w: World, w': World, a: nat, j: Job, prior: Option<Record>, retained: bool) {
    && InPhase(w, a, CommitTask(j), Admitted(prior, retained)) && j.record.generation in w.temps
    && w' == Goto(w, a, Exclusive(CommitTask(j), Renamed(prior, retained))).(
               fs := Apply(Install(ObjOf(j.record), w.temps[j.record.generation]), w.fs),
               temps := w.temps - {j.record.generation})
  }

  ghost predicate PublishStep(w: World, w': World, a: nat, j: Job, prior: Option<Record>, retained: bool) {
    && InPhase(w, a, CommitTask(j), Renamed(prior, retained))
    && w' == Goto(w, a, Exclusive(CommitTask(j), Published(prior, retained))).(
               fs := Apply(Bind(PathOf(j.key), Parsed(j.record)), w.fs),
               log := w.log + [Publication(j.key, j.record.generation, j.content, false)])
  }

  /** Failure before the ref was written. */
  ghost predicate UndoRenameStep(w: World, w': World, a: nat, j: Job, prior: Option<Record>, retained: bool) {
    && InPhase(w, a, CommitTask(j), Renamed(prior, retained))
    && w' == Goto(w, a, Exclusive(CommitTask(j), Removing(ObjOf(j.record), Done(false))))
  }

  /** Puts the ref back to what was read just before publication. */
  function UndoAct(j: Job, prior: Option<Record>): Act {
    if prior.Some? then Bind(PathOf(j.key), Parsed(prior.value)) else Unbind(PathOf(j.key))
  }

  /** Failure or expiry after the ref was written. */
  ghost predicate UndoPublishStep(w: World, w': World, a: nat, j: Job, prior: Option<Record>, retained: bool) {
    && InPhase(w, a, CommitTask(j), Published(prior, retained)) && w.log != []
    && w' == Goto(w, a, Exclusive(CommitTask(j), Removing(ObjOf(j.record), Done(false)))).(
               fs := Apply(UndoAct(j, prior), w.fs), log := w.log[..|w.log| - 1])
  }

  ghost predicate FailUndoStep(w: World, w': World, a: nat, j: Job, prior: Option<Record>, retained: bool) {
    && InPhase(w, a, CommitTask(j), Published(prior, retained))
    && w' == Goto(w, a, Exclusive(CommitTask(j), Done(false)))
  }

  /** The rollback guard is disarmed; the replaced generation is next to go. */
  ghost predicate KeepStep(w: World, w': World, a: nat, j: Job, prior: Option<Record>, retained: bool) {
    && InPhase(w, a, CommitTask(j), Published(prior, retained))
    && var after := if prior.Some? then Removing(ObjOf(prior.value), Done(true)) else Done(true);
    && w' == Goto(w, a, Exclusive(CommitTask(j), after))
  }

  // Leaving a critical section.

  /** `Stored` is returned. */
  ghost predicate ReturnStep(w: World, w': World, a: nat, j: Job) {
    && InPhase(w, a, CommitTask(j), Done(true)) && w.log != []
    && w' == Gone(w, a).(log := w.log[|w.log| - 1 := w.log[|w.log| - 1].(returned := true)])
  }

  /** A refused commit unlocks and then drops its capture. */
  ghost predicate RefuseStep(w: World, w': World, a: nat, j: Job) {
    && InSection(w, a) && PcOf(w, a).task == CommitTask(j)
    && (PcOf(w, a).phase.Sweeping? || PcOf(w, a).phase.Admitted?)
    && w' == Goto(w, a, Waiting(DiscardTask(j.record.generation)))
  }

  ghost predicate LeaveStep(w: World, w': World, a: nat) {
    && InSection(w, a)
    && var t := PcOf(w, a).task;
    && var ph := PcOf(w, a).phase;
    && (ph == Done(false) || (!t.CommitTask? && (ph.Sweeping? || ph.Refreshed? || ph.Done?)))
    && w' == Gone(w, a)
  }

  /** The process of one instance dies: its calls, locks and leases vanish, its files stay. */
  ghost predicate CrashStep(w: World, w': World, instance: nat) {
    w' == w.(actors := map a | a in w.actors && w.actors[a].instance != instance :: w.actors[a],
             leases := map l | l in w.leases && w.leases[l].instance != instance :: w.leases[l])
  }

  datatype Event =
    | Begin(a: nat, instance: nat, g: nat, schema: Schema, n: nat, codec: Codec)
    | Push(a: nat, i: nat, batch: Batch)
    | Finish(a: nat, key: CacheKey, lens: seq<nat>, createdMs: nat, expiresMs: nat, control: CacheControl)
    | Abandon(a: nat)
    | Start(a: nat, instance: nat, t: Task)
    | StartOnHit(a: nat, instance: nat, l: nat, t: Task)
    | TakeMutex(a: nat)
    | LockShared(a: nat)
    | LockExclusive(a: nat)
    | Observe(a: nat)
    | Miss(a: nat)
    | Condemn(a: nat)
    | Acquire(a: nat)
    | Unlock(a: nat)
    | Accept(a: nat, expected: Option<Schema>)
    | Reject(a: nat, expected: Option<Schema>)
    | Release(l: nat)
    | DropRef(a: nat, t: Task, p: RefPath)
    | DropOrphan(a: nat, t: Task, o: ObjPath)
    | Erosion(a: nat, t: Task, o: ObjPath, after: Phase, dir: ObjectDir)
    | RemoveObject(a: nat, t: Task, o: ObjPath, after: Phase)
    | SpareObject(a: nat, t: Task, o: ObjPath, after: Phase)
    | FailRemoval(a: nat, t: Task, o: ObjPath, after: Phase)
    | ReapTemp(a: nat, g: nat)
    | RemoveTemp(a: nat, g: nat)
    | Mismatch(a: nat, t: Task)
    | Refresh(a: nat, t: Task)
    | Withdraw(a: nat, t: Task)
    | Admit(a: nat, j: Job, limits: Limits)
    | Rename(a: nat, j: Job, prior: Option<Record>, retained: bool)
    | Publish(a: nat, j: Job, prior: Option<Record>, retained: bool)
    | UndoRename(a: nat, j: Job, prior: Option<Record>, retained: bool)
    | UndoPublish(a: nat, j: Job, prior: Option<Record>, retained: bool)
    | FailUndo(a: nat, j: Job, prior: Option<Record>, retained: bool)
    | Keep(a: nat, j: Job, prior: Option<Record>, retained: bool)
    | Return(a: nat, j: Job)
    | Refuse(a: nat, j: Job)
    | Leave(a: nat)
    | Crash(instance: nat)

  ghost predicate CallStep(w: World, e: Event, w': World) {
    match e
    case Begin(a, instance, g, schema, n, codec) => BeginStep(w, w', a, instance, g, schema, n, codec)
    case Push(a, i, batch) => PushStep(w, w', a, i, batch)
    case Finish(a, key, lens, created, expires, control) => FinishStep(w, w', a, key, lens, created, expires, control)
    case Abandon(a) => AbandonStep(w, w', a)
    case Start(a, instance, t) => StartStep(w, w', a, instance, t)
    case StartOnHit(a, instance, l, t) => StartOnHitStep(w, w', a, instance, l, t)
    case _ => false
  }

  ghost predicate LockStep(w: World, e: Event, w': World) {
    match e
    case TakeMutex(a) => TakeMutexStep(w, w', a)
    case LockShared(a) => LockSharedStep(w, w', a)
    case LockExclusive(a) => LockExclusiveStep(w, w', a)
    case Crash(instance) => CrashStep(w, w', instance)
    case _ => false
  }

  ghost predicate LookupStep(w: World, e: Event, w': World) {
    match e
    case Observe(a) => ObserveStep(w, w', a)
    case Miss(a) => MissStep(w, w', a)
    case Condemn(a) => CondemnStep(w, w', a)
    case Acquire(a) => AcquireStep(w, w', a)
    case Unlock(a) => UnlockStep(w, w', a)
    case Accept(a, expected) => AcceptStep(w, w', a, expected)
    case Reject(a, expected) => RejectStep(w, w', a, expected)
    case Release(l) => ReleaseStep(w, w', l)
    case _ => false
  }

  ghost predicate RemovalStep(w: World, e: Event, w': World) {
    match e
    case DropRef(a, t, p) => DropRefStep(w, w', a, t, p)
    case DropOrphan(a, t, o) => DropOrphanStep(w, w', a, t, o)
    case Erosion(a, t, o, after, dir) => ErodeStep(w, w', a, t, o, after, dir)
    case RemoveObject(a, t, o, after) => RemoveObjectStep(w, w', a, t, o, after)
    case SpareObject(a, t, o, after) => SpareObjectStep(w, w', a, t, o, after)
    case FailRemoval(a, t, o, after) => FailRemovalStep(w, w', a, t, o, after)
    case ReapTemp(a, g) => ReapTempStep(w, w', a, g)
    case RemoveTemp(a, g) => RemoveTempStep(w, w', a, g)
    case Mismatch(a, t) => MismatchStep(w, w', a, t)
    case Refresh(a, t) => RefreshStep(w, w', a, t)
    case Withdraw(a, t) => WithdrawStep(w, w', a, t)
    case _ => false
  }

  ghost predicate CommitStep(w: World, e: Event, w': World) {
    match e
    case Admit(a, j, limits) => AdmitStep(w, w', a, j, limits)
    case Rename(a, j, prior, retained) => RenameStep(w, w', a, j, prior, retained)
    case Publish(a, j, prior, retained) => PublishStep(w, w', a, j, prior, retained)
    case UndoRename(a, j, prior, retained) => UndoRenameStep(w, w', a, j, prior, retained)
    case UndoPublish(a, j, prior, retained) => UndoPublishStep(w, w', a, j, prior, retained)
    case FailUndo(a, j, prior, retained) => FailUndoStep(w, w', a, j, prior, retained)
    case Keep(a, j, prior, retained) => KeepStep(w, w', a, j, prior, retained)
    case Return(a, j) => ReturnStep(w, w', a, j)
    case Refuse(a, j) => RefuseStep(w, w', a, j)
    case Leave(a) => LeaveStep(w, w', a)
    case _ => false
  }

  ghost predicate Step(w: World, e: Event, w': World) {
    CallStep(w, e, w') || LockStep(w, e, w') || LookupStep(w, e, w') || RemovalStep(w, e, w') || CommitStep(w, e, w')
  }

  ghost predicate StepAt(ws: seq<World>, es: seq<Event>, i: nat)
    requires |ws| == |es| + 1 && i < |es|
  {
    Step(ws[i], es[i], ws[i + 1])
  }

  /** The worlds `ws` are what events `es` lead through, from an empty root. */
  ghost predicate Run(ws: seq<World>, es: seq<Event>) {
    && |ws| == |es| + 1
    && ws[0] == Init()
    && forall i: nat | i < |es| :: StepAt(ws, es, i)
  }

  // --------------------------------------------------------------- invariant

  ghost predicate TaskOk(w: World, t: Task) {
    match t
    case CommitTask(j) =>
      JobOk(j) && j.record.generation in w.temps && w.temps[j.record.generation] == JobDir(j)
    case RefreshTask(_, seen, renewed) => SameSeal(seen, renewed)
    case _ => true
  }

  ghost predicate PhaseOk(w: World, t: Task, ph: Phase) {
    match ph
    case Sweeping => TaskOk(w, t)
    case Removing(o, after) =>
      !Referenced(w.fs, o) && ((after.Sweeping? && TaskOk(w, t)) || after.Done?)
    case Admitted(prior, _) => t.CommitTask? && TaskOk(w, t) && RefAt(w.fs, PathOf(t.job.key)) == prior
    case Renamed(prior, _) =>
      && t.CommitTask? && JobOk(t.job)
      && var o := ObjOf(t.job.record);
      && o in w.fs.objects && w.fs.objects[o] == JobDir(t.job)
      && !Referenced(w.fs, o) && !Leased(w, o)
      && RefAt(w.fs, PathOf(t.job.key)) == prior
    case Published(prior, _) =>
      && t.CommitTask? && JobOk(t.job)
      && var o := ObjOf(t.job.record);
      && o in w.fs.objects && w.fs.objects[o] == JobDir(t.job) && !Leased(w, o)
      && RefAt(w.fs, PathOf(t.job.key)) == Some(t.job.record)
      && (prior.Some? ==> RefOk(PathOf(t.job.key), Parsed(prior.value), w.fs.objects) && ObjOf(prior.value) != o)
    case Refreshed => t.RefreshTask?
    case Done(_) => true
  }

  ghost predicate PcOk(w: World, pc: Pc) {
    match pc
    case Capturing(g, content, _) => g in w.temps && w.temps[g] == PartialDir(content)
    case Waiting(t) => TaskOk(w, t)
    case HoldsMutex(t) => TaskOk(w, t)
    case Looking(_) => true
    case Observed(k, r) => RefAt(w.fs, PathOf(k)) == Some(r)
    case Leasing(k, r, l) => l in w.leases && w.leases[l].record == r && w.leases[l].key == k
    case Validating(k, r, l) => l in w.leases && w.leases[l].record == r && w.leases[l].key == k
    case Exclusive(t, ph) => PhaseOk(w, t, ph)
  }

  /** Two calls in progress at once hold compatible locks, different captures and different leases. */
  ghost predicate Compatible(x: Actor, y: Actor) {
    && (Held(x.pc).Some? ==> Held(x.pc) != Held(y.pc))
    && (x.instance == y.instance ==> !(HasMutex(x.pc) && HasMutex(y.pc)))
    && (x.pc.Exclusive? ==> !HasRoot(y.pc))
    && (Owned(x.pc).Some? ==> Owned(x.pc) != Owned(y.pc))
  }

  ghost predicate Exclusion(w: World) {
    forall a, b | a in w.actors && b in w.actors && a != b :: Compatible(w.actors[a], w.actors[b])
  }

  ghost predicate Names(w: World) {
    && (forall g | g in w.temps :: g in w.used)
    && (forall o | o in w.fs.objects :: o.generation in w.used && o.generation !in w.temps)
    && (forall a | a in w.actors && Owned(PcOf(w, a)).Some? :: Owned(PcOf(w, a)).value in w.used)
    && (forall l | l in w.leases :: l < w.nextLease)
    && (forall a | a in w.actors && Held(PcOf(w, a)).Some? && Held(PcOf(w, a)).value in w.leases ::
          w.leases[Held(PcOf(w, a)).value].instance == w.actors[a].instance)
  }

  ghost predicate Inv(w: World) {
    && Sound(w.fs, LeasedObjects(w))
    && Names(w)
    && Exclusion(w)
    && forall a | a in w.actors :: PcOk(w, PcOf(w, a))
  }

  // ------------------------------------------------- what one step leaves alone

  /** The temporary directory an actor owns, and the lease it relies on, are untouched. */
  ghost predicate SameHoldings(w: World, w': World, pc: Pc) {
    && (Owned(pc).Some? && Owned(pc).value in w.temps ==>
          Owned(pc).value in w'.temps && w'.temps[Owned(pc).value] == w.temps[Owned(pc).value])
    && (Held(pc).Some? && Held(pc).value in w.leases ==>
          Held(pc).value in w'.leases && w'.leases[Held(pc).value] == w.leases[Held(pc).value])
  }

  /** What an actor knows survives a step of another that leaves refs and objects alone. */
  lemma FrameQuiet(w: World, w': World, pc: Pc)
    requires PcOk(w, pc) && SameHoldings(w, w', pc)
    requires w'.fs == w.fs
    requires pc.Exclusive? ==> LeasedObjects(w') <= LeasedObjects(w)
    ensures PcOk(w', pc)
  {
  }

  /** What an actor without the root lock knows survives any change of refs and objects. */
  lemma FrameUnlocked(w: World, w': World, pc: Pc)
    requires PcOk(w, pc) && SameHoldings(w, w', pc)
    requires !HasRoot(pc)
    ensures PcOk(w', pc)
  {
  }

  /** Only actor `a` may have moved. */
  ghost predicate OnlyMoved(w: World, w': World, a: nat) {
    forall b | b != a :: (b in w.actors <==> b in w'.actors) && (b in w.actors ==> w'.actors[b] == w.actors[b])
  }

  /** The actor gains no lock and no capture by its move. */
  ghost predicate NoGain(pc: Pc, pc': Pc) {
    && (Owned(pc') == Owned(pc) || Owned(pc').None?)
    && (Held(pc') == Held(pc) || Held(pc').None?)
    && (HasMutex(pc') ==> HasMutex(pc))
    && (HasRoot(pc') ==> HasRoot(pc))
    && (pc'.Exclusive? ==> pc.Exclusive?)
  }

  /** Temporary directories other than `g`'s are untouched, and none appears. */
  ghost predicate TempsBut(w: World, w': World, g: Option<nat>) {
    && (forall x | Some(x) != g && x in w.temps :: x in w'.temps && w'.temps[x] == w.temps[x])
    && (forall x | x in w'.temps :: x in w.temps)
  }

  /** A move of `a`, which ends in a state it can vouch for, over unchanged names and leases. */
  ghost predicate Move(w: World, w': World, a: nat) {
    && At(w, a) && OnlyMoved(w, w', a)
    && w'.leases == w.leases && w'.nextLease == w.nextLease && w'.used == w.used
    && TempsBut(w, w', Owned(PcOf(w, a)))
    && (At(w', a) ==> w'.actors[a].instance == w.actors[a].instance
                      && NoGain(PcOf(w, a), PcOf(w', a)) && PcOk(w', PcOf(w', a)))
  }

  lemma MoveHoldings(w: World, w': World, a: nat, b: nat)
    requires Exclusion(w) && Move(w, w', a) && At(w, b) && b != a
    ensures SameHoldings(w, w', PcOf(w, b))
  {
    assert Compatible(w.actors[b], w.actors[a]);
  }

  lemma MoveExclusion(w: World, w': World, a: nat)
    requires Exclusion(w) && Move(w, w', a)
    ensures Exclusion(w')
  {
    forall x, y | x in w'.actors && y in w'.actors && x != y
      ensures Compatible(w'.actors[x], w'.actors[y])
    {
      assert Compatible(w.actors[x], w.actors[y]);
    }
  }

  lemma OthersQuiet(w: World, w': World, a: nat)
    requires Exclusion(w) && Move(w, w', a) && w'.fs == w.fs && forall b | b in w.actors :: PcOk(w, PcOf(w, b))
    ensures forall b | b in w'.actors && b != a :: PcOk(w', PcOf(w', b))
  {
    forall b | b in w'.actors && b != a
      ensures PcOk(w', PcOf(w', b))
    {
      MoveHoldings(w, w', a, b);
      FrameQuiet(w, w', PcOf(w, b));
    }
  }

  lemma QuietKeeps(w: World, w': World, a: nat)
    requires Inv(w) && Move(w, w', a) && w'.fs == w.fs
    ensures Inv(w')
  {
    MoveExclusion(w, w', a);
    OthersQuiet(w, w', a);
  }

  lemma OthersLocked(w: World, w': World, a: nat)
    requires Exclusion(w) && Move(w, w', a) && InSection(w, a) && forall b | b in w.actors :: PcOk(w, PcOf(w, b))
    ensures forall b | b in w'.actors && b != a :: PcOk(w', PcOf(w', b))
  {
    forall b | b in w'.actors && b != a
      ensures PcOk(w', PcOf(w', b))
    {
      MoveHoldings(w, w', a, b);
      assert Compatible(w.actors[a], w.actors[b]);
      FrameUnlocked(w, w', PcOf(w, b));
    }
  }

  lemma NamesKept(w: World, w': World, a: nat, act: Act)
    requires Names(w) && Move(w, w', a) && Allowed(act, w.fs, LeasedObjects(w)) && w'.fs == Apply(act, w.fs)
    requires act.Install? ==> act.target.generation in w.used && act.target.generation !in w'.temps
    ensures Names(w')
  {
  }

  /** A filesystem step inside a critical section; a new object's name leaves `temps` as it appears. */
  lemma LockedKeeps(w: World, w': World, a: nat, act: Act)
    requires Inv(w) && Move(w, w', a) && InSection(w, a)
    requires Allowed(act, w.fs, LeasedObjects(w)) && w'.fs == Apply(act, w.fs)
    requires act.Install? ==> act.target.generation in w.used && act.target.generation !in w'.temps
    ensures Inv(w')
  {
    MoveExclusion(w, w', a);
    StepKeepsSound(act, w.fs, LeasedObjects(w));
    NamesKept(w, w', a, act);
    OthersLocked(w, w', a);
  }

  /** A new call, holding no lock and at most a capture of its own. */
  lemma SpawnKeeps(w: World, w': World, a: nat)
    requires Inv(w) && !At(w, a) && At(w', a) && OnlyMoved(w, w', a)
    requires w'.fs == w.fs && w'.leases == w.leases && w'.nextLease == w.nextLease && w.used <= w'.used
    requires PcOk(w', PcOf(w', a)) && !HasMutex(PcOf(w', a)) && Held(PcOf(w', a)).None?
    requires Owned(PcOf(w', a)).Some? ==> Owned(PcOf(w', a)).value in w'.used - w.used
    requires forall x | x in w.temps :: x in w'.temps && w'.temps[x] == w.temps[x]
    requires forall x | x in w'.temps :: x in w.temps || Some(x) == Owned(PcOf(w', a))
    ensures Inv(w')
  {
    forall b | b in w'.actors && b != a
      ensures PcOk(w', PcOf(w', b))
    {
      FrameQuiet(w, w', PcOf(w, b));
    }
    assert Exclusion(w') by {
      forall x, y | x in w'.actors && y in w'.actors && x != y
        ensures Compatible(w'.actors[x], w'.actors[y])
      {
        if x != a && y != a {
          assert Compatible(w.actors[x], w.actors[y]);
        }
      }
    }
  }

  // ------------------------------------------------------- every step keeps it

  lemma BeginKeeps(w: World, w': World, a: nat, instance: nat, g: nat, schema: Schema, n: nat, codec: Codec)
    requires Inv(w) && BeginStep(w, w', a, instance, g, schema, n, codec)
    ensures Inv(w')
  {
    SpawnKeeps(w, w', a);
  }

  lemma StartKeeps(w: World, w': World, a: nat, instance: nat, t: Task)
    requires Inv(w) && StartStep(w, w', a, instance, t)
    ensures Inv(w')
  {
    SpawnKeeps(w, w', a);
  }

  lemma StartOnHitKeeps(w: World, w': World, a: nat, instance: nat, l: nat, t: Task)
    requires Inv(w) && StartOnHitStep(w, w', a, instance, l, t)
    ensures Inv(w')
  {
    SpawnKeeps(w, w', a);
  }

  lemma PushMoves(w: World, w': World, a: nat, i: nat, batch: Batch)
    requires At(w, a) && PcOk(w, PcOf(w, a)) && PushStep(w, w', a, i, batch)
    ensures Move(w, w', a) && w'.fs == w.fs
  {
  }

  lemma FinishMoves(w: World, w': World, a: nat, key: CacheKey, lens: seq<nat>,
                    createdMs: nat, expiresMs: nat, control: CacheControl)
    requires At(w, a) && PcOk(w, PcOf(w, a)) && FinishStep(w, w', a, key, lens, createdMs, expiresMs, control)
    ensures Move(w, w', a) && w'.fs == w.fs
  {
  }

  lemma AbandonMoves(w: World, w': World, a: nat)
    requires At(w, a) && PcOk(w, PcOf(w, a)) && AbandonStep(w, w', a)
    ensures Move(w, w', a) && w'.fs == w.fs
  {
  }

  lemma LookupMove(w: World, w': World, a: nat, expected: Option<Schema>)
    requires At(w, a) && PcOk(w, PcOf(w, a))
    requires ObserveStep(w, w', a) || MissStep(w, w', a) || CondemnStep(w, w', a) || UnlockStep(w, w', a)
             || AcceptStep(w, w', a, expected)
    ensures Move(w, w', a) && w'.fs == w.fs
  {
  }

  /** Locks: only the actor's own state changes, and exclusion is what the lock's guard gives. */
  lemma LockKeeps(w: World, w': World, a: nat, pc: Pc)
    requires Inv(w) && At(w, a) && w' == Goto(w, a, pc)
    requires Owned(pc) == Owned(PcOf(w, a)) && Held(pc).None? && PcOk(w', pc)
    requires Exclusion(w')
    ensures Inv(w')
  {
    forall b | b in w'.actors && b != a
      ensures PcOk(w', PcOf(w', b))
    {
      FrameQuiet(w, w', PcOf(w, b));
    }
  }

  lemma LocksExclude(w: World, w': World, a: nat)
    requires Exclusion(w)
    requires TakeMutexStep(w, w', a) || LockSharedStep(w, w', a) || LockExclusiveStep(w, w', a)
    ensures Exclusion(w')
  {
    forall x, y | x in w'.actors && y in w'.actors && x != y
      ensures Compatible(w'.actors[x], w'.actors[y])
    {
      assert Compatible(w.actors[x], w.actors[y]);
      assert Compatible(w.actors[y], w.actors[x]);
    }
  }

  lemma TakeMutexKeeps(w: World, w': World, a: nat)
    requires Inv(w) && TakeMutexStep(w, w', a)
    ensures Inv(w')
  {
    LocksExclude(w, w', a);
    FrameQuiet(w, w', PcOf(w, a));
    LockKeeps(w, w', a, PcOf(w', a));
  }

  lemma LockSharedKeeps(w: World, w': World, a: nat)
    requires Inv(w) && LockSharedStep(w, w', a)
    ensures Inv(w')
  {
    LocksExclude(w, w', a);
    LockKeeps(w, w', a, PcOf(w', a));
  }

  lemma LockExclusiveKeeps(w: World, w': World, a: nat)
    requires Inv(w) && LockExclusiveStep(w, w', a)
    ensures Inv(w')
  {
    LocksExclude(w, w', a);
    FrameQuiet(w, w', PcOf(w, a));
    LockKeeps(w, w', a, PcOf(w', a));
  }

  // Leases.

  lemma AcquiredObjects(w: World, w': World, a: nat)
    requires AcquireStep(w, w', a) && forall l | l in w.leases :: l < w.nextLease
    ensures LeasedObjects(w') == LeasedObjects(w) + {ObjOf(PcOf(w, a).record)}
  {
    forall o | o in LeasedObjects(w)
      ensures o in LeasedObjects(w')
    {
      var l :| l in w.leases && o == ObjOf(w.leases[l].record);
      assert l in w'.leases && w'.leases[l] == w.leases[l];
    }
    assert w.nextLease in w'.leases;
  }

  lemma SoundWithLease(fs: Fs, leased: set<ObjPath>, o: ObjPath)
    requires Sound(fs, leased) && o in fs.objects && fs.objects[o].lease
    ensures Sound(fs, leased + {o})
  {
  }

  lemma AcquireKeeps(w: World, w': World, a: nat)
    requires Inv(w) && AcquireStep(w, w', a)
    ensures Inv(w')
  {
    AcquiredObjects(w, w', a);
    SoundWithLease(w.fs, LeasedObjects(w), ObjOf(PcOf(w, a).record));
    assert forall b | b in w.actors && Held(PcOf(w, b)).Some? :: PcOk(w, PcOf(w, b));
    AcquireExcludes(w, w', a);
    AcquireNames(w, w', a);
    forall b | b in w'.actors
      ensures PcOk(w', PcOf(w', b))
    {
      AcquireFrame(w, w', a, b);
    }
  }

  lemma AcquireNames(w: World, w': World, a: nat)
    requires Names(w) && AcquireStep(w, w', a)
    requires forall b | b in w.actors && Held(PcOf(w, b)).Some? :: Held(PcOf(w, b)).value in w.leases
    ensures Names(w')
  {
  }

  lemma AcquireFrame(w: World, w': World, a: nat, b: nat)
    requires Exclusion(w) && AcquireStep(w, w', a) && At(w, b) && PcOk(w, PcOf(w, b))
    requires forall l | l in w.leases :: l < w.nextLease
    ensures PcOk(w', PcOf(w', b))
  {
    if b != a {
      assert Compatible(w.actors[b], w.actors[a]);
      FrameQuiet(w, w', PcOf(w, b));
    }
  }

  /** The new lease is nobody else's. */
  lemma AcquireCompatible(w: World, x: Actor, y: Actor, x': Actor)
    requires Compatible(x, y) && Compatible(y, x) && x.pc.Observed? && x'.pc.Leasing? && x'.pc.lease == w.nextLease
    requires x'.instance == x.instance && (Held(y.pc).Some? ==> Held(y.pc).value < w.nextLease)
    ensures Compatible(x', y) && Compatible(y, x')
  {
  }

  lemma AcquireExcludes(w: World, w': World, a: nat)
    requires Exclusion(w) && AcquireStep(w, w', a)
    requires forall b | b in w.actors && Held(PcOf(w, b)).Some? :: Held(PcOf(w, b)).value < w.nextLease
    ensures Exclusion(w')
  {
    forall x, y | x in w'.actors && y in w'.actors && x != y
      ensures Compatible(w'.actors[x], w'.actors[y])
    {
      assert Compatible(w.actors[x], w.actors[y]) && Compatible(w.actors[y], w.actors[x]);
      if x == a {
        AcquireCompatible(w, w.actors[a], w.actors[y], w'.actors[a]);
      } else if y == a {
        AcquireCompatible(w, w.actors[a], w.actors[x], w'.actors[a]);
      }
    }
  }

  /** Leases may go while anything else happens; nobody relies on another's. */
  lemma FewerLeasesKeep(w: World, w': World, gone: set<nat>)
    requires Inv(w)
    requires w'.fs == w.fs && w'.temps == w.temps && w'.used == w.used && w'.nextLease == w.nextLease
    requires w'.leases == w.leases - gone
    requires forall a | a in w'.actors :: a in w.actors && w'.actors[a] == w.actors[a]
    requires forall a | a in w'.actors && Held(PcOf(w, a)).Some? :: Held(PcOf(w, a)).value !in gone
    ensures Inv(w')
  {
    assert LeasedObjects(w') <= LeasedObjects(w);
    forall b | b in w'.actors
      ensures PcOk(w', PcOf(w', b))
    {
      FrameQuiet(w, w', PcOf(w, b));
    }
    assert Exclusion(w') by {
      forall x, y | x in w'.actors && y in w'.actors && x != y
        ensures Compatible(w'.actors[x], w'.actors[y])
      {
        assert Compatible(w.actors[x], w.actors[y]);
      }
    }
  }

  lemma ReleaseKeeps(w: World, w': World, l: nat)
    requires Inv(w) && ReleaseStep(w, w', l)
    ensures Inv(w')
  {
    FewerLeasesKeep(w, w', {l});
  }

  lemma CrashKeeps(w: World, w': World, instance: nat)
    requires Inv(w) && CrashStep(w, w', instance)
    ensures Inv(w')
  {
    var gone := set l | l in w.leases && w.leases[l].instance == instance;
    forall a | a in w'.actors && Held(PcOf(w, a)).Some?
      ensures Held(PcOf(w, a)).value !in gone
    {
      assert PcOk(w, PcOf(w, a));
    }
    FewerLeasesKeep(w, w', gone);
  }

  lemma RejectMoves(w: World, w': World, a: nat, expected: Option<Schema>) returns (mid: World)
    requires At(w, a) && PcOk(w, PcOf(w, a)) && RejectStep(w, w', a, expected)
    ensures Move(w, mid, a) && mid.fs == w.fs
    ensures At(mid, a) && Held(PcOf(mid, a)).None?
    ensures w' == mid.(leases := mid.leases - {PcOf(w, a).lease})
  {
    mid := Goto(w, a, Waiting(IfCurrentTask(PathOf(PcOf(w, a).key), PcOf(w, a).record)));
  }

  lemma RejectKeeps(w: World, w': World, a: nat, expected: Option<Schema>)
    requires Inv(w) && RejectStep(w, w', a, expected)
    ensures Inv(w')
  {
    var mid := RejectMoves(w, w', a, expected);
    QuietKeeps(w, mid, a);
    forall b | b in mid.actors
      ensures Held(PcOf(mid, b)) != Some(PcOf(w, a).lease)
    {
      if b != a {
        assert Compatible(w.actors[a], w.actors[b]);
      }
    }
    FewerLeasesKeep(mid, w', {PcOf(w, a).lease});
  }

  /** Staying in the critical section, with the same task. */
  lemma StaysInSection(w: World, w': World, a: nat, t: Task, next: Phase)
    requires InSection(w, a) && PcOf(w, a).task == t
    requires w'.actors == w.actors[a := w.actors[a].(pc := Exclusive(t, next))]
    requires w'.leases == w.leases && w'.nextLease == w.nextLease && w'.used == w.used
    requires TempsBut(w, w', OwnedByTask(t)) && PhaseOk(w', t, next)
    ensures Move(w, w', a)
  {
  }

  // Inside a critical section, without touching refs or objects.

  lemma ReapTempKeeps(w: World, w': World, a: nat, g: nat)
    requires Inv(w) && ReapTempStep(w, w', a, g)
    ensures Inv(w')
  {
    forall b | b in w'.actors
      ensures PcOk(w', PcOf(w', b))
    {
      FrameQuiet(w, w', PcOf(w, b));
    }
  }

  lemma RemoveTempMoves(w: World, w': World, a: nat, g: nat)
    requires At(w, a) && PcOk(w, PcOf(w, a)) && RemoveTempStep(w, w', a, g)
    ensures Move(w, w', a) && w'.fs == w.fs
  {
  }

  lemma DropOrphanMoves(w: World, w': World, a: nat, t: Task, o: ObjPath)
    requires At(w, a) && PcOk(w, PcOf(w, a)) && DropOrphanStep(w, w', a, t, o)
    ensures Move(w, w', a) && w'.fs == w.fs
  {
    StaysInSection(w, w', a, t, Removing(o, Sweeping));
  }

  lemma SkippedRemovalMoves(w: World, w': World, a: nat, t: Task, o: ObjPath, after: Phase)
    requires At(w, a) && PcOk(w, PcOf(w, a))
    requires SpareObjectStep(w, w', a, t, o, after) || FailRemovalStep(w, w', a, t, o, after)
    ensures Move(w, w', a) && w'.fs == w.fs
  {
    StaysInSection(w, w', a, t, after);
  }

  lemma ConditionalMoves(w: World, w': World, a: nat, t: Task)
    requires At(w, a) && PcOk(w, PcOf(w, a))
    requires MismatchStep(w, w', a, t) || WithdrawStep(w, w', a, t)
    ensures Move(w, w', a) && w'.fs == w.fs
  {
  }

  lemma AdmitMoves(w: World, w': World, a: nat, j: Job, limits: Limits)
    requires At(w, a) && PcOk(w, PcOf(w, a)) && AdmitStep(w, w', a, j, limits)
    ensures Move(w, w', a) && w'.fs == w.fs
  {
    StaysInSection(w, w', a, CommitTask(j), PcOf(w', a).phase);
  }

  lemma UndoRenameMoves(w: World, w': World, a: nat, j: Job, prior: Option<Record>, retained: bool)
    requires At(w, a) && PcOk(w, PcOf(w, a)) && UndoRenameStep(w, w', a, j, prior, retained)
    ensures Move(w, w', a) && w'.fs == w.fs
  {
    StaysInSection(w, w', a, CommitTask(j), Removing(ObjOf(j.record), Done(false)));
  }

  lemma FailUndoMoves(w: World, w': World, a: nat, j: Job, prior: Option<Record>, retained: bool)
    requires At(w, a) && FailUndoStep(w, w', a, j, prior, retained)
    ensures Move(w, w', a) && w'.fs == w.fs
  {
    StaysInSection(w, w', a, CommitTask(j), Done(false));
  }

  lemma ReturnMoves(w: World, w': World, a: nat, j: Job)
    requires At(w, a) && (ReturnStep(w, w', a, j) || RefuseStep(w, w', a, j))
    ensures Move(w, w', a) && w'.fs == w.fs
  {
  }

  lemma LeaveMoves(w: World, w': World, a: nat)
    requires At(w, a) && LeaveStep(w, w', a)
    ensures Move(w, w', a) && w'.fs == w.fs
  {
  }

  /** Whoever refers to an object that a sound ref at `p` could name, is `p`. */
  lemma OnlyReferrer(fs: Fs, leased: set<ObjPath>, p: RefPath, r: Record, q: RefPath)
    requires Sound(fs, leased) && RefOk(p, Parsed(r), fs.objects)
    requires q in fs.refs && Refers(fs.refs[q], ObjOf(r))
    ensures q == p
  {
    assert RefOk(q, fs.refs[q], fs.objects);
  }

  /** Once another record is published, nobody refers to the object of the record before it. */
  lemma SupersededIsFree(fs: Fs, leased: set<ObjPath>, p: RefPath, prior: Record)
    requires Sound(fs, leased) && RefOk(p, Parsed(prior), fs.objects)
    requires p in fs.refs && !Refers(fs.refs[p], ObjOf(prior))
    ensures !Referenced(fs, ObjOf(prior))
  {
    forall q | q in fs.refs
      ensures !Refers(fs.refs[q], ObjOf(prior))
    {
      if Refers(fs.refs[q], ObjOf(prior)) {
        OnlyReferrer(fs, leased, p, prior, q);
      }
    }
  }

  lemma KeptPhase(w: World, w': World, j: Job, prior: Option<Record>, retained: bool)
    requires Sound(w.fs, LeasedObjects(w)) && w'.fs == w.fs
    requires PhaseOk(w, CommitTask(j), Published(prior, retained))
    ensures PhaseOk(w', CommitTask(j), if prior.Some? then Removing(ObjOf(prior.value), Done(true)) else Done(true))
  {
    if prior.Some? {
      SupersededIsFree(w.fs, LeasedObjects(w), PathOf(j.key), prior.value);
    }
  }

  lemma KeepMoves(w: World, w': World, a: nat, j: Job, prior: Option<Record>, retained: bool)
    requires KeepStep(w, w', a, j, prior, retained) && PhaseOk(w', CommitTask(j), PcOf(w', a).phase)
    ensures Move(w, w', a) && w'.fs == w.fs
  {
    StaysInSection(w, w', a, CommitTask(j), PcOf(w', a).phase);
  }

  // Refs and objects change.

  /** A move inside a critical section that performs one allowed filesystem step. */
  ghost predicate Performs(w: World, w': World, a: nat, act: Act) {
    && Move(w, w', a) && InSection(w, a)
    && Allowed(act, w.fs, LeasedObjects(w))
    && w'.fs == Apply(act, w.fs)
    && (act.Install? ==> act.target.generation in w.used && act.target.generation !in w'.temps)
  }

  lemma UnboundIsFree(fs: Fs, leased: set<ObjPath>, p: RefPath, r: Record)
    requires Sound(fs, leased) && RefAt(fs, p) == Some(r)
    ensures !Referenced(Apply(Unbind(p), fs), ObjOf(r))
  {
    forall q | q in fs.refs && q != p
      ensures !Refers(fs.refs[q], ObjOf(r))
    {
      if Refers(fs.refs[q], ObjOf(r)) {
        OnlyReferrer(fs, leased, p, r, q);
      }
    }
  }

  lemma DropRefPerforms(w: World, w': World, a: nat, t: Task, p: RefPath)
    requires At(w, a) && PcOk(w, PcOf(w, a)) && DropRefStep(w, w', a, t, p)
    requires !Referenced(Apply(Unbind(p), w.fs), ObjOf(RefAt(w.fs, p).value))
    ensures Performs(w, w', a, Unbind(p))
  {
    StaysInSection(w, w', a, t, PcOf(w', a).phase);
  }

  lemma ErodePerforms(w: World, w': World, a: nat, t: Task, o: ObjPath, after: Phase, dir: ObjectDir)
    requires At(w, a) && PcOk(w, PcOf(w, a)) && ErodeStep(w, w', a, t, o, after, dir)
    ensures Performs(w, w', a, Erode(o, dir))
  {
    assert !Referenced(w'.fs, o);
  }

  lemma RemoveObjectPerforms(w: World, w': World, a: nat, t: Task, o: ObjPath, after: Phase)
    requires At(w, a) && PcOk(w, PcOf(w, a)) && RemoveObjectStep(w, w', a, t, o, after)
    ensures Performs(w, w', a, Delete(o))
  {
    StaysInSection(w, w', a, t, after);
  }

  lemma SameSealOk(p: RefPath, r: Record, renewed: Record, objects: map<ObjPath, ObjectDir>)
    requires RefOk(p, Parsed(r), objects) && SameSeal(r, renewed)
    ensures RefOk(p, Parsed(renewed), objects)
  {
  }

  lemma RefreshPerforms(w: World, w': World, a: nat, t: Task)
    requires At(w, a) && PcOk(w, PcOf(w, a)) && RefreshStep(w, w', a, t)
    requires RefOk(t.path, Parsed(t.renewed), w.fs.objects)
    ensures Performs(w, w', a, Bind(t.path, Parsed(t.renewed)))
  {
    StaysInSection(w, w', a, t, Refreshed);
  }

  lemma NewObjectUnknown(fs: Fs, leased: set<ObjPath>, o: ObjPath)
    requires Sound(fs, leased) && o !in fs.objects
    ensures !Referenced(fs, o) && o !in leased
  {
    forall q | q in fs.refs
      ensures !Refers(fs.refs[q], o)
    {
      assert RefOk(q, fs.refs[q], fs.objects);
    }
  }

  lemma RenamePerforms(w: World, w': World, a: nat, j: Job, prior: Option<Record>, retained: bool)
    requires Names(w) && At(w, a) && PcOk(w, PcOf(w, a))
    requires RenameStep(w, w', a, j, prior, retained)
    requires !Referenced(w.fs, ObjOf(j.record)) && !Leased(w, ObjOf(j.record))
    ensures Performs(w, w', a, Install(ObjOf(j.record), JobDir(j)))
  {
    assert w'.fs.refs == w.fs.refs;
    assert !Referenced(w'.fs, ObjOf(j.record));
    StaysInSection(w, w', a, CommitTask(j), PcOf(w', a).phase);
  }

  /** A job's object is complete under the job's record. */
  lemma JobSeals(j: Job, objects: map<ObjPath, ObjectDir>)
    requires JobOk(j) && ObjOf(j.record) in objects && objects[ObjOf(j.record)] == JobDir(j)
    ensures RefOk(PathOf(j.key), Parsed(j.record), objects)
  {
    SealedPasses(j.key, j.content, j.codec, j.lens, j.record, None);
  }

  lemma PublishPerforms(w: World, w': World, a: nat, j: Job, prior: Option<Record>, retained: bool)
    requires At(w, a) && PcOk(w, PcOf(w, a)) && PublishStep(w, w', a, j, prior, retained)
    requires RefOk(PathOf(j.key), Parsed(j.record), w.fs.objects)
    requires prior.Some? ==> RefOk(PathOf(j.key), Parsed(prior.value), w.fs.objects)
    ensures Performs(w, w', a, Bind(PathOf(j.key), Parsed(j.record)))
  {
    if prior.Some? {
      assert Refers(w.fs.refs[PathOf(j.key)], ObjOf(prior.value));
    }
    StaysInSection(w, w', a, CommitTask(j), PcOf(w', a).phase);
  }

  lemma UndoneIsFree(fs: Fs, leased: set<ObjPath>, j: Job, prior: Option<Record>)
    requires Sound(fs, leased) && RefAt(fs, PathOf(j.key)) == Some(j.record)
    requires prior.Some? ==> ObjOf(prior.value) != ObjOf(j.record)
    ensures !Referenced(Apply(UndoAct(j, prior), fs), ObjOf(j.record))
  {
    UnboundIsFree(fs, leased, PathOf(j.key), j.record);
    var fs' := Apply(UndoAct(j, prior), fs);
    forall q | q in fs'.refs
      ensures !Refers(fs'.refs[q], ObjOf(j.record))
    {
      if q != PathOf(j.key) {
        assert q in Apply(Unbind(PathOf(j.key)), fs).refs;
      }
    }
  }

  lemma UndoPublishPerforms(w: World, w': World, a: nat, j: Job, prior: Option<Record>, retained: bool)
    requires At(w, a) && PcOk(w, PcOf(w, a)) && UndoPublishStep(w, w', a, j, prior, retained)
    requires !Referenced(Apply(UndoAct(j, prior), w.fs), ObjOf(j.record))
    ensures Performs(w, w', a, UndoAct(j, prior))
  {
    StaysInSection(w, w', a, CommitTask(j), PcOf(w', a).phase);
  }

  // One lemma a step.

  lemma CaptureKeeps(w: World, w': World, a: nat)
    requires Inv(w) && At(w, a)
    requires (exists i, batch :: PushStep(w, w', a, i, batch)) || AbandonStep(w, w', a)
             || (exists key, lens, c, x, control :: FinishStep(w, w', a, key, lens, c, x, control))
    ensures Inv(w')
  {
    assert PcOk(w, PcOf(w, a));
    if i, batch :| PushStep(w, w', a, i, batch) {
      PushMoves(w, w', a, i, batch);
    } else if AbandonStep(w, w', a) {
      AbandonMoves(w, w', a);
    } else {
      var key, lens, c, x, control :| FinishStep(w, w', a, key, lens, c, x, control);
      FinishMoves(w, w', a, key, lens, c, x, control);
    }
    QuietKeeps(w, w', a);
  }

  lemma LookupKeeps(w: World, w': World, a: nat, expected: Option<Schema>)
    requires Inv(w) && At(w, a)
    requires ObserveStep(w, w', a) || MissStep(w, w', a) || CondemnStep(w, w', a) || UnlockStep(w, w', a)
             || AcceptStep(w, w', a, expected)
    ensures Inv(w')
  {
    LookupMove(w, w', a, expected);
    QuietKeeps(w, w', a);
  }

  lemma DropRefKeeps(w: World, w': World, a: nat, t: Task, p: RefPath)
    requires Inv(w) && DropRefStep(w, w', a, t, p)
    ensures Inv(w')
    ensures Performs(w, w', a, Unbind(p))
  {
    UnboundIsFree(w.fs, LeasedObjects(w), p, RefAt(w.fs, p).value);
    DropRefPerforms(w, w', a, t, p);
    LockedKeeps(w, w', a, Unbind(p));
  }

  lemma RemoveObjectKeeps(w: World, w': World, a: nat, t: Task, o: ObjPath, after: Phase)
    requires Inv(w) && RemoveObjectStep(w, w', a, t, o, after)
    ensures Inv(w')
    ensures Performs(w, w', a, Delete(o))
  {
    InvAt(w, a);
    RemoveObjectPerforms(w, w', a, t, o, after);
    LockedKeeps(w, w', a, Delete(o));
  }

  lemma DropOrphanKeeps(w: World, w': World, a: nat, t: Task, o: ObjPath)
    requires Inv(w) && DropOrphanStep(w, w', a, t, o)
    ensures Inv(w')
  {
    InvAt(w, a);
    DropOrphanMoves(w, w', a, t, o);
    QuietKeeps(w, w', a);
  }

  lemma SkippedRemovalKeeps(w: World, w': World, a: nat, t: Task, o: ObjPath, after: Phase)
    requires Inv(w) && (SpareObjectStep(w, w', a, t, o, after) || FailRemovalStep(w, w', a, t, o, after))
    ensures Inv(w')
  {
    InvAt(w, a);
    SkippedRemovalMoves(w, w', a, t, o, after);
    QuietKeeps(w, w', a);
  }

  lemma ErodeKeeps(w: World, w': World, a: nat, t: Task, o: ObjPath, after: Phase, dir: ObjectDir)
    requires Inv(w) && ErodeStep(w, w', a, t, o, after, dir)
    ensures Inv(w')
    ensures Performs(w, w', a, Erode(o, dir))
  {
    ErodePerforms(w, w', a, t, o, after, dir);
    LockedKeeps(w, w', a, Erode(o, dir));
  }

  lemma RemoveTempKeeps(w: World, w': World, a: nat, g: nat)
    requires Inv(w) && RemoveTempStep(w, w', a, g)
    ensures Inv(w')
  {
    RemoveTempMoves(w, w', a, g);
    QuietKeeps(w, w', a);
  }

  /** What the invariant says of one call. */
  lemma InvAt(w: World, a: nat)
    requires Inv(w) && At(w, a)
    ensures PcOk(w, PcOf(w, a))
  {
  }

  lemma RefAtOk(fs: Fs, leased: set<ObjPath>, p: RefPath, r: Record)
    requires Sound(fs, leased) && RefAt(fs, p) == Some(r)
    ensures RefOk(p, Parsed(r), fs.objects)
  {
    assert RefOk(p, fs.refs[p], fs.objects);
  }

  lemma RenewedOk(w: World, a: nat, t: Task)
    requires Inv(w) && InPhase(w, a, t, Sweeping) && t.RefreshTask? && RefAt(w.fs, t.path) == Some(t.seen)
    ensures RefOk(t.path, Parsed(t.renewed), w.fs.objects)
  {
    InvAt(w, a);
    RefAtOk(w.fs, LeasedObjects(w), t.path, t.seen);
    SameSealOk(t.path, t.seen, t.renewed, w.fs.objects);
  }

  lemma RefreshKeeps(w: World, w': World, a: nat, t: Task)
    requires Inv(w) && RefreshStep(w, w', a, t)
    ensures Inv(w') && Performs(w, w', a, Bind(t.path, Parsed(t.renewed)))
  {
    RenewedOk(w, a, t);
    RefreshPerforms(w, w', a, t);
    LockedKeeps(w, w', a, Bind(t.path, Parsed(t.renewed)));
  }

  lemma ConditionalKeeps(w: World, w': World, a: nat, t: Task)
    requires Inv(w) && (MismatchStep(w, w', a, t) || WithdrawStep(w, w', a, t))
    ensures Inv(w')
  {
    ConditionalMoves(w, w', a, t);
    QuietKeeps(w, w', a);
  }

  lemma AdmitKeeps(w: World, w': World, a: nat, j: Job, limits: Limits)
    requires Inv(w) && AdmitStep(w, w', a, j, limits)
    ensures Inv(w')
  {
    AdmitMoves(w, w', a, j, limits);
    QuietKeeps(w, w', a);
  }

  lemma RenameKeeps(w: World, w': World, a: nat, j: Job, prior: Option<Record>, retained: bool)
    requires Inv(w) && RenameStep(w, w', a, j, prior, retained)
    ensures Inv(w')
    ensures JobOk(j) && Performs(w, w', a, Install(ObjOf(j.record), JobDir(j)))
  {
    assert ObjOf(j.record) !in w.fs.objects;
    NewObjectUnknown(w.fs, LeasedObjects(w), ObjOf(j.record));
    RenamePerforms(w, w', a, j, prior, retained);
    LockedKeeps(w, w', a, Install(ObjOf(j.record), JobDir(j)));
  }

  lemma PublishKeeps(w: World, w': World, a: nat, j: Job, prior: Option<Record>, retained: bool)
    requires Inv(w) && PublishStep(w, w', a, j, prior, retained)
    ensures Inv(w')
    ensures Performs(w, w', a, Bind(PathOf(j.key), Parsed(j.record)))
  {
    assert PcOk(w, PcOf(w, a));
    JobSeals(j, w.fs.objects);
    PublishPerforms(w, w', a, j, prior, retained);
    LockedKeeps(w, w', a, Bind(PathOf(j.key), Parsed(j.record)));
  }

  lemma UndoPublishKeeps(w: World, w': World, a: nat, j: Job, prior: Option<Record>, retained: bool)
    requires Inv(w) && UndoPublishStep(w, w', a, j, prior, retained)
    ensures Inv(w')
    ensures Performs(w, w', a, UndoAct(j, prior))
  {
    InvAt(w, a);
    UndoneIsFree(w.fs, LeasedObjects(w), j, prior);
    UndoPublishPerforms(w, w', a, j, prior, retained);
    LockedKeeps(w, w', a, UndoAct(j, prior));
  }

  lemma UndoRenameKeeps(w: World, w': World, a: nat, j: Job, prior: Option<Record>, retained: bool)
    requires Inv(w) && UndoRenameStep(w, w', a, j, prior, retained)
    ensures Inv(w')
  {
    InvAt(w, a);
    UndoRenameMoves(w, w', a, j, prior, retained);
    QuietKeeps(w, w', a);
  }

  lemma FailUndoKeeps(w: World, w': World, a: nat, j: Job, prior: Option<Record>, retained: bool)
    requires Inv(w) && FailUndoStep(w, w', a, j, prior, retained)
    ensures Inv(w')
  {
    FailUndoMoves(w, w', a, j, prior, retained);
    QuietKeeps(w, w', a);
  }

  lemma KeepKeeps(w: World, w': World, a: nat, j: Job, prior: Option<Record>, retained: bool)
    requires Inv(w) && KeepStep(w, w', a, j, prior, retained)
    ensures Inv(w')
  {
    InvAt(w, a);
    KeptPhase(w, w', j, prior, retained);
    KeepMoves(w, w', a, j, prior, retained);
    QuietKeeps(w, w', a);
  }

  lemma ReturnKeeps(w: World, w': World, a: nat, j: Job)
    requires Inv(w) && (ReturnStep(w, w', a, j) || RefuseStep(w, w', a, j))
    ensures Inv(w')
  {
    ReturnMoves(w, w', a, j);
    QuietKeeps(w, w', a);
  }

  lemma LeaveKeeps(w: World, w': World, a: nat)
    requires Inv(w) && LeaveStep(w, w', a)
    ensures Inv(w')
  {
    LeaveMoves(w, w', a);
    QuietKeeps(w, w', a);
  }

  predicate Captures(e: Event) {
    e.Push? || e.Finish? || e.Abandon?
  }

  lemma CaptureStepKeepsInv(w: World, e: Event, w': World)
    requires Inv(w) && CallStep(w, e, w') && Captures(e)
    ensures Inv(w')
  {
    CaptureKeeps(w, w', e.a);
  }

  lemma CallStepKeepsInv(w: World, e: Event, w': World)
    requires Inv(w) && CallStep(w, e, w')
    ensures Inv(w')
  {
    if Captures(e) {
      CaptureStepKeepsInv(w, e, w');
    } else {
      match e
      case Begin(a, instance, g, schema, n, codec) => BeginKeeps(w, w', a, instance, g, schema, n, codec);
      case Start(a, instance, t) => StartKeeps(w, w', a, instance, t);
      case StartOnHit(a, instance, l, t) => StartOnHitKeeps(w, w', a, instance, l, t);
      case _ =>
    }
  }

  lemma LockStepKeepsInv(w: World, e: Event, w': World)
    requires Inv(w) && LockStep(w, e, w')
    ensures Inv(w')
  {
    match e
    case TakeMutex(a) => TakeMutexKeeps(w, w', a);
    case LockShared(a) => LockSharedKeeps(w, w', a);
    case LockExclusive(a) => LockExclusiveKeeps(w, w', a);
    case Crash(instance) => CrashKeeps(w, w', instance);
    case _ =>
  }

  /** The events of a lookup that change nothing but where it is. */
  predicate Looks(e: Event) {
    e.Observe? || e.Miss? || e.Condemn? || e.Unlock? || e.Accept?
  }

  lemma LookStepKeepsInv(w: World, e: Event, w': World)
    requires Inv(w) && LookupStep(w, e, w') && Looks(e)
    ensures Inv(w')
  {
    LookupKeeps(w, w', e.a, if e.Accept? then e.expected else None);
  }

  lemma LookupStepKeepsInv(w: World, e: Event, w': World)
    requires Inv(w) && LookupStep(w, e, w')
    ensures Inv(w')
  {
    hide Inv, AcquireStep, RejectStep, ReleaseStep;
    if Looks(e) {
      LookStepKeepsInv(w, e, w');
    } else {
      match e
      case Acquire(a) => AcquireKeeps(w, w', a);
      case Reject(a, expected) => RejectKeeps(w, w', a, expected);
      case Release(l) => ReleaseKeeps(w, w', l);
      case _ =>
    }
  }

  predicate RemovesObject(e: Event) {
    e.DropRef? || e.DropOrphan? || e.Erosion? || e.RemoveObject? || e.SpareObject? || e.FailRemoval?
  }

  lemma ObjectStepKeepsInv(w: World, e: Event, w': World)
    requires Inv(w) && RemovalStep(w, e, w') && RemovesObject(e)
    ensures Inv(w')
  {
    hide Inv, DropRefStep, DropOrphanStep, ErodeStep, RemoveObjectStep, SpareObjectStep, FailRemovalStep;
    match e
    case DropRef(a, t, p) => DropRefKeeps(w, w', a, t, p);
    case DropOrphan(a, t, o) => DropOrphanKeeps(w, w', a, t, o);
    case Erosion(a, t, o, after, dir) => ErodeKeeps(w, w', a, t, o, after, dir);
    case RemoveObject(a, t, o, after) => RemoveObjectKeeps(w, w', a, t, o, after);
    case SpareObject(a, t, o, after) => SkippedRemovalKeeps(w, w', a, t, o, after);
    case FailRemoval(a, t, o, after) => SkippedRemovalKeeps(w, w', a, t, o, after);
    case _ =>
  }

  lemma SweepStepKeepsInv(w: World, e: Event, w': World)
    requires Inv(w) && RemovalStep(w, e, w') && !RemovesObject(e)
    ensures Inv(w')
  {
    hide Inv, ReapTempStep, RemoveTempStep, MismatchStep, RefreshStep, WithdrawStep;
    match e
    case ReapTemp(a, g) => ReapTempKeeps(w, w', a, g);
    case RemoveTemp(a, g) => RemoveTempKeeps(w, w', a, g);
    case Mismatch(a, t) => ConditionalKeeps(w, w', a, t);
    case Refresh(a, t) => RefreshKeeps(w, w', a, t);
    case Withdraw(a, t) => ConditionalKeeps(w, w', a, t);
    case _ =>
  }

  lemma RemovalStepKeepsInv(w: World, e: Event, w': World)
    requires Inv(w) && RemovalStep(w, e, w')
    ensures Inv(w')
  {
    if RemovesObject(e) {
      ObjectStepKeepsInv(w, e, w');
    } else {
      SweepStepKeepsInv(w, e, w');
    }
  }

  /** From the rename on, until the commit knows its outcome. */
  predicate Installs(e: Event) {
    e.Rename? || e.Publish? || e.UndoRename? || e.UndoPublish? || e.FailUndo?
  }

  lemma InstallStepKeepsInv(w: World, e: Event, w': World)
    requires Inv(w) && CommitStep(w, e, w') && Installs(e)
    ensures Inv(w')
  {
    hide Inv, RenameStep, PublishStep, UndoRenameStep, UndoPublishStep, FailUndoStep;
    match e
    case Rename(a, j, prior, retained) => RenameKeeps(w, w', a, j, prior, retained);
    case Publish(a, j, prior, retained) => PublishKeeps(w, w', a, j, prior, retained);
    case UndoRename(a, j, prior, retained) => UndoRenameKeeps(w, w', a, j, prior, retained);
    case UndoPublish(a, j, prior, retained) => UndoPublishKeeps(w, w', a, j, prior, retained);
    case FailUndo(a, j, prior, retained) => FailUndoKeeps(w, w', a, j, prior, retained);
    case _ =>
  }

  lemma EndStepKeepsInv(w: World, e: Event, w': World)
    requires Inv(w) && CommitStep(w, e, w') && !Installs(e)
    ensures Inv(w')
  {
    hide Inv, AdmitStep, KeepStep, ReturnStep, RefuseStep, LeaveStep;
    match e
    case Admit(a, j, limits) => AdmitKeeps(w, w', a, j, limits);
    case Keep(a, j, prior, retained) => KeepKeeps(w, w', a, j, prior, retained);
    case Return(a, j) => ReturnKeeps(w, w', a, j);
    case Refuse(a, j) => ReturnKeeps(w, w', a, j);
    case Leave(a) => LeaveKeeps(w, w', a);
    case _ =>
  }

  lemma CommitStepKeepsInv(w: World, e: Event, w': World)
    requires Inv(w) && CommitStep(w, e, w')
    ensures Inv(w')
  {
    if Installs(e) {
      InstallStepKeepsInv(w, e, w');
    } else {
      EndStepKeepsInv(w, e, w');
    }
  }

  /** Every event, by anyone, keeps the invariant. */
  lemma StepKeepsInv(w: World, e: Event, w': World)
    requires Inv(w) && Step(w, e, w')
    ensures Inv(w')
  {
    hide Inv, CallStep, LockStep, LookupStep, RemovalStep, CommitStep;
    if CallStep(w, e, w') {
      CallStepKeepsInv(w, e, w');
    } else if LockStep(w, e, w') {
      LockStepKeepsInv(w, e, w');
    } else if LookupStep(w, e, w') {
      LookupStepKeepsInv(w, e, w');
    } else if RemovalStep(w, e, w') {
      RemovalStepKeepsInv(w, e, w');
    } else {
      CommitStepKeepsInv(w, e, w');
    }
  }
}
