/**
 * The methods of one instance, called at a point of a run of the protocol: given a call that has the
 * lock on the disk the instance sees, under the leases it respects, the run goes on, by events of that
 * call alone, to a world with the disk the method leaves.  What holds of all runs holds there.
 */
module DiskRefinement {
  import opened Wrappers
  import opened Schemas
  import opened Sums
  import opened CacheKeys
  import opened CacheControls
  import opened DiskModel
  import opened DiskProtocol
  import opened DiskRuns
  import opened DiskRoom
  import opened DiskTraces
  import opened DiskPublication
  import opened DiskCaptures
  import opened DiskCaches
  import opened DiskPaths
  import opened DiskSimulation

  /** At the end of the run, call `a` has the lock for task `t`, on this disk and under these leases. */
  ghost predicate RunAt(ws: seq<World>, es: seq<Event>, a: nat, t: Task, fs: Fs, leased: set<ObjPath>) {
    Run(ws, es) && InPhase(ws[|es|], a, t, Sweeping) && ws[|es|].fs == fs && LeasedObjects(ws[|es|]) == leased
  }

  /** One run goes on as the other, to a world with this disk and the same leases, and the call here. */
  ghost predicate GoesOn(ws: seq<World>, es: seq<Event>, us: seq<World>, gs: seq<Event>, a: nat, pc: Pc, fs: Fs) {
    && Run(ws, es) && Run(us, gs) && ws <= us && es <= gs
    && us[|gs|].fs == fs && us[|gs|].leases == ws[|es|].leases
    && At(us[|gs|], a) && PcOf(us[|gs|], a) == pc
  }

  lemma RunSweeping(ws: seq<World>, es: seq<Event>, a: nat, t: Task, fs: Fs, leased: set<ObjPath>)
    requires RunAt(ws, es, a, t, fs, leased)
    ensures SweepingOn(ws[|es|], a, t, fs, leased) && Sound(fs, leased)
  {
    RunKeeps(ws, es, |es|);
  }

  lemma RunGoesOn(ws: seq<World>, es: seq<Event>, a: nat, w: World) returns (us: seq<World>, gs: seq<Event>)
    requires Run(ws, es) && Leads(ws[|es|], a, w) && w.leases == ws[|es|].leases && At(w, a)
    ensures GoesOn(ws, es, us, gs, a, PcOf(w, a), w.fs) && us[|gs|] == w
  {
    us, gs := RunLeads(ws, es, a, w);
  }

  // ------------------------------------------------------------------ removals

  /** A flush, a sweep of the expired, an eviction: any series of removals. */
  lemma SweepGoesOn(ws: seq<World>, es: seq<Event>, a: nat, t: Task, fs: Fs, fs': Fs, locks: Locks)
    returns (us: seq<World>, gs: seq<Event>)
    requires RunAt(ws, es, a, t, fs, locks.All()) && Sweeper(t) && Sweeps(fs, fs', locks)
    ensures GoesOn(ws, es, us, gs, a, Exclusive(t, Sweeping), fs') && us[|gs|] == ws[|es|].(fs := fs')
  {
    RunSweeping(ws, es, a, t, fs, locks.All());
    SweepsSimulated(fs, fs', locks);
    us, gs := RunGoesOn(ws, es, a, ws[|es|].(fs := fs'));
  }

  lemma IfCurrentGoesOn(ws: seq<World>, es: seq<Event>, a: nat, fs: Fs, locks: Locks, p: RefPath, seen: Record)
    returns (us: seq<World>, gs: seq<Event>)
    requires RunAt(ws, es, a, IfCurrentTask(p, seen), fs, locks.All())
    ensures GoesOn(ws, es, us, gs, a, Exclusive(IfCurrentTask(p, seen), Done(false)),
                   IfCurrentDropped(fs, locks, p, seen))
  {
    RunSweeping(ws, es, a, IfCurrentTask(p, seen), fs, locks.All());
    IfCurrentSimulated(fs, locks, p, seen);
    us, gs := RunGoesOn(ws, es, a, Goto(ws[|es|], a, Exclusive(IfCurrentTask(p, seen), Done(false))).(
                                     fs := IfCurrentDropped(fs, locks, p, seen)));
  }

  method RemoveIfCurrentInRun(cache: DiskCache, p: RefPath, expected: Record, foreign: set<ObjPath>,
                              ghost ws: seq<World>, ghost es: seq<Event>, ghost a: nat)
    returns (removed: bool, ghost us: seq<World>, ghost gs: seq<Event>)
    requires RunAt(ws, es, a, IfCurrentTask(p, expected), cache.fs, cache.LocksNow(foreign).All())
    modifies cache`fs, cache`access
    ensures GoesOn(ws, es, us, gs, a, Exclusive(IfCurrentTask(p, expected), Done(false)), cache.fs)
  {
    hide *;
    us, gs := IfCurrentGoesOn(ws, es, a, cache.fs, cache.LocksNow(foreign), p, expected);
    removed := cache.RemoveRecordIfCurrent(p, expected, foreign);
  }

  method FlushInRun(cache: DiskCache, foreign: set<ObjPath>, ghost ws: seq<World>, ghost es: seq<Event>, ghost a: nat)
    returns (removed: nat, ghost us: seq<World>, ghost gs: seq<Event>)
    requires RunAt(ws, es, a, SweepTask, cache.fs, cache.LocksNow(foreign).All())
    modifies cache`fs, cache`access
    ensures cache.fs.refs == map[] && GoesOn(ws, es, us, gs, a, Exclusive(SweepTask, Sweeping), cache.fs)
  {
    hide *;
    RunSweeping(ws, es, a, SweepTask, cache.fs, cache.LocksNow(foreign).All());
    ghost var fs := cache.fs;
    removed := cache.FlushAll(foreign);
    IsSweeper();
    us, gs := SweepGoesOn(ws, es, a, SweepTask, fs, cache.fs, cache.LocksNow(foreign));
  }

  lemma IsSweeper()
    ensures Sweeper(SweepTask)
  {
  }

  // Reaping also removes capture directories.

  lemma TempsGoOn(ws: seq<World>, es: seq<Event>, a: nat, before: set<nat>, after: set<nat>, held: set<nat>)
    returns (us: seq<World>, gs: seq<Event>)
    requires Run(ws, es) && InPhase(ws[|es|], a, SweepTask, Sweeping) && ws[|es|].temps.Keys == before
    requires HeldCaptures(ws[|es|], held) && before - after !! held && after <= before
    ensures GoesOn(ws, es, us, gs, a, Exclusive(SweepTask, Sweeping), ws[|es|].fs) && us[|gs|].temps.Keys == after
  {
    var w := ws[|es|];
    TempsSimulated(before, after, held);
    us, gs := RunGoesOn(ws, es, a, w.(temps := w.temps - (before - after)));
    assert before - (before - after) == after;
  }

  lemma ReapGoesOn(ws: seq<World>, es: seq<Event>, a: nat, fs: Fs, fs': Fs, locks: Locks,
                   before: set<nat>, after: set<nat>, held: set<nat>)
    returns (us: seq<World>, gs: seq<Event>)
    requires RunAt(ws, es, a, SweepTask, fs, locks.All()) && Sweeps(fs, fs', locks)
    requires ws[|es|].temps.Keys == before && HeldCaptures(ws[|es|], held) && before - after !! held && after <= before
    ensures GoesOn(ws, es, us, gs, a, Exclusive(SweepTask, Sweeping), fs') && us[|gs|].temps.Keys == after
  {
    var vs, hs := SweepGoesOn(ws, es, a, SweepTask, fs, fs', locks);
    us, gs := TempsGoOn(vs, hs, a, before, after, held);
  }

  method ReapInRun(cache: DiskCache, now: nat, heldElsewhere: set<nat>, foreign: set<ObjPath>,
                   ghost ws: seq<World>, ghost es: seq<Event>, ghost a: nat)
    returns (ghost us: seq<World>, ghost gs: seq<Event>)
    requires RunAt(ws, es, a, SweepTask, cache.fs, cache.LocksNow(foreign).All())
    requires ws[|es|].temps.Keys == cache.temps.Keys
    requires HeldCaptures(ws[|es|], HeldTemps(cache.temps, cache.active, heldElsewhere))
    modifies cache`fs, cache`access, cache`temps
    ensures GoesOn(ws, es, us, gs, a, Exclusive(SweepTask, Sweeping), cache.fs)
    ensures us[|gs|].temps.Keys == cache.temps.Keys
  {
    hide *;
    ghost var fs, temps := cache.fs, cache.temps;
    RunSweeping(ws, es, a, SweepTask, fs, cache.LocksNow(foreign).All());
    cache.Reap(now, heldElsewhere, foreign);
    us, gs := ReapGoesOn(ws, es, a, fs, cache.fs, cache.LocksNow(foreign), temps.Keys, cache.temps.Keys,
                         HeldTemps(temps, cache.active, heldElsewhere));
  }

  // ------------------------------------------------------------------ revalidation

  lemma RevalidateGoesOn(ws: seq<World>, es: seq<Event>, a: nat, fs: Fs, locks: Locks, p: RefPath, seen: Record,
                         renewed: Record, last: bool)
    returns (us: seq<World>, gs: seq<Event>)
    requires RunAt(ws, es, a, RefreshTask(p, seen, renewed), fs, locks.All())
    ensures Run(us, gs) && Settled(us[|gs|], a)
    ensures GoesOn(ws, es, us, gs, a, PcOf(us[|gs|], a), Revalidated(fs, locks, p, seen, renewed, last))
  {
    RunSweeping(ws, es, a, RefreshTask(p, seen, renewed), fs, locks.All());
    RevalidateSimulated(fs, locks, p, seen, renewed, last);
    var w' :| && Leads(ws[|es|], a, w') && w'.fs == Revalidated(fs, locks, p, seen, renewed, last)
              && w'.leases == ws[|es|].leases && Settled(w', a);
    us, gs := RunGoesOn(ws, es, a, w');
  }

  method RevalidateInRun(cache: DiskCache, hit: Hit, control: CacheControl, d: Deadline, expiredBefore: bool,
                         expiredAfter: bool, now: nat, foreign: set<ObjPath>,
                         ghost ws: seq<World>, ghost es: seq<Event>, ghost a: nat)
    returns (done: bool, ghost us: seq<World>, ghost gs: seq<Event>)
    requires MayRenew(hit.record, control, d, expiredBefore)
    requires RunAt(ws, es, a, RefreshTask(RefPath(hit.record.identityDigest, hit.record.keyDigest), hit.record,
                                          Renewed(hit.record, control, d, now)),
                   cache.fs, cache.LocksNow(foreign).All())
    modifies cache`fs, cache`access
    ensures Run(us, gs) && Settled(us[|gs|], a)
    ensures GoesOn(ws, es, us, gs, a, PcOf(us[|gs|], a), cache.fs)
  {
    hide *;
    ghost var fs := cache.fs;
    done := cache.RevalidateFreshness(hit, control, d, expiredBefore, expiredAfter, now, foreign);
    us, gs := RevalidateGoesOn(ws, es, a, fs, cache.LocksNow(foreign),
                               RefPath(hit.record.identityDigest, hit.record.keyDigest), hit.record,
                               Renewed(hit.record, control, d, now), done);
  }

  // ------------------------------------------------------------------ lookups

  lemma LookGoesOn(ws: seq<World>, es: seq<Event>, a: nat, key: CacheKey, expected: Option<Schema>, allowStale: bool,
                   now: nat)
    returns (us: seq<World>, gs: seq<Event>)
    requires Run(ws, es) && At(ws[|es|], a) && PcOf(ws[|es|], a) == Looking(key)
    requires Servable(ws[|es|].fs, PathOf(key), expected, allowStale, now)
    ensures Run(us, gs) && ws <= us && es <= gs
    ensures Served(ws[|es|], us[|gs|], a, key, RefAt(ws[|es|].fs, PathOf(key)).value)
  {
    RunKeeps(ws, es, |es|);
    LookSimulated(ws[|es|].fs, key, expected, allowStale, now);
    var w' :| Leads(ws[|es|], a, w') && Served(ws[|es|], w', a, key, RefAt(ws[|es|].fs, PathOf(key)).value);
    us, gs := RunLeads(ws, es, a, w');
  }

  /** Whenever the call gets the exclusive lock, on the disk `later`, that run goes on to the disk `fs`. */
  ghost predicate CleansUp(a: nat, p: RefPath, r: Record, later: Fs, leased: set<ObjPath>, fs: Fs) {
    forall vs, hs | RunAt(vs, hs, a, IfCurrentTask(p, r), later, leased) ::
      exists us, gs :: GoesOn(vs, hs, us, gs, a, Exclusive(IfCurrentTask(p, r), Done(false)), fs)
  }

  lemma CleanUpGoesOn(a: nat, p: RefPath, r: Record, later: Fs, locks: Locks)
    ensures CleansUp(a, p, r, later, locks.All(), IfCurrentDropped(later, locks, p, r))
  {
    hide RunAt, GoesOn, IfCurrentDropped;
    forall vs, hs | RunAt(vs, hs, a, IfCurrentTask(p, r), later, locks.All())
      ensures exists us, gs :: GoesOn(vs, hs, us, gs, a, Exclusive(IfCurrentTask(p, r), Done(false)),
                                      IfCurrentDropped(later, locks, p, r))
    {
      var us, gs := IfCurrentGoesOn(vs, hs, a, later, locks, p, r);
    }
  }

  /** In a run every ref is whole, so that only its age, its validator and the schema decide. */
  lemma RefInRun(w: World, p: RefPath)
    requires Inv(w) && p in w.fs.refs
    ensures w.nextLease !in w.leases && RefAt(w.fs, p).Some?
    ensures var r := RefAt(w.fs, p).value;
            HeaderOk(p, r) && ObjOf(r) in w.fs.objects && w.fs.objects[ObjOf(r)].lease
  {
    assert RefOk(p, w.fs.refs[p], w.fs.objects);
  }

  /** lookup_inner that misses, as events. */
  lemma MissGoesOn(ws: seq<World>, es: seq<Event>, a: nat, key: CacheKey, expected: Option<Schema>, allowStale: bool,
                   now: nat)
    returns (us: seq<World>, gs: seq<Event>)
    requires Run(ws, es) && At(ws[|es|], a) && PcOf(ws[|es|], a) == Looking(key)
    requires !Servable(ws[|es|].fs, PathOf(key), expected, allowStale, now)
    ensures Run(us, gs) && ws <= us && es <= gs
    ensures us[|gs|].fs == ws[|es|].fs && us[|gs|].leases == ws[|es|].leases
    ensures if QuietMiss(ws[|es|].fs, PathOf(key), allowStale, now) then !At(us[|gs|], a) else
              && RefAt(ws[|es|].fs, PathOf(key)).Some?
              && Seeks(us[|gs|], a, PathOf(key), RefAt(ws[|es|].fs, PathOf(key)).value)
  {
    hide Leads, ValidHit, Inv, Seeks;
    RunKeeps(ws, es, |es|);
    var w, p := ws[|es|], PathOf(key);
    var w';
    if QuietMiss(w.fs, p, allowStale, now) {
      w' := MissedLeads(w, a, key);
    } else {
      RefInRun(w, p);
      var r := RefAt(w.fs, p).value;
      if Usable(r, allowStale, now) {
        w' := RejectedLeads(w, a, key, r, expected);
      } else {
        w' := CondemnedLeads(w, a, key, r);
      }
    }
    us, gs := RunLeads(ws, es, a, w');
  }

  /**
   * A hit is a lease that the run goes on to take, on the record the hit carries.  A miss leaves the
   * disk and the leases alone: the call is over, or it seeks the exclusive lock to remove the record it
   * observed, and then the disk it leaves is the one that the run in which it got the lock goes on to.
   */
  method LookupInRun(cache: DiskCache, key: CacheKey, expected: Option<Schema>, allowStale: bool, now: nat, later: Fs,
                     foreign: set<ObjPath>, ghost ws: seq<World>, ghost es: seq<Event>, ghost a: nat)
    returns (hit: Option<Hit>, ghost us: seq<World>, ghost gs: seq<Event>)
    requires cache.Valid()
    requires Run(ws, es) && At(ws[|es|], a) && PcOf(ws[|es|], a) == Looking(key) && ws[|es|].fs == cache.fs
    modifies cache
    ensures Run(us, gs) && ws <= us && es <= gs && us[|gs|].fs == old(cache.fs)
    ensures hit.Some? ==> cache.fs == old(cache.fs) && Served(ws[|es|], us[|gs|], a, key, hit.value.record)
    ensures hit.None? ==> us[|gs|].leases == ws[|es|].leases
    ensures hit.None? && QuietMiss(old(cache.fs), PathOf(key), allowStale, now) ==>
              !At(us[|gs|], a) && cache.fs == old(cache.fs)
    ensures hit.None? && !QuietMiss(old(cache.fs), PathOf(key), allowStale, now) ==>
              && RefAt(old(cache.fs), PathOf(key)).Some?
              && var r := RefAt(old(cache.fs), PathOf(key)).value;
              && Seeks(us[|gs|], a, PathOf(key), r)
              && CleansUp(a, PathOf(key), r, later, cache.LocksNow(foreign).All(), cache.fs)
  {
    hide QuietMiss, Seeks, CleansUp, Served, Servable, IfCurrentDropped;
    ghost var fs, p := cache.fs, PathOf(key);
    hit := cache.Lookup(key, expected, allowStale, now, later, foreign);
    if hit.Some? {
      us, gs := LookGoesOn(ws, es, a, key, expected, allowStale, now);
      ServedDisk(ws[|es|], us[|gs|], a, key, hit.value.record);
    } else {
      us, gs := MissGoesOn(ws, es, a, key, expected, allowStale, now);
      if !QuietMiss(fs, p, allowStale, now) {
        CleanUpGoesOn(a, p, RefAt(fs, p).value, later, cache.LocksNow(foreign));
      }
    }
  }

  lemma ServedDisk(w: World, w': World, a: nat, key: CacheKey, r: Record)
    requires Served(w, w', a, key, r)
    ensures w'.fs == w.fs
  {
  }

  // ------------------------------------------------------------------ commits

  /** A capture in progress has a name of its own. */
  lemma CaptureIsFresh(ws: seq<World>, es: seq<Event>, a: nat, j: Job, fs: Fs, locks: Locks)
    requires RunAt(ws, es, a, CommitTask(j), fs, locks.All())
    ensures FreshName(fs, locks, j.record.generation) && Sound(fs, locks.All())
  {
    RunKeeps(ws, es, |es|);
    NameIsFresh(ws[|es|], a, j, locks);
  }

  lemma NameIsFresh(w: World, a: nat, j: Job, locks: Locks)
    requires Inv(w) && InPhase(w, a, CommitTask(j), Sweeping) && LeasedObjects(w) == locks.All()
    ensures FreshName(w.fs, locks, j.record.generation)
  {
    InvAt(w, a);
    forall p | p in w.fs.refs
      ensures w.fs.refs[p].Parsed? && ObjOf(w.fs.refs[p].record) in w.fs.objects
    {
      assert RefOk(p, w.fs.refs[p], w.fs.objects);
    }
  }

  /** Where a commit stands when it has decided: about to return, or refused before its publication. */
  function Decided(outcome: Outcome): Phase {
    if outcome.Stored? || outcome == Failed then Done(outcome.Stored?) else Sweeping
  }

  lemma PublishedGoesOn(ws: seq<World>, es: seq<Event>, a: nat, fs0: Fs, fs: Fs, leased: set<ObjPath>, j: Job,
                        stored: bool)
    returns (us: seq<World>, gs: seq<Event>)
    requires RunAt(ws, es, a, CommitTask(j), fs0, leased) && CommitRuns(fs0, fs, leased, j, stored)
    ensures GoesOn(ws, es, us, gs, a, Exclusive(CommitTask(j), Done(stored)), fs)
  {
    RunSweeping(ws, es, a, CommitTask(j), fs0, leased);
    var w := ws[|es|];
    var w' :| Leads(w, a, w') && InPhase(w', a, CommitTask(j), Done(stored)) && w'.fs == fs && w'.leases == w.leases;
    us, gs := RunGoesOn(ws, es, a, w');
  }

  lemma CommitGoesOn(ws: seq<World>, es: seq<Event>, a: nat, fs0: Fs, admitted: Fs, fs: Fs, locks: Locks, j: Job,
                     bytes: nat, outcome: Outcome, limits: Limits)
    returns (us: seq<World>, gs: seq<Event>)
    requires RunAt(ws, es, a, CommitTask(j), fs0, locks.All()) && Sound(fs0, locks.All())
    requires CommitGuarantee(fs0, admitted, fs, locks, Some(j), bytes, outcome, limits)
    ensures GoesOn(ws, es, us, gs, a, Exclusive(CommitTask(j), Decided(outcome)), fs)
  {
    if outcome.Stored? || outcome == Failed {
      CommitSimulated(fs0, admitted, fs, locks, j, outcome, limits);
      us, gs := PublishedGoesOn(ws, es, a, fs0, fs, locks.All(), j, outcome.Stored?);
    } else {
      us, gs := SweepGoesOn(ws, es, a, CommitTask(j), fs0, fs, locks);
    }
  }

  /**
   * A commit called by whoever has the lock in some run: whatever its outcome, the run goes on to a
   * world with the disk it leaves.
   */
  method CommitInRun(cache: DiskCache, key: CacheKey, capture: DiskCapture, lens: seq<nat>, d: Deadline,
                     control: CacheControl, createdMs: nat, now: nat, fault: Option<Fault>, foreign: set<ObjPath>,
                     ghost ws: seq<World>, ghost es: seq<Event>, ghost a: nat)
    returns (outcome: Outcome, ghost us: seq<World>, ghost gs: seq<Event>)
    requires capture.Valid() && |lens| == |capture.content.parts| && forall i | 0 <= i < |lens| :: lens[i] > 0
    requires RunAt(ws, es, a, CommitTask(JobOf(key, capture.generation, capture.content, capture.codec, lens, createdMs,
                                               d, control)),
                   cache.fs, cache.LocksNow(foreign).All())
    modifies cache`fs, cache`access, cache`temps, cache`active
    ensures GoesOn(ws, es, us, gs, a,
                   Exclusive(CommitTask(JobOf(key, capture.generation, capture.content, capture.codec, lens, createdMs,
                                              d, control)), Decided(outcome)), cache.fs)
  {
    hide *;
    capture.HasPartitions();
    JobOfOk(key, capture.generation, capture.content, capture.codec, lens, createdMs, d, control);
    ghost var j := JobOf(key, capture.generation, capture.content, capture.codec, lens, createdMs, d, control);
    ghost var fs, locks := cache.fs, cache.LocksNow(foreign);
    CaptureIsFresh(ws, es, a, j, fs, locks);
    ghost var admitted, job;
    outcome, admitted, job := cache.Commit(key, capture, lens, d, Some(control), createdMs, now, fault, foreign);
    us, gs := CommitGoesOn(ws, es, a, fs, admitted, cache.fs, locks, j, SumSeq(lens), outcome, cache.limits);
  }
}
