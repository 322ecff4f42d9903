/** Whose call an event belongs to, and how the calls move: one at a time, and each in its own way. */
module DiskMoves {
  import opened Wrappers
  import opened Schemas
  import opened CacheKeys
  import opened CacheControls
  import opened DiskModel
  import opened DiskProtocol

  /** Whose call an event belongs to. */
  function Mover(e: Event): Option<nat> {
    if e.Release? || e.Crash? then None else Some(e.a)
  }

  ghost predicate Stays(w: World, w': World, a: nat) {
    At(w, a) && At(w', a) && w'.actors[a] == w.actors[a]
  }

  /** Only one call moves, and neither before nor after does it hold the root lock exclusively. */
  ghost predicate MovesOutside(w: World, w': World, a: nat) {
    && OnlyMoved(w, w', a)
    && (At(w, a) ==> !PcOf(w, a).Exclusive?)
    && (At(w', a) ==> !PcOf(w', a).Exclusive?)
  }

  // Calls begin, capture and give up, outside any critical section.

  lemma BeginMoves(w: World, w': World, a: nat, instance: nat, g: nat, schema: Schema, n: nat, codec: Codec)
    requires BeginStep(w, w', a, instance, g, schema, n, codec)
    ensures MovesOutside(w, w', a)
  {
  }

  lemma PushMovesOutside(w: World, w': World, a: nat, i: nat, batch: Batch)
    requires PushStep(w, w', a, i, batch)
    ensures MovesOutside(w, w', a)
  {
  }

  lemma FinishMovesOutside(w: World, w': World, a: nat, key: CacheKey, lens: seq<nat>, createdMs: nat, expiresMs: nat,
                           control: CacheControl)
    requires FinishStep(w, w', a, key, lens, createdMs, expiresMs, control)
    ensures MovesOutside(w, w', a)
  {
  }

  lemma AbandonMovesOutside(w: World, w': World, a: nat)
    requires AbandonStep(w, w', a)
    ensures MovesOutside(w, w', a)
  {
  }

  lemma StartMoves(w: World, w': World, a: nat, instance: nat, t: Task)
    requires StartStep(w, w', a, instance, t)
    ensures MovesOutside(w, w', a)
  {
  }

  lemma StartOnHitMoves(w: World, w': World, a: nat, instance: nat, l: nat, t: Task)
    requires StartOnHitStep(w, w', a, instance, l, t)
    ensures MovesOutside(w, w', a)
  {
  }

  lemma CallMoves(w: World, e: Event, w': World)
    requires CallStep(w, e, w')
    ensures Mover(e).Some? && MovesOutside(w, w', Mover(e).value)
  {
    hide MovesOutside, BeginStep, PushStep, FinishStep, AbandonStep, StartStep, StartOnHitStep;
    match e
    case Begin(a, instance, g, schema, n, codec) => BeginMoves(w, w', a, instance, g, schema, n, codec);
    case Push(a, i, batch) => PushMovesOutside(w, w', a, i, batch);
    case Finish(a, key, lens, created, expires, control) =>
      FinishMovesOutside(w, w', a, key, lens, created, expires, control);
    case Abandon(a) => AbandonMovesOutside(w, w', a);
    case Start(a, instance, t) => StartMoves(w, w', a, instance, t);
    case StartOnHit(a, instance, l, t) => StartOnHitMoves(w, w', a, instance, l, t);
    case _ =>
  }

  /** Taking a lock moves one call; the exclusive lock leads to the start of the task. */
  lemma LockMoves(w: World, e: Event, w': World)
    requires LockStep(w, e, w') && !e.Crash?
    ensures Mover(e).Some? && OnlyMoved(w, w', Mover(e).value) && At(w, Mover(e).value) && At(w', Mover(e).value)
    ensures !PcOf(w, Mover(e).value).Exclusive?
    ensures PcOf(w', Mover(e).value).Exclusive? ==> PcOf(w', Mover(e).value).phase.Sweeping?
  {
  }

  lemma CrashMoves(w: World, w': World, instance: nat, b: nat)
    requires CrashStep(w, w', instance)
    ensures At(w', b) <==> At(w, b) && w.actors[b].instance != instance
    ensures At(w', b) ==> w'.actors[b] == w.actors[b]
  {
  }

  lemma LookupMoves(w: World, e: Event, w': World)
    requires LookupStep(w, e, w')
    ensures e.Release? ==> w'.actors == w.actors
    ensures !e.Release? ==> Mover(e).Some? && At(w, Mover(e).value) && MovesOutside(w, w', Mover(e).value)
  {
    match e
    case Observe(a) => ObserveMoves(w, w', a);
    case Miss(a) => MissMoves(w, w', a);
    case Condemn(a) => CondemnMoves(w, w', a);
    case Acquire(a) => AcquireMoves(w, w', a);
    case Unlock(a) => UnlockMoves(w, w', a);
    case Accept(a, expected) => AcceptMoves(w, w', a, expected);
    case Reject(a, expected) => RejectMovesOutside(w, w', a, expected);
    case _ =>
  }

  lemma ObserveMoves(w: World, w': World, a: nat)
    requires ObserveStep(w, w', a)
    ensures At(w, a) && MovesOutside(w, w', a)
  {
  }

  lemma MissMoves(w: World, w': World, a: nat)
    requires MissStep(w, w', a)
    ensures At(w, a) && MovesOutside(w, w', a)
  {
  }

  lemma CondemnMoves(w: World, w': World, a: nat)
    requires CondemnStep(w, w', a)
    ensures At(w, a) && MovesOutside(w, w', a)
  {
  }

  lemma AcquireMoves(w: World, w': World, a: nat)
    requires AcquireStep(w, w', a)
    ensures At(w, a) && MovesOutside(w, w', a)
  {
  }

  lemma UnlockMoves(w: World, w': World, a: nat)
    requires UnlockStep(w, w', a)
    ensures At(w, a) && MovesOutside(w, w', a)
  {
  }

  lemma AcceptMoves(w: World, w': World, a: nat, expected: Option<Schema>)
    requires AcceptStep(w, w', a, expected)
    ensures At(w, a) && MovesOutside(w, w', a)
  {
  }

  lemma RejectMovesOutside(w: World, w': World, a: nat, expected: Option<Schema>)
    requires RejectStep(w, w', a, expected)
    ensures At(w, a) && MovesOutside(w, w', a)
  {
  }

  // Inside critical sections.

  /** How a removal event moves the call that takes it. */
  predicate RemovalTurn(pc: Pc, pc': Pc) {
    && pc.Exclusive? && pc'.Exclusive?
    && (pc'.task == pc.task || (pc.task.RefreshTask? && pc'.task.IfCurrentTask?))
    && (|| pc' == pc
        || (pc.phase.Removing? && pc'.phase == pc.phase.after)
        || (pc.phase.Sweeping? && pc'.phase.Removing? && (pc'.phase.after.Sweeping? || pc'.phase.after == Done(false)))
        || (pc.phase.Sweeping? && !pc.task.CommitTask? && (pc'.phase == Done(false) || pc'.phase.Refreshed?))
        || (pc.phase.Refreshed? && pc'.phase.Sweeping? && !pc.task.CommitTask?))
  }

  lemma RemovalMoves(w: World, e: Event, w': World)
    requires RemovalStep(w, e, w')
    ensures Mover(e).Some? && OnlyMoved(w, w', Mover(e).value) && At(w, Mover(e).value) && At(w', Mover(e).value)
    ensures RemovalTurn(PcOf(w, Mover(e).value), PcOf(w', Mover(e).value))
  {
  }

  lemma CommitMoves(w: World, e: Event, w': World)
    requires CommitStep(w, e, w')
    ensures Mover(e).Some? && OnlyMoved(w, w', Mover(e).value) && At(w, Mover(e).value)
    ensures PcOf(w, Mover(e).value).Exclusive?
  {
  }

  // ------------------------------------------------------------ everyone else stays

  /** An event of one call never moves another, unless it is the crash of its process. */
  lemma OthersStayAlive(w: World, e: Event, w': World, a: nat)
    requires Step(w, e, w') && At(w, a) && Mover(e) != Some(a) && (e.Crash? ==> e.instance != w.actors[a].instance)
    ensures Stays(w, w', a)
  {
    if CallStep(w, e, w') {
      CallMoves(w, e, w');
    } else if LockStep(w, e, w') {
      if e.Crash? {
        CrashMoves(w, w', e.instance, a);
      } else {
        LockMoves(w, e, w');
      }
    } else if LookupStep(w, e, w') {
      LookupMoves(w, e, w');
    } else if RemovalStep(w, e, w') {
      RemovalMoves(w, e, w');
    } else {
      CommitMoves(w, e, w');
    }
  }

  lemma SurvivesCrash(w: World, e: Event, w': World, a: nat)
    requires Step(w, e, w') && e.Crash? && At(w, a) && At(w', a)
    ensures e.instance != w.actors[a].instance
  {
  }

  /** An event of one call never moves another that survives it. */
  lemma OthersStay(w: World, e: Event, w': World, a: nat)
    requires Step(w, e, w') && At(w, a) && At(w', a) && Mover(e) != Some(a)
    ensures Stays(w, w', a)
  {
    if e.Crash? {
      SurvivesCrash(w, e, w', a);
    }
    OthersStayAlive(w, e, w', a);
  }

  lemma CrashIsStep(w: World, w': World, instance: nat)
    ensures Step(w, Crash(instance), w') <==> CrashStep(w, w', instance)
  {
  }

  /** A crash may come at any moment, ends exactly the calls and the leases of its instance, and touches no file. */
  lemma CrashEndsAll(w: World, instance: nat) returns (w': World)
    ensures Step(w, Crash(instance), w') && forall v | Step(w, Crash(instance), v) :: v == w'
    ensures w'.fs == w.fs && w'.temps == w.temps && w'.log == w.log
    ensures forall a :: a in w'.actors <==> a in w.actors && w.actors[a].instance != instance
    ensures forall l :: l in w'.leases <==> l in w.leases && w.leases[l].instance != instance
    ensures (forall a | a in w'.actors :: w'.actors[a] == w.actors[a])
            && (forall l | l in w'.leases :: w'.leases[l] == w.leases[l])
  {
    hide Step;
    w' := w.(actors := map a | a in w.actors && w.actors[a].instance != instance :: w.actors[a],
             leases := map l | l in w.leases && w.leases[l].instance != instance :: w.leases[l]);
    CrashIsStep(w, w', instance);
    forall v | Step(w, Crash(instance), v)
      ensures v == w'
    {
      CrashIsStep(w, v, instance);
    }
  }

  /** A call that has decided can leave its critical section, with the files as they are. */
  lemma DecidedCanLeave(w: World, a: nat, stored: bool) returns (e: Event, w': World)
    requires InSection(w, a) && PcOf(w, a).phase == Done(stored)
    requires stored && PcOf(w, a).task.CommitTask? ==> w.log != []
    ensures Step(w, e, w') && Mover(e) == Some(a) && !At(w', a) && w'.fs == w.fs && w'.leases == w.leases
  {
    hide LockStep, LookupStep, RemovalStep, CallStep;
    if stored && PcOf(w, a).task.CommitTask? {
      e := Return(a, PcOf(w, a).task.job);
      w' := Gone(w, a).(log := w.log[|w.log| - 1 := w.log[|w.log| - 1].(returned := true)]);
    } else {
      e, w' := Leave(a), Gone(w, a);
    }
    assert CommitStep(w, e, w');
  }
}
