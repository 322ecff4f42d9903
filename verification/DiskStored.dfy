/**
 * Which publication a hit replays, told by what commits returned: one whose commit returned `Stored`,
 * unless that very commit was cut off after its publication.
 */
module DiskStored {
  import opened Wrappers
  import opened DiskModel
  import opened DiskProtocol
  import opened DiskMoves
  import opened DiskHistory
  import opened DiskRuns
  import opened DiskSections

  /** Published, not rolled back, and not yet returned. */
  predicate Finishing(pc: Pc) {
    && pc.Exclusive? && pc.task.CommitTask?
    && (pc.phase.Published? || pc.phase == Done(true) || (pc.phase.Removing? && pc.phase.after == Done(true)))
  }

  ghost predicate SomeoneFinishing(w: World) {
    exists a :: a in w.actors && Finishing(PcOf(w, a))
  }

  /** The event ends the call without a return: its process dies, or its rollback fails. */
  predicate CutsCall(w: World, e: Event, a: nat)
    requires At(w, a)
  {
    (e.FailUndo? && e.a == a) || (e.Crash? && e.instance == w.actors[a].instance)
  }

  /** The event cuts off the commit whose publication is entry `n` of the log. */
  ghost predicate Cut(w: World, e: Event, n: nat) {
    |w.log| == n + 1 && exists a :: a in w.actors && Finishing(PcOf(w, a)) && CutsCall(w, e, a)
  }

  /** Entry `n` has returned, or its commit is still at work. */
  ghost predicate Live(w: World, n: nat)
    requires n < |w.log|
  {
    w.log[n].returned || (n == |w.log| - 1 && SomeoneFinishing(w))
  }

  // ------------------------------------------------ a commit that goes on, or is cut off

  lemma FinishingRemoval(w: World, e: Event, w': World, a: nat)
    requires RemovalStep(w, e, w') && Mover(e) == Some(a) && At(w, a) && Finishing(PcOf(w, a))
    ensures At(w', a) && Finishing(PcOf(w', a))
  {
    RemovalMoves(w, e, w');
  }

  lemma FinishingCommit(w: World, e: Event, w': World, a: nat)
    requires CommitStep(w, e, w') && Mover(e) == Some(a) && At(w, a) && Finishing(PcOf(w, a))
    requires !ChangesLog(e) && !e.FailUndo?
    ensures At(w', a) && Finishing(PcOf(w', a))
  {
  }

  lemma FinishingGoesOn(w: World, e: Event, w': World, a: nat)
    requires Step(w, e, w') && At(w, a) && Finishing(PcOf(w, a)) && !ChangesLog(e) && !CutsCall(w, e, a)
    ensures At(w', a) && Finishing(PcOf(w', a))
  {
    if Mover(e) == Some(a) {
      SectionEvents(w, e, w', a);
      if RemovalStep(w, e, w') {
        FinishingRemoval(w, e, w', a);
      } else {
        FinishingCommit(w, e, w', a);
      }
    } else {
      OthersStayAlive(w, e, w', a);
    }
  }

  /** Whoever is in a critical section and not finishing keeps everyone else from finishing. */
  lemma NoneFinishing(w: World, a: nat)
    requires Exclusion(w) && At(w, a) && HasRoot(PcOf(w, a)) && !Finishing(PcOf(w, a))
    ensures !SomeoneFinishing(w)
  {
    forall b | b in w.actors
      ensures !Finishing(PcOf(w, b))
    {
      if b != a {
        assert Compatible(w.actors[b], w.actors[a]);
      }
    }
  }

  /** At most one call is finishing. */
  lemma OneFinishing(w: World, a: nat, b: nat)
    requires Exclusion(w) && At(w, a) && At(w, b) && Finishing(PcOf(w, a)) && Finishing(PcOf(w, b))
    ensures a == b
  {
    if a != b {
      Alone(w, a, b);
    }
  }

  /** Events that leave the log alone: a live entry stays live unless cut off. */
  lemma QuietLives(w: World, e: Event, w': World, n: nat)
    requires Step(w, e, w') && !ChangesLog(e) && n < |w.log| && Live(w, n) && !Cut(w, e, n)
    ensures w'.log == w.log && Live(w', n)
  {
    StepChanges(w, e, w');
    if !w.log[n].returned {
      var a :| a in w.actors && Finishing(PcOf(w, a));
      FinishingGoesOn(w, e, w', a);
    }
  }

  // ------------------------------------------------------- who can become finishing

  lemma CallFinishes(w: World, e: Event, w': World, b: nat)
    requires CallStep(w, e, w') && At(w', b) && Finishing(PcOf(w', b))
    ensures At(w, b) && Finishing(PcOf(w, b)) && !CutsCall(w, e, b) && !e.UndoPublish?
  {
    CallMoves(w, e, w');
  }

  lemma LockFinishes(w: World, e: Event, w': World, b: nat)
    requires LockStep(w, e, w') && At(w', b) && Finishing(PcOf(w', b))
    ensures At(w, b) && Finishing(PcOf(w, b)) && !CutsCall(w, e, b) && !e.UndoPublish?
  {
    if e.Crash? {
      CrashMoves(w, w', e.instance, b);
    } else {
      LockMoves(w, e, w');
    }
  }

  lemma LookupFinishes(w: World, e: Event, w': World, b: nat)
    requires LookupStep(w, e, w') && At(w', b) && Finishing(PcOf(w', b))
    ensures At(w, b) && Finishing(PcOf(w, b)) && !CutsCall(w, e, b) && !e.UndoPublish?
  {
    LookupMoves(w, e, w');
  }

  lemma RemovalFinishes(w: World, e: Event, w': World, b: nat)
    requires RemovalStep(w, e, w') && RemovalsEnd(w) && At(w', b) && Finishing(PcOf(w', b))
    ensures At(w, b) && Finishing(PcOf(w, b)) && !CutsCall(w, e, b) && !e.UndoPublish?
  {
    RemovalMoves(w, e, w');
  }

  lemma CommitFinishes(w: World, e: Event, w': World, b: nat)
    requires CommitStep(w, e, w') && !e.Publish? && At(w', b) && Finishing(PcOf(w', b))
    ensures At(w, b) && Finishing(PcOf(w, b)) && !CutsCall(w, e, b) && !(e.UndoPublish? && e.a == b)
  {
    CommitMoves(w, e, w');
    if b == e.a {
      MoverFinishes(w, e, w');
    }
  }

  lemma MoverFinishes(w: World, e: Event, w': World)
    requires CommitStep(w, e, w') && !e.Publish? && !e.Crash? && !e.Release?
    requires At(w, e.a) && At(w', e.a) && Finishing(PcOf(w', e.a))
    ensures Finishing(PcOf(w, e.a)) && !e.FailUndo? && !e.UndoPublish?
  {
  }

  lemma OutsideFinishes(w: World, e: Event, w': World, b: nat)
    requires CallStep(w, e, w') || LockStep(w, e, w') || LookupStep(w, e, w')
    requires At(w', b) && Finishing(PcOf(w', b))
    ensures At(w, b) && Finishing(PcOf(w, b)) && !CutsCall(w, e, b) && !e.UndoPublish?
  {
    if CallStep(w, e, w') {
      CallFinishes(w, e, w', b);
    } else if LockStep(w, e, w') {
      LockFinishes(w, e, w', b);
    } else {
      LookupFinishes(w, e, w', b);
    }
  }

  lemma InsideFinishes(w: World, e: Event, w': World, b: nat)
    requires RemovalStep(w, e, w') || (CommitStep(w, e, w') && !e.Publish?)
    requires RemovalsEnd(w) && At(w', b) && Finishing(PcOf(w', b))
    ensures At(w, b) && Finishing(PcOf(w, b)) && !CutsCall(w, e, b) && !(e.UndoPublish? && e.a == b)
  {
    if RemovalStep(w, e, w') {
      RemovalFinishes(w, e, w', b);
    } else {
      CommitFinishes(w, e, w', b);
    }
  }

  /** Only a publication makes a call finishing, and no call survives its own cut. */
  lemma OnlyPublishFinishes(w: World, e: Event, w': World, b: nat)
    requires Step(w, e, w') && RemovalsEnd(w) && !e.Publish? && At(w', b) && Finishing(PcOf(w', b))
    ensures At(w, b) && Finishing(PcOf(w, b)) && !CutsCall(w, e, b) && !(e.UndoPublish? && e.a == b)
  {
    if RemovalStep(w, e, w') || CommitStep(w, e, w') {
      InsideFinishes(w, e, w', b);
    } else {
      OutsideFinishes(w, e, w', b);
    }
  }

  /** A finishing call's own publication is the last entry, and it has not returned. */
  lemma FinishingIsTop(w: World, a: nat)
    requires History(w) && At(w, a) && Finishing(PcOf(w, a))
    ensures w.log != [] && !w.log[|w.log| - 1].returned
  {
    assert PcHistory(w.log, w.fs.objects, PcOf(w, a));
  }

  lemma CutCall(w: World, e: Event, n: nat) returns (a: nat)
    requires Cut(w, e, n)
    ensures |w.log| == n + 1 && At(w, a) && Finishing(PcOf(w, a)) && CutsCall(w, e, a)
  {
    a :| a in w.actors && Finishing(PcOf(w, a)) && CutsCall(w, e, a);
  }

  /** One commit at a time finishes, and the last entry of the log is its own. */
  ghost predicate FinishesTop(w: World) {
    && Exclusion(w) && RemovalsEnd(w)
    && (forall a | a in w.actors && Finishing(PcOf(w, a)) :: w.log != [] && !w.log[|w.log| - 1].returned)
  }

  lemma InvFinishesTop(w: World)
    requires Inv(w) && History(w)
    ensures FinishesTop(w)
  {
    InvRemovalsEnd(w);
    forall a | a in w.actors && Finishing(PcOf(w, a))
      ensures w.log != [] && !w.log[|w.log| - 1].returned
    {
      FinishingIsTop(w, a);
    }
  }

  lemma RunFinishesTop(ws: seq<World>, es: seq<Event>, i: nat)
    requires Run(ws, es) && i < |ws|
    ensures FinishesTop(ws[i])
  {
    RunKeeps(ws, es, i);
    InvFinishesTop(ws[i]);
  }

  /** A cut leaves its entry behind: not returned, and with nobody at work on it. */
  lemma CutKills(w: World, e: Event, w': World, n: nat)
    requires FinishesTop(w) && Step(w, e, w') && Cut(w, e, n)
    ensures n < |w'.log| && !Live(w', n)
  {
    var a := CutCall(w, e, n);
    StepChanges(w, e, w');
    NoneFinishesAfter(w, e, w', a);
  }

  /** Once the one finishing call is cut off or rolled back, nobody is finishing. */
  lemma NoneFinishesAfter(w: World, e: Event, w': World, a: nat)
    requires Exclusion(w) && RemovalsEnd(w) && Step(w, e, w') && At(w, a) && Finishing(PcOf(w, a))
    requires CutsCall(w, e, a) || (e.UndoPublish? && e.a == a)
    ensures !SomeoneFinishing(w')
  {
    forall b | b in w'.actors
      ensures !Finishing(PcOf(w', b))
    {
      if Finishing(PcOf(w', b)) {
        OnlyPublishFinishes(w, e, w', b);
        OneFinishing(w, a, b);
      }
    }
  }

  // ------------------------------------------------------ the log one event at a time

  /** The three events that write the log belong to the one call at work on its end. */
  lemma LogEvents(w: World, e: Event, w': World)
    requires Step(w, e, w') && ChangesLog(e)
    ensures At(w, e.a) && HasRoot(PcOf(w, e.a)) && (Finishing(PcOf(w, e.a)) <==> !e.Publish?)
    ensures e.Publish? ==>
              |w'.log| == |w.log| + 1 && w'.log[..|w.log|] == w.log && At(w', e.a) && Finishing(PcOf(w', e.a))
    ensures e.UndoPublish? ==> w.log != [] && w'.log == w.log[..|w.log| - 1]
    ensures e.Return? ==> w.log != [] && |w'.log| == |w.log| && w'.log[..|w.log| - 1] == w.log[..|w.log| - 1]
                          && w'.log[|w.log| - 1].returned
  {
    StepKind(w, e, w');
    LogEventsBy(w, e, w');
  }

  lemma LogEventsBy(w: World, e: Event, w': World)
    requires CommitStep(w, e, w') && ChangesLog(e)
    ensures At(w, e.a) && HasRoot(PcOf(w, e.a)) && (Finishing(PcOf(w, e.a)) <==> !e.Publish?)
    ensures e.Publish? ==>
              |w'.log| == |w.log| + 1 && w'.log[..|w.log|] == w.log && At(w', e.a) && Finishing(PcOf(w', e.a))
    ensures e.UndoPublish? ==> w.log != [] && w'.log == w.log[..|w.log| - 1]
    ensures e.Return? ==> w.log != [] && |w'.log| == |w.log| && w'.log[..|w.log| - 1] == w.log[..|w.log| - 1]
                          && w'.log[|w.log| - 1].returned
  {
  }

  /** An entry that is already there keeps its flag through a log event, unless it is the one returned. */
  lemma SameFlag(w: World, e: Event, w': World, n: nat)
    requires Step(w, e, w') && ChangesLog(e) && n < |w.log| && n < |w'.log|
    ensures w.log[n].returned ==> w'.log[n].returned
    ensures n < |w.log| - 1 || e.Publish? ==> w'.log[n].returned == w.log[n].returned
    ensures n == |w.log| - 1 && !e.Publish? ==> e.Return? && w'.log[n].returned
  {
    LogEvents(w, e, w');
    if e.Publish? {
      assert w'.log[..|w.log|][n] == w.log[n];
    } else if e.Return? && n < |w.log| - 1 {
      assert w'.log[..|w.log| - 1][n] == w.log[..|w.log| - 1][n];
    }
  }

  /** A live entry stays live until it is cut off or rolled back. */
  lemma LiveGoesOn(w: World, e: Event, w': World, n: nat)
    requires Inv(w) && Step(w, e, w') && n < |w.log| && n < |w'.log| && Live(w, n) && !Cut(w, e, n)
    ensures Live(w', n)
  {
    if !ChangesLog(e) {
      QuietLives(w, e, w', n);
    } else {
      SameFlag(w, e, w', n);
      LogEvents(w, e, w');
      if e.Publish? {
        NoneFinishing(w, e.a);
      }
    }
  }

  /** A new entry is live: its own commit is at work on it. */
  lemma NewIsLive(w: World, e: Event, w': World, n: nat)
    requires Step(w, e, w') && |w.log| <= n < |w'.log|
    ensures Live(w', n)
  {
    if !ChangesLog(e) {
      StepChanges(w, e, w');
    } else {
      LogEvents(w, e, w');
    }
  }

  /** An entry cut off is never rolled back and never returns. */
  lemma DeadStaysDead(w: World, e: Event, w': World, n: nat)
    requires FinishesTop(w) && Step(w, e, w') && n < |w.log| && !Live(w, n)
    ensures n < |w'.log| && !Live(w', n)
  {
    if ChangesLog(e) {
      DeadLogEvent(w, e, w', n);
    } else {
      DeadQuiet(w, e, w', n);
    }
  }

  lemma DeadQuiet(w: World, e: Event, w': World, n: nat)
    requires RemovalsEnd(w) && Step(w, e, w') && !ChangesLog(e) && n < |w.log| && !Live(w, n)
    ensures n < |w'.log| && !Live(w', n)
  {
    StepChanges(w, e, w');
    if b :| b in w'.actors && Finishing(PcOf(w', b)) {
      OnlyPublishFinishes(w, e, w', b);
    }
  }

  /** Whoever rolls back or returns is at work on the last entry, so a dead one comes before it. */
  lemma DeadLogEvent(w: World, e: Event, w': World, n: nat)
    requires Exclusion(w) && RemovalsEnd(w) && Step(w, e, w') && ChangesLog(e) && n < |w.log| && !Live(w, n)
    ensures n < |w'.log| && !Live(w', n)
  {
    LogEvents(w, e, w');
    SameFlag(w, e, w', n);
    if e.UndoPublish? {
      NoneFinishesAfter(w, e, w', e.a);
    }
  }

  // -------------------------------------------------------------------- whole runs

  ghost predicate CutAt(ws: seq<World>, es: seq<Event>, b: nat, n: nat)
    requires |ws| == |es| + 1 && b < |es|
  {
    Cut(ws[b], es[b], n)
  }

  lemma {:induction false} CutForever(ws: seq<World>, es: seq<Event>, b: nat, m: nat, n: nat)
    requires Run(ws, es) && b < m < |ws| && CutAt(ws, es, b, n)
    ensures n < |ws[m].log| && !Live(ws[m], n)
    decreases m
  {
    RunFinishesTop(ws, es, m - 1);
    assert StepAt(ws, es, m - 1);
    if m - 1 == b {
      CutKills(ws[b], es[b], ws[m], n);
    } else {
      CutForever(ws, es, b, m - 1, n);
      DeadStaysDead(ws[m - 1], es[m - 1], ws[m], n);
    }
  }

  /** One event further: entries live on and new ones are live. */
  lemma LiveNext(w: World, e: Event, w': World, n: nat)
    requires Inv(w) && Step(w, e, w') && n < |w'.log| && !Cut(w, e, n) && (n < |w.log| ==> Live(w, n))
    ensures Live(w', n)
  {
    if n < |w.log| {
      LiveGoesOn(w, e, w', n);
    } else {
      NewIsLive(w, e, w', n);
    }
  }

  lemma LiveNextAt(ws: seq<World>, es: seq<Event>, m: nat, n: nat)
    requires Run(ws, es) && m < |es| && n < |ws[m + 1].log| && !CutAt(ws, es, m, n)
    requires n < |ws[m].log| ==> Live(ws[m], n)
    ensures Live(ws[m + 1], n)
  {
    RunKeeps(ws, es, m);
    assert StepAt(ws, es, m);
    LiveNext(ws[m], es[m], ws[m + 1], n);
  }

  lemma {:induction false} UncutLives(ws: seq<World>, es: seq<Event>, m: nat, n: nat)
    requires Run(ws, es) && m < |ws| && n < |ws[m].log| && forall b: nat | b < m :: !CutAt(ws, es, b, n)
    ensures Live(ws[m], n)
    decreases m
  {
    if m > 0 {
      if n < |ws[m - 1].log| {
        UncutLives(ws, es, m - 1, n);
      }
      assert !CutAt(ws, es, m - 1, n);
      LiveNextAt(ws, es, m - 1, n);
    }
  }

  /**
   * When a lookup takes its lease, a publication in the log has returned `Stored` exactly if its
   * commit was not cut off between its publication and its return.
   */
  lemma ReturnedIffNotCut(ws: seq<World>, es: seq<Event>, m: nat, n: nat)
    requires Run(ws, es) && m < |es| && es[m].Acquire? && AcquireStep(ws[m], ws[m + 1], es[m].a) && n < |ws[m].log|
    ensures ws[m].log[n].returned <==> !exists b: nat | b < m :: CutAt(ws, es, b, n)
  {
    RunKeeps(ws, es, m);
    NoneFinishing(ws[m], es[m].a);
    if b: nat :| b < m && CutAt(ws, es, b, n) {
      CutForever(ws, es, b, m, n);
    } else {
      UncutLives(ws, es, m, n);
    }
  }

  /** The entry of the log that is the latest for a path. */
  lemma {:induction false} LatestIndex(log: seq<Publication>, p: RefPath) returns (n: nat)
    requires LastFor(log, p).Some?
    ensures n < |log| && log[n] == LastFor(log, p).value && PathOf(log[n].key) == p
    ensures forall k | n < k < |log| :: PathOf(log[k].key) != p
  {
    if PathOf(log[|log| - 1].key) == p {
      n := |log| - 1;
    } else {
      n := LatestIndex(log[..|log| - 1], p);
    }
  }

  /**
   * A hit replays the latest publication `n` of its key when the lookup observed the ref.  It is the
   * last commit of the key that returned `Stored` exactly if that very commit was not cut off, by a
   * crash of its own process or by the failure of its own rollback.
   */
  lemma HitReplaysLastStored(ws: seq<World>, es: seq<Event>, i: nat, l: nat) returns (m: nat, n: nat)
    requires Run(ws, es) && i < |ws| && l in ws[i].leases
    ensures m < i && es[m].Acquire? && ws[m].nextLease == l
    ensures var x := ws[i].leases[l];
            && n < |ws[m].log| && ws[m].log[n] == x.of && x.of.key == x.key
            && (forall k | n < k < |ws[m].log| :: ws[m].log[k].key != x.key)
            && ObjOf(x.record) in ws[i].fs.objects
            && Replays(ws[i].fs.objects[ObjOf(x.record)], x.record, x.of.content)
            && (x.of.returned <==> !exists b: nat | b < m :: CutAt(ws, es, b, n))
  {
    m := HitReplaysLatest(ws, es, i, l);
    n := LatestIndex(ws[m].log, PathOf(ws[i].leases[l].key));
    ReturnedIffNotCut(ws, es, m, n);
  }
}
