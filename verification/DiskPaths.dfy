/**
 * Series of events that one call takes by itself, while nobody else moves: how a method of the cache,
 * which the source runs under one lock, reads as part of a run.
 */
module DiskPaths {
  import opened Wrappers
  import opened Schemas
  import opened DiskModel
  import opened DiskProtocol
  import opened DiskMoves

  ghost predicate OwnStepAt(ws: seq<World>, es: seq<Event>, i: nat, a: nat)
    requires |ws| == |es| + 1 && i < |es|
  {
    StepAt(ws, es, i) && Mover(es[i]) == Some(a)
  }

  ghost predicate Path(ws: seq<World>, es: seq<Event>, a: nat) {
    |ws| == |es| + 1 && forall i: nat | i < |es| :: OwnStepAt(ws, es, i, a)
  }

  /** Events of call `a` alone lead from one world to the other. */
  ghost predicate Leads(w: World, a: nat, w': World) {
    exists ws, es :: Path(ws, es, a) && ws[0] == w && ws[|es|] == w'
  }

  lemma LeadsSelf(w: World, a: nat)
    ensures Leads(w, a, w)
  {
    assert Path([w], [], a);
  }

  lemma PathExtends(ws: seq<World>, es: seq<Event>, a: nat, e: Event, w: World)
    requires Path(ws, es, a) && Step(ws[|es|], e, w) && Mover(e) == Some(a)
    ensures Path(ws + [w], es + [e], a)
  {
    hide Step;
    forall i: nat | i < |es + [e]|
      ensures OwnStepAt(ws + [w], es + [e], i, a)
    {
      if i < |es| {
        assert OwnStepAt(ws, es, i, a);
      }
    }
  }

  lemma PathLeads(ws: seq<World>, es: seq<Event>, a: nat)
    requires Path(ws, es, a)
    ensures Leads(ws[0], a, ws[|es|])
  {
  }

  lemma LeadsOn(w: World, a: nat, mid: World, e: Event, w': World)
    requires Leads(w, a, mid) && Step(mid, e, w') && Mover(e) == Some(a)
    ensures Leads(w, a, w')
  {
    var ws, es :| Path(ws, es, a) && ws[0] == w && ws[|es|] == mid;
    PathExtends(ws, es, a, e, w');
    PathLeads(ws + [w'], es + [e], a);
  }

  lemma OneStep(w: World, a: nat, e: Event, w': World)
    requires Step(w, e, w') && Mover(e) == Some(a)
    ensures Leads(w, a, w')
  {
    LeadsSelf(w, a);
    LeadsOn(w, a, w, e, w');
  }

  lemma {:induction false} LeadsAlong(w: World, a: nat, ws: seq<World>, es: seq<Event>, n: nat)
    requires Path(ws, es, a) && Leads(w, a, ws[0]) && n <= |es|
    ensures Leads(w, a, ws[n])
  {
    if n > 0 {
      LeadsAlong(w, a, ws, es, n - 1);
      assert OwnStepAt(ws, es, n - 1, a);
      LeadsOn(w, a, ws[n - 1], es[n - 1], ws[n]);
    }
  }

  lemma LeadsTrans(w: World, a: nat, mid: World, w': World)
    requires Leads(w, a, mid) && Leads(mid, a, w')
    ensures Leads(w, a, w')
  {
    var ws, es :| Path(ws, es, a) && ws[0] == mid && ws[|es|] == w';
    LeadsAlong(w, a, ws, es, |es|);
  }

  lemma {:induction false} PathKeeps(ws: seq<World>, es: seq<Event>, a: nat, n: nat)
    requires Path(ws, es, a) && Inv(ws[0]) && n <= |es|
    ensures Inv(ws[n])
  {
    hide Step, Inv;
    if n > 0 {
      PathKeeps(ws, es, a, n - 1);
      assert OwnStepAt(ws, es, n - 1, a);
      StepKeepsInv(ws[n - 1], es[n - 1], ws[n]);
    }
  }

  lemma LeadsInv(w: World, a: nat, w': World)
    requires Leads(w, a, w') && Inv(w)
    ensures Inv(w')
  {
    var ws, es :| Path(ws, es, a) && ws[0] == w && ws[|es|] == w';
    PathKeeps(ws, es, a, |es|);
  }

  lemma RunExtends(ws: seq<World>, es: seq<Event>, e: Event, w: World)
    requires Run(ws, es) && Step(ws[|es|], e, w)
    ensures Run(ws + [w], es + [e])
  {
    hide Step;
    forall i: nat | i < |es + [e]|
      ensures StepAt(ws + [w], es + [e], i)
    {
      if i < |es| {
        assert StepAt(ws, es, i);
      }
    }
  }

  lemma {:induction false} RunAlong(ws: seq<World>, es: seq<Event>, a: nat, vs: seq<World>, fs: seq<Event>, n: nat)
    returns (us: seq<World>, gs: seq<Event>)
    requires Run(ws, es) && Path(vs, fs, a) && vs[0] == ws[|es|] && n <= |fs|
    ensures Run(us, gs) && ws <= us && es <= gs && |gs| == |es| + n && us[|gs|] == vs[n]
  {
    if n == 0 {
      us, gs := ws, es;
    } else {
      us, gs := RunAlong(ws, es, a, vs, fs, n - 1);
      assert OwnStepAt(vs, fs, n - 1, a);
      RunExtends(us, gs, fs[n - 1], vs[n]);
      us, gs := us + [vs[n]], gs + [fs[n - 1]];
    }
  }

  /** What events of one call lead to continues any run: all that holds of runs holds there. */
  lemma RunLeads(ws: seq<World>, es: seq<Event>, a: nat, w: World) returns (us: seq<World>, gs: seq<Event>)
    requires Run(ws, es) && Leads(ws[|es|], a, w)
    ensures Run(us, gs) && ws <= us && es <= gs && us[|gs|] == w
  {
    var vs, fs :| Path(vs, fs, a) && vs[0] == ws[|es|] && vs[|fs|] == w;
    us, gs := RunAlong(ws, es, a, vs, fs, |fs|);
  }

  // One lemma for each event that a method of the cache takes.

  lemma DropRefIsStep(w: World, w': World, a: nat, t: Task, p: RefPath)
    requires DropRefStep(w, w', a, t, p)
    ensures Step(w, DropRef(a, t, p), w')
  {
  }

  lemma DropRefLeads(w: World, w': World, a: nat, t: Task, p: RefPath)
    requires DropRefStep(w, w', a, t, p)
    ensures Leads(w, a, w')
  {
    DropRefIsStep(w, w', a, t, p);
    OneStep(w, a, DropRef(a, t, p), w');
  }

  lemma DropOrphanIsStep(w: World, w': World, a: nat, t: Task, o: ObjPath)
    requires DropOrphanStep(w, w', a, t, o)
    ensures Step(w, DropOrphan(a, t, o), w')
  {
  }

  lemma DropOrphanLeads(w: World, w': World, a: nat, t: Task, o: ObjPath)
    requires DropOrphanStep(w, w', a, t, o)
    ensures Leads(w, a, w')
  {
    DropOrphanIsStep(w, w', a, t, o);
    OneStep(w, a, DropOrphan(a, t, o), w');
  }

  lemma RemoveObjectIsStep(w: World, w': World, a: nat, t: Task, o: ObjPath, after: Phase)
    requires RemoveObjectStep(w, w', a, t, o, after)
    ensures Step(w, RemoveObject(a, t, o, after), w')
  {
  }

  lemma RemoveObjectLeads(w: World, w': World, a: nat, t: Task, o: ObjPath, after: Phase)
    requires RemoveObjectStep(w, w', a, t, o, after)
    ensures Leads(w, a, w')
  {
    RemoveObjectIsStep(w, w', a, t, o, after);
    OneStep(w, a, RemoveObject(a, t, o, after), w');
  }

  lemma SpareObjectIsStep(w: World, w': World, a: nat, t: Task, o: ObjPath, after: Phase)
    requires SpareObjectStep(w, w', a, t, o, after)
    ensures Step(w, SpareObject(a, t, o, after), w')
  {
  }

  lemma SpareObjectLeads(w: World, w': World, a: nat, t: Task, o: ObjPath, after: Phase)
    requires SpareObjectStep(w, w', a, t, o, after)
    ensures Leads(w, a, w')
  {
    SpareObjectIsStep(w, w', a, t, o, after);
    OneStep(w, a, SpareObject(a, t, o, after), w');
  }

  lemma MismatchIsStep(w: World, w': World, a: nat, t: Task)
    requires MismatchStep(w, w', a, t)
    ensures Step(w, Mismatch(a, t), w')
  {
  }

  lemma MismatchLeads(w: World, w': World, a: nat, t: Task)
    requires MismatchStep(w, w', a, t)
    ensures Leads(w, a, w')
  {
    MismatchIsStep(w, w', a, t);
    OneStep(w, a, Mismatch(a, t), w');
  }

  lemma RefreshIsStep(w: World, w': World, a: nat, t: Task)
    requires RefreshStep(w, w', a, t)
    ensures Step(w, Refresh(a, t), w')
  {
  }

  lemma RefreshLeads(w: World, w': World, a: nat, t: Task)
    requires RefreshStep(w, w', a, t)
    ensures Leads(w, a, w')
  {
    RefreshIsStep(w, w', a, t);
    OneStep(w, a, Refresh(a, t), w');
  }

  lemma WithdrawIsStep(w: World, w': World, a: nat, t: Task)
    requires WithdrawStep(w, w', a, t)
    ensures Step(w, Withdraw(a, t), w')
  {
  }

  lemma WithdrawLeads(w: World, w': World, a: nat, t: Task)
    requires WithdrawStep(w, w', a, t)
    ensures Leads(w, a, w')
  {
    WithdrawIsStep(w, w', a, t);
    OneStep(w, a, Withdraw(a, t), w');
  }

  lemma AdmitIsStep(w: World, w': World, a: nat, j: Job, limits: Limits)
    requires AdmitStep(w, w', a, j, limits)
    ensures Step(w, Admit(a, j, limits), w')
  {
  }

  lemma AdmitLeads(w: World, w': World, a: nat, j: Job, limits: Limits)
    requires AdmitStep(w, w', a, j, limits)
    ensures Leads(w, a, w')
  {
    AdmitIsStep(w, w', a, j, limits);
    OneStep(w, a, Admit(a, j, limits), w');
  }

  lemma RenameIsStep(w: World, w': World, a: nat, j: Job, prior: Option<Record>, retained: bool)
    requires RenameStep(w, w', a, j, prior, retained)
    ensures Step(w, Rename(a, j, prior, retained), w')
  {
  }

  lemma RenameLeads(w: World, w': World, a: nat, j: Job, prior: Option<Record>, retained: bool)
    requires RenameStep(w, w', a, j, prior, retained)
    ensures Leads(w, a, w')
  {
    RenameIsStep(w, w', a, j, prior, retained);
    OneStep(w, a, Rename(a, j, prior, retained), w');
  }

  lemma PublishIsStep(w: World, w': World, a: nat, j: Job, prior: Option<Record>, retained: bool)
    requires PublishStep(w, w', a, j, prior, retained)
    ensures Step(w, Publish(a, j, prior, retained), w')
  {
  }

  lemma PublishLeads(w: World, w': World, a: nat, j: Job, prior: Option<Record>, retained: bool)
    requires PublishStep(w, w', a, j, prior, retained)
    ensures Leads(w, a, w')
  {
    PublishIsStep(w, w', a, j, prior, retained);
    OneStep(w, a, Publish(a, j, prior, retained), w');
  }

  lemma UndoRenameIsStep(w: World, w': World, a: nat, j: Job, prior: Option<Record>, retained: bool)
    requires UndoRenameStep(w, w', a, j, prior, retained)
    ensures Step(w, UndoRename(a, j, prior, retained), w')
  {
  }

  lemma UndoRenameLeads(w: World, w': World, a: nat, j: Job, prior: Option<Record>, retained: bool)
    requires UndoRenameStep(w, w', a, j, prior, retained)
    ensures Leads(w, a, w')
  {
    UndoRenameIsStep(w, w', a, j, prior, retained);
    OneStep(w, a, UndoRename(a, j, prior, retained), w');
  }

  lemma UndoPublishIsStep(w: World, w': World, a: nat, j: Job, prior: Option<Record>, retained: bool)
    requires UndoPublishStep(w, w', a, j, prior, retained)
    ensures Step(w, UndoPublish(a, j, prior, retained), w')
  {
  }

  lemma UndoPublishLeads(w: World, w': World, a: nat, j: Job, prior: Option<Record>, retained: bool)
    requires UndoPublishStep(w, w', a, j, prior, retained)
    ensures Leads(w, a, w')
  {
    UndoPublishIsStep(w, w', a, j, prior, retained);
    OneStep(w, a, UndoPublish(a, j, prior, retained), w');
  }

  lemma KeepIsStep(w: World, w': World, a: nat, j: Job, prior: Option<Record>, retained: bool)
    requires KeepStep(w, w', a, j, prior, retained)
    ensures Step(w, Keep(a, j, prior, retained), w')
  {
  }

  lemma KeepLeads(w: World, w': World, a: nat, j: Job, prior: Option<Record>, retained: bool)
    requires KeepStep(w, w', a, j, prior, retained)
    ensures Leads(w, a, w')
  {
    KeepIsStep(w, w', a, j, prior, retained);
    OneStep(w, a, Keep(a, j, prior, retained), w');
  }

  lemma ObserveIsStep(w: World, w': World, a: nat)
    requires ObserveStep(w, w', a)
    ensures Step(w, Observe(a), w')
  {
  }

  lemma ObserveLeads(w: World, w': World, a: nat)
    requires ObserveStep(w, w', a)
    ensures Leads(w, a, w')
  {
    ObserveIsStep(w, w', a);
    OneStep(w, a, Observe(a), w');
  }

  lemma AcquireIsStep(w: World, w': World, a: nat)
    requires AcquireStep(w, w', a)
    ensures Step(w, Acquire(a), w')
  {
  }

  lemma AcquireLeads(w: World, w': World, a: nat)
    requires AcquireStep(w, w', a)
    ensures Leads(w, a, w')
  {
    AcquireIsStep(w, w', a);
    OneStep(w, a, Acquire(a), w');
  }

  lemma UnlockIsStep(w: World, w': World, a: nat)
    requires UnlockStep(w, w', a)
    ensures Step(w, Unlock(a), w')
  {
  }

  lemma UnlockLeads(w: World, w': World, a: nat)
    requires UnlockStep(w, w', a)
    ensures Leads(w, a, w')
  {
    UnlockIsStep(w, w', a);
    OneStep(w, a, Unlock(a), w');
  }

  lemma AcceptIsStep(w: World, w': World, a: nat, expected: Option<Schema>)
    requires AcceptStep(w, w', a, expected)
    ensures Step(w, Accept(a, expected), w')
  {
  }

  lemma AcceptLeads(w: World, w': World, a: nat, expected: Option<Schema>)
    requires AcceptStep(w, w', a, expected)
    ensures Leads(w, a, w')
  {
    AcceptIsStep(w, w', a, expected);
    OneStep(w, a, Accept(a, expected), w');
  }

  lemma MissLeads(w: World, w': World, a: nat)
    requires MissStep(w, w', a)
    ensures Leads(w, a, w')
  {
    MissIsStep(w, w', a);
    OneStep(w, a, Miss(a), w');
  }

  lemma MissIsStep(w: World, w': World, a: nat)
    requires MissStep(w, w', a)
    ensures Step(w, Miss(a), w')
  {
  }

  lemma CondemnLeads(w: World, w': World, a: nat)
    requires CondemnStep(w, w', a)
    ensures Leads(w, a, w')
  {
    CondemnIsStep(w, w', a);
    OneStep(w, a, Condemn(a), w');
  }

  lemma CondemnIsStep(w: World, w': World, a: nat)
    requires CondemnStep(w, w', a)
    ensures Step(w, Condemn(a), w')
  {
  }

  lemma RejectLeads(w: World, w': World, a: nat, expected: Option<Schema>)
    requires RejectStep(w, w', a, expected)
    ensures Leads(w, a, w')
  {
    RejectIsStep(w, w', a, expected);
    OneStep(w, a, Reject(a, expected), w');
  }

  lemma RejectIsStep(w: World, w': World, a: nat, expected: Option<Schema>)
    requires RejectStep(w, w', a, expected)
    ensures Step(w, Reject(a, expected), w')
  {
  }

  lemma ReturnIsStep(w: World, w': World, a: nat, j: Job)
    requires ReturnStep(w, w', a, j)
    ensures Step(w, Return(a, j), w')
  {
  }

  lemma FailRemovalIsStep(w: World, w': World, a: nat, t: Task, o: ObjPath, after: Phase)
    requires FailRemovalStep(w, w', a, t, o, after)
    ensures Step(w, FailRemoval(a, t, o, after), w')
  {
  }
}
