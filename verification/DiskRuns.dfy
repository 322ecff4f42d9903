/**
 * The promises of the persistent cache over whole runs, with any number of processes
 * and a crash allowed between any two filesystem steps.
 */
module DiskRuns {
  import opened Wrappers
  import opened Schemas
  import opened DiskModel
  import opened DiskProtocol
  import opened DiskHistory

  lemma InitKeeps()
    ensures Inv(Init()) && History(Init())
  {
  }

  lemma {:induction false} RunKeeps(ws: seq<World>, es: seq<Event>, i: nat)
    requires Run(ws, es) && i < |ws|
    ensures Inv(ws[i]) && History(ws[i])
  {
    hide Step, Inv, History;
    if i == 0 {
      InitKeeps();
    } else {
      RunKeeps(ws, es, i - 1);
      assert StepAt(ws, es, i - 1);
      StepKeepsInv(ws[i - 1], es[i - 1], ws[i]);
      StepKeepsHistory(ws[i - 1], es[i - 1], ws[i]);
    }
  }

  // ------------------------------------------------------------ refs and objects

  /** Every ref names an object that exists and is complete, and no two refs share one. */
  lemma RefsAlwaysComplete(ws: seq<World>, es: seq<Event>, i: nat)
    requires Run(ws, es) && i < |ws|
    ensures forall p | p in ws[i].fs.refs :: RefOk(p, ws[i].fs.refs[p], ws[i].fs.objects)
    ensures forall p, q, o | p in ws[i].fs.refs && q in ws[i].fs.refs
              && Refers(ws[i].fs.refs[p], o) && Refers(ws[i].fs.refs[q], o) :: p == q
  {
    RunKeeps(ws, es, i);
    forall p, q, o | p in ws[i].fs.refs && q in ws[i].fs.refs && Refers(ws[i].fs.refs[p], o)
      && Refers(ws[i].fs.refs[q], o)
      ensures p == q
    {
      RefsNeverShare(ws[i].fs, LeasedObjects(ws[i]), p, q);
    }
  }

  // ---------------------------------------------------------------------- leases

  /** Lease numbers only grow, and an old number never comes back. */
  ghost predicate LeasesAge(w: World, w': World) {
    && w.nextLease <= w'.nextLease
    && forall l | l in w'.leases && l < w.nextLease :: l in w.leases && w'.leases[l] == w.leases[l]
  }

  lemma StepLeases(w: World, e: Event, w': World)
    requires Step(w, e, w')
    ensures LeasesAge(w, w')
  {
    StepChanges(w, e, w');
    if e.Acquire? {
      AcquireIsLookup(w, e, w');
    }
  }

  lemma AcquireIsLookup(w: World, e: Event, w': World)
    requires Step(w, e, w') && e.Acquire?
    ensures AcquireStep(w, w', e.a)
  {
  }

  ghost predicate Aging(ws: seq<World>) {
    forall i | 0 < i < |ws| :: LeasesAge(ws[i - 1], ws[i])
  }

  lemma RunAges(ws: seq<World>, es: seq<Event>)
    requires Run(ws, es)
    ensures Aging(ws)
  {
    forall i | 0 < i < |ws|
      ensures LeasesAge(ws[i - 1], ws[i])
    {
      assert StepAt(ws, es, i - 1);
      StepLeases(ws[i - 1], es[i - 1], ws[i]);
    }
  }

  /** A lease number is given out once: a lease alive at two moments was alive in between. */
  lemma {:induction false} LeaseContinuous(ws: seq<World>, i: nat, j: nat, l: nat)
    requires Aging(ws) && i <= j < |ws| && l < ws[i].nextLease
    ensures l < ws[j].nextLease
    ensures l in ws[j].leases ==> l in ws[i].leases && ws[j].leases[l] == ws[i].leases[l]
    decreases j
  {
    if i < j {
      LeaseContinuous(ws, i, j - 1, l);
      assert LeasesAge(ws[j - 1], ws[j]);
    }
  }

  lemma StepKeepsLeased(w: World, e: Event, w': World, o: ObjPath)
    requires Inv(w) && Step(w, e, w') && Leased(w, o)
    ensures o in w.fs.objects && o in w'.fs.objects && w'.fs.objects[o] == w.fs.objects[o]
  {
    StepChanges(w, e, w');
    if ChangesFs(e) {
      EventPerforms(w, e, w');
      KeptObjects(w.fs, LeasedObjects(w), ActOf(e), o);
    }
  }

  /** While `o` is leased, a step leaves it exactly as it is. */
  ghost predicate LeasedKept(w: World, w': World) {
    forall o | Leased(w, o) :: o in w.fs.objects && o in w'.fs.objects && w'.fs.objects[o] == w.fs.objects[o]
  }

  ghost predicate Guarding(ws: seq<World>) {
    forall i | 0 < i < |ws| :: LeasedKept(ws[i - 1], ws[i])
  }

  lemma RunGuards(ws: seq<World>, es: seq<Event>)
    requires Run(ws, es)
    ensures Guarding(ws)
  {
    forall i | 0 < i < |ws|
      ensures LeasedKept(ws[i - 1], ws[i])
    {
      RunKeeps(ws, es, i - 1);
      assert StepAt(ws, es, i - 1);
      forall o | Leased(ws[i - 1], o)
        ensures o in ws[i - 1].fs.objects && o in ws[i].fs.objects && ws[i].fs.objects[o] == ws[i - 1].fs.objects[o]
      {
        StepKeepsLeased(ws[i - 1], es[i - 1], ws[i], o);
      }
    }
  }

  lemma {:induction false} HeldThrough(ws: seq<World>, i: nat, j: nat, l: nat)
    requires Aging(ws) && Guarding(ws) && i < j < |ws|
    requires l in ws[i].leases && l in ws[j].leases && l < ws[i].nextLease
    ensures ws[j].leases[l] == ws[i].leases[l]
    ensures var o := ObjOf(ws[i].leases[l].record);
            o in ws[i].fs.objects && o in ws[j].fs.objects && ws[j].fs.objects[o] == ws[i].fs.objects[o]
    decreases j
  {
    var o := ObjOf(ws[i].leases[l].record);
    LeaseContinuous(ws, i, j, l);
    LeaseContinuous(ws, i, j - 1, l);
    LeaseContinuous(ws, j - 1, j, l);
    if i < j - 1 {
      HeldThrough(ws, i, j - 1, l);
    }
    assert Leased(ws[j - 1], o);
    assert LeasedKept(ws[j - 1], ws[j]);
  }

  /** A generation held by a hit or a reader is neither deleted nor altered while it is held. */
  lemma LeasedNeverTouched(ws: seq<World>, es: seq<Event>, i: nat, j: nat, l: nat)
    requires Run(ws, es) && i < j < |ws| && l in ws[i].leases && l in ws[j].leases
    ensures ws[j].leases[l] == ws[i].leases[l]
    ensures var o := ObjOf(ws[i].leases[l].record);
            o in ws[i].fs.objects && o in ws[j].fs.objects && ws[j].fs.objects[o] == ws[i].fs.objects[o]
  {
    RunKeeps(ws, es, i);
    RunAges(ws, es);
    RunGuards(ws, es);
    HeldThrough(ws, i, j, l);
  }

  // -------------------------------------------------------------- what a hit replays

  ghost predicate Granted(w: World, e: Event, w': World) {
    FewerLeases(w, w') || (e.Acquire? && AcquireStep(w, w', e.a))
  }

  ghost predicate Granting(ws: seq<World>, es: seq<Event>) {
    && |ws| == |es| + 1 && ws[0].leases == map[]
    && forall i | 0 < i < |ws| :: Granted(ws[i - 1], es[i - 1], ws[i])
  }

  lemma RunGrants(ws: seq<World>, es: seq<Event>)
    requires Run(ws, es)
    ensures Granting(ws, es)
  {
    forall i | 0 < i < |ws|
      ensures Granted(ws[i - 1], es[i - 1], ws[i])
    {
      assert StepAt(ws, es, i - 1);
      StepChanges(ws[i - 1], es[i - 1], ws[i]);
      if es[i - 1].Acquire? {
        AcquireIsLookup(ws[i - 1], es[i - 1], ws[i]);
      }
    }
  }

  /** Where a lease came from: the lookup that took it, and the publication then in force. */
  lemma {:induction false} LeaseOrigin(ws: seq<World>, es: seq<Event>, i: nat, l: nat) returns (m: nat)
    requires Granting(ws, es) && i < |ws| && l in ws[i].leases
    ensures m < i && es[m].Acquire? && AcquireStep(ws[m], ws[m + 1], es[m].a) && ws[m].nextLease == l
    ensures l in ws[m + 1].leases && ws[m + 1].leases[l] == ws[i].leases[l]
    ensures LastFor(ws[m].log, PathOf(ws[i].leases[l].key)) == Some(ws[i].leases[l].of)
  {
    assert Granted(ws[i - 1], es[i - 1], ws[i]);
    if l in ws[i - 1].leases && ws[i].leases[l] == ws[i - 1].leases[l] {
      m := LeaseOrigin(ws, es, i - 1, l);
    } else {
      m := i - 1;
    }
  }

  /**
   * While a lease is held, its object replays, schema and batches partition by partition, the
   * capture of the publication that was the latest for its key when the lookup observed the ref.
   */
  lemma HitReplaysLatest(ws: seq<World>, es: seq<Event>, i: nat, l: nat) returns (m: nat)
    requires Run(ws, es) && i < |ws| && l in ws[i].leases
    ensures m < i && es[m].Acquire? && AcquireStep(ws[m], ws[m + 1], es[m].a) && ws[m].nextLease == l
    ensures var x := ws[i].leases[l];
            && LastFor(ws[m].log, PathOf(x.key)) == Some(x.of)
            && x.of.key == x.key
            && ObjOf(x.record) in ws[i].fs.objects
            && Replays(ws[i].fs.objects[ObjOf(x.record)], x.record, x.of.content)
  {
    RunGrants(ws, es);
    m := LeaseOrigin(ws, es, i, l);
    RunKeeps(ws, es, i);
    assert Honest(ws[i].fs.objects, ws[i].leases[l]);
  }

  /** Validation of an untampered generation can only fail over an expected schema that differs. */
  lemma NeverRejectedForCorruption(ws: seq<World>, es: seq<Event>, i: nat, expected: Option<Schema>)
    requires Run(ws, es) && i < |es| && es[i].Reject? && es[i].expected == expected
    ensures expected.Some? && At(ws[i], es[i].a) && PcOf(ws[i], es[i].a).Validating?
    ensures var l := PcOf(ws[i], es[i].a).lease;
            l in ws[i].leases && expected.value != ws[i].leases[l].of.content.schema
  {
    RunKeeps(ws, es, i);
    assert StepAt(ws, es, i);
    RejectIsLookup(ws[i], es[i], ws[i + 1]);
    var pc := PcOf(ws[i], es[i].a);
    assert PcOk(ws[i], pc);
    assert Honest(ws[i].fs.objects, ws[i].leases[pc.lease]);
    ValidWithSchema(pc.record, ws[i].fs.objects[ObjOf(pc.record)], ws[i].leases[pc.lease].of.content, expected);
  }

  lemma RejectIsLookup(w: World, e: Event, w': World)
    requires Step(w, e, w') && e.Reject?
    ensures RejectStep(w, w', e.a, e.expected)
  {
  }

  lemma ValidWithSchema(r: Record, dir: ObjectDir, content: Content, expected: Option<Schema>)
    requires ValidHit(r, dir, None) && Replays(dir, r, content)
    ensures ValidHit(r, dir, expected) <==> (expected.Some? ==> expected.value == content.schema)
  {
    assert PartOk(dir.manifest.manifest, dir, 0);
  }
}
