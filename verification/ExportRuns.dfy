/** Runs of the exporter: what is freed once, what an importer may rely on, and what the reclaim worker collects. */
module ExportRuns {
  import opened Common
  import opened ExportSide

  predicate Start(s: Vm) {
    && s.heap == map[] && s.idr == map[] && s.threads == map[] && s.work == Idle && !s.pending && !s.fault
    && forall c :: c in s.ctxs ==> s.ctxs[c] == Open
  }

  predicate Leads(s: Vm, a: Act, s': Vm) { Enabled(s, a) && Allowed(s, a) && s' == Do(s, a) }

  predicate IsRun(ss: seq<Vm>, steps: seq<Act>) {
    && |ss| == |steps| + 1 && Start(ss[0])
    && forall i :: 0 <= i < |steps| ==> Leads(ss[i], steps[i], ss[i + 1])
  }

  lemma RunStep(ss: seq<Vm>, steps: seq<Act>, i: nat)
    requires IsRun(ss, steps) && i < |steps|
    ensures Enabled(ss[i], steps[i]) && Allowed(ss[i], steps[i]) && ss[i + 1] == Do(ss[i], steps[i])
  {
    assert Leads(ss[i], steps[i], ss[i + 1]);
  }

  lemma StartInv(s: Vm)
    requires Start(s)
    ensures Inv(s)
  {
  }

  lemma {:induction false} RunInv(ss: seq<Vm>, steps: seq<Act>, n: nat)
    requires IsRun(ss, steps) && n < |ss|
    ensures Inv(ss[n])
  {
    hide Inv, Enabled, Do, Start, Leads, Allowed;
    if n == 0 {
      StartInv(ss[0]);
    } else {
      RunInv(ss, steps, n - 1);
      RunStep(ss, steps, n - 1);
      DoInv(ss[n - 1], steps[n - 1]);
    }
  }

  /** The importer may rely on descriptor `o`: its id still leads to it, and `remote_imported` is set. */
  predicate Held(s: Vm, id: nat, o: nat) {
    id in s.idr && s.idr[id] == o && o in s.heap && s.heap[o].imported
  }

  /** Nothing but an UNIMPORT of its id takes a held descriptor away. */
  lemma {:induction false} HeldKept(s: Vm, a: Act, id: nat, o: nat)
    requires Inv(s) && Enabled(s, a) && Allowed(s, a) && Held(s, id, o)
    requires a.RecvUnimport? ==> a.id != id
    ensures Held(Do(s, a), id, o)
  {
    assert s.heap[o].id == id;
    Frame(s, a);
    if Touched(s, a) == Some(o) {
      hide Framed;
      HeldThrough(s, a, id, o);
    } else {
      IdStays(s, a, id, o);
      hide Inv, Do, Enabled;
    }
  }

  /** The steps that may work on a held descriptor leave it held. */
  lemma HeldThrough(s: Vm, a: Act, id: nat, o: nat)
    requires Inv(s) && Enabled(s, a) && Held(s, id, o) && s.heap[o].id == id && Touched(s, a) == Some(o)
    requires a.RecvUnimport? ==> a.id != id
    ensures Held(Do(s, a), id, o)
  {
    if WithDescriptor(a) { NotHeld(s, a, o); }
    assert IdrInv(s);
    hide Inv, Do, Enabled, Held, IdrInv;
    if ByThread(a) { HeldThroughThread(s, a, id, o); }
    else if ByTeardown(a) { HeldThroughTeardown(s, a, id, o); }
    else { HeldThroughReclaim(s, a, id, o); }
  }

  lemma NotHeld(s: Vm, a: Act, o: nat)
    requires Inv(s) && WithDescriptor(a) && Enabled(s, a) && o in s.heap && s.heap[o].imported
    ensures Touched(s, a) != Some(o)
  {
    NotImported(s, a.t);
    hide Inv, CanTeardown, CanWork, TouchedByTeardown, TouchedByWork;
  }

  /** What a thread works on is not imported. */
  lemma NotImported(s: Vm, t: nat)
    requires Inv(s) && t in s.threads
    ensures !s.threads[t].Marking? ==> s.threads[t].o in s.heap && !s.heap[s.threads[t].o].imported
  {
    hide ObjInv, PhaseInv, WorkInv, IdrInv, InIdr;
    assert ThreadInv(s, t, s.threads[t]);
  }

  lemma HeldThroughTeardown(s: Vm, a: Act, id: nat, o: nat)
    requires Inv(s) && Enabled(s, a) && Held(s, id, o) && ByTeardown(a) && Touched(s, a) == Some(o)
    ensures Held(Do(s, a), id, o)
  {
    hide DoThread, CanThread, DoWork, CanWork, ObjInv, ThreadInv, WorkInv, IdrInv;
    assert PhaseInv(s, a.c, s.ctxs[a.c]);
    hide PhaseInv;
  }

  lemma HeldThroughReclaim(s: Vm, a: Act, id: nat, o: nat)
    requires Inv(s) && Enabled(s, a) && Held(s, id, o) && ByWorker(a) && Touched(s, a) == Some(o)
    ensures Held(Do(s, a), id, o)
  {
    assert ObjInv(s, o, s.heap[o]);
    hide DoThread, CanThread, DoTeardown, CanTeardown, ObjInv, ThreadInv, PhaseInv, IdrInv;
  }

  lemma HeldThroughThread(s: Vm, a: Act, id: nat, o: nat)
    requires Enabled(s, a) && Held(s, id, o) && s.heap[o].id == id && Touched(s, a) == Some(o)
    requires IdrInv(s) && ByThread(a) && !WithDescriptor(a) && (a.RecvUnimport? ==> a.id != id)
    ensures Held(Do(s, a), id, o)
  {
    hide DoTeardown, CanTeardown, DoWork, CanWork;
  }

  /** The entry of a descriptor that a step does not work on stays in the table. */
  lemma IdStays(s: Vm, a: Act, id: nat, o: nat)
    requires Inv(s) && Enabled(s, a) && id in s.idr && s.idr[id] == o && Touched(s, a) != Some(o)
    ensures id in Do(s, a).idr && Do(s, a).idr[id] == o
  {
    assert IdrInv(s);
    hide Inv, IdrInv, DoThread, CanThread, TouchedByThread, DoTeardown, CanTeardown, TouchedByTeardown, DoWork, CanWork, TouchedByWork;
    if ByThread(a) { ThreadIds(s, a, id, o); } else if ByTeardown(a) { TeardownIds(s, a, id, o); } else { WorkIds(s, a, id, o); }
  }

  lemma ThreadIds(s: Vm, a: Act, id: nat, o: nat)
    requires IdrInv(s) && CanThread(s, a) && id in s.idr && s.idr[id] == o && TouchedByThread(s, a) != Some(o)
    ensures id in DoThread(s, a).idr && DoThread(s, a).idr[id] == o
  {
    if WithDescriptor(a) {
      WorkingIds(s, a, id, o);
    } else {
      hide Shelve, Unshelve, Free;
    }
  }

  lemma WorkingIds(s: Vm, a: Act, id: nat, o: nat)
    requires WithDescriptor(a) && CanThread(s, a) && id in s.idr && s.idr[id] == o && TouchedByThread(s, a) != Some(o)
    ensures id in DoThread(s, a).idr && DoThread(s, a).idr[id] == o
  {
    hide Own, Shelve, Unshelve, Free;
  }

  lemma TeardownIds(s: Vm, a: Act, id: nat, o: nat)
    requires CanTeardown(s, a) && id in s.idr && s.idr[id] == o && TouchedByTeardown(s, a) != Some(o)
    ensures id in DoTeardown(s, a).idr && DoTeardown(s, a).idr[id] == o
  {
    hide Own, Move, Unshelve, Free;
  }

  lemma WorkIds(s: Vm, a: Act, id: nat, o: nat)
    requires CanWork(s, a) && id in s.idr && s.idr[id] == o && TouchedByWork(s, a) != Some(o)
    ensures id in DoWork(s, a).idr && DoWork(s, a).idr[id] == o
  {
    hide Own, Free, ReclaimSet;
  }

  lemma {:induction false} FreeFor(ss: seq<Vm>, steps: seq<Act>, o: nat, i: nat, j: nat)
    requires IsRun(ss, steps) && i <= j < |ss| && o < ss[i].next && o !in ss[i].heap
    ensures o < ss[j].next && o !in ss[j].heap
    decreases j
  {
    hide Start, Leads;
    if i < j {
      FreeFor(ss, steps, o, i, j - 1);
      FreeAt(ss, steps, o, j - 1);
    }
  }

  lemma FreeAt(ss: seq<Vm>, steps: seq<Act>, o: nat, i: nat)
    requires IsRun(ss, steps) && i < |steps| && o < ss[i].next
    ensures o < ss[i + 1].next && (o !in ss[i].heap ==> o !in ss[i + 1].heap)
  {
    RunStep(ss, steps, i);
    RunInv(ss, steps, i);
    hide IsRun, Inv, Enabled, Do, Allowed;
    StaysFree(ss[i], steps[i], o);
  }

  /**
   Whatever threads, contexts and the worker do: no freed descriptor is touched, nothing is taken
   from a list it is not in, every id removed from the table is the descriptor's own, the table
   leads only to live descriptors, and a descriptor freed once is never live, or freed, again.
   */
  lemma {:induction false} SingleFree(ss: seq<Vm>, steps: seq<Act>, o: nat, i: nat, j: nat)
    requires IsRun(ss, steps) && i < j < |ss|
    ensures !ss[j].fault && forall id :: id in ss[j].idr ==> ss[j].idr[id] in ss[j].heap
    ensures o in ss[i].heap && o !in ss[i + 1].heap ==> o !in ss[j].heap
  {
    RunInv(ss, steps, i);
    RunInv(ss, steps, j);
    assert IdrInv(ss[j]);
    if o in ss[i].heap && o !in ss[i + 1].heap {
      assert ObjInv(ss[i], o, ss[i].heap[o]);
      hide Inv, Do, Start, Leads;
      FreeAt(ss, steps, o, i);
      FreeFor(ss, steps, o, i + 1, j);
    }
  }

  // ---------------------------------------------------------------- reclaim

  /** A descriptor whose exporter is gone and whose importer has let go of it. */
  predicate Orphan(s: Vm, o: nat) {
    o in s.heap && s.heap[o].place == ReclaimList && !s.heap[o].imported
  }

  /** The worker is about to run: pending, or somebody is about to schedule it. */
  predicate Awaited(s: Vm) {
    || s.pending
    || (exists t :: t in s.threads && s.threads[t] == Marking)
    || (exists c :: c in s.ctxs && s.ctxs[c] == Scheduling)
  }

  predicate BeingScanned(s: Vm, o: nat) { s.work.Scanning? && o in s.work.todo }

  /** Every orphan has a reclaim run pending, in progress or about to be scheduled. */
  predicate Covered(s: Vm) { forall o :: o in s.heap && Orphan(s, o) ==> Awaited(s) || BeingScanned(s, o) }

  /** UNIMPORT of a descriptor on the reclaim list does not find a virtual channel. */
  predicate OrphanPath(s: Vm, a: Act) {
    a.RecvUnimport? && a.vchan && a.id in s.idr && s.idr[a.id] in s.heap ==> s.heap[s.idr[a.id]].place != ReclaimList
  }

  /** The exact case in which an UNIMPORT leaves an orphan nobody will collect. */
  predicate Strands(s: Vm, id: nat, vchan: bool) {
    && vchan && id in s.idr && s.idr[id] in s.heap && s.heap[s.idr[id]].place == ReclaimList
    && !Awaited(s) && !BeingScanned(s, s.idr[id])
  }

  /** An UNIMPORT keeps every orphan covered unless it is this case; in this case it never does. */
  lemma StrandedExactly(s: Vm, t: nat, id: nat, vchan: bool)
    requires Inv(s) && Covered(s) && Enabled(s, RecvUnimport(t, id, vchan))
    ensures Covered(Do(s, RecvUnimport(t, id, vchan))) <==> !Strands(s, id, vchan)
  {
    hide ObjInv, ThreadInv, PhaseInv, WorkInv;
    var s' := Do(s, RecvUnimport(t, id, vchan));
    if vchan {
      assert Awaited(s') <==> Awaited(s);
      if Strands(s, id, vchan) { assert Orphan(s', s.idr[id]); }
    } else {
      assert s'.threads[t] == Marking;
    }
  }

  lemma CoveredStep(s: Vm, a: Act)
    requires Inv(s) && Covered(s) && Enabled(s, a) && OrphanPath(s, a)
    ensures Covered(Do(s, a))
  {
    if a.RecvUnimport? {
      StrandedExactly(s, a.t, a.id, a.vchan);
    } else if a.ScanOne? {
      CoveredByScan(s, a.o);
    } else if !a.WorkStart? {
      hide Inv, Do, Enabled;
      forall o | o in Do(s, a).heap && Orphan(Do(s, a), o)
        ensures Awaited(Do(s, a)) || BeingScanned(Do(s, a), o)
      {
        if Awaited(s) { AwaitedKept(s, a); }
        OrphanBefore(s, a, o);
      }
    }
  }

  lemma CoveredByScan(s: Vm, x: nat)
    requires Inv(s) && Covered(s) && Enabled(s, ScanOne(x))
    ensures Covered(Do(s, ScanOne(x)))
  {
    hide DoThread, CanThread, DoTeardown, CanTeardown;
    hide ObjInv, ThreadInv, PhaseInv, IdrInv, InIdr;
    var s' := Do(s, ScanOne(x));
    assert Awaited(s') <==> Awaited(s);
    hide Awaited;
    forall o | o in s'.heap && Orphan(s', o) ensures Awaited(s') || BeingScanned(s', o) {
      assert o != x && Orphan(s, o);
    }
  }

  lemma AwaitedKept(s: Vm, a: Act)
    requires Inv(s) && Enabled(s, a) && Awaited(s) && !a.WorkStart?
    ensures Awaited(Do(s, a))
  {
    Frame(s, a);
    if a.Schedule? || a.CtxSchedule? {
      hide Inv;
      assert Do(s, a).pending;
    } else if !s.pending {
      hide Inv;
      if t :| t in s.threads && s.threads[t] == Marking {
        hide Framed;
        MarkingStays(s, a, t);
        hide Do, Enabled;
      } else {
        var c :| c in s.ctxs && s.ctxs[c] == Scheduling;
        SchedulingStays(s, a, c);
        hide Do, Enabled, Framed;
      }
    }
  }

  lemma SchedulingStays(s: Vm, a: Act, c: nat)
    requires Enabled(s, a) && Framed(s, a, Do(s, a)) && !a.CtxSchedule? && c in s.ctxs && s.ctxs[c] == Scheduling
    ensures c in Do(s, a).ctxs && Do(s, a).ctxs[c] == Scheduling
  {
    assert !ByTeardown(a) || a.c != c;
    hide Do;
  }

  lemma MarkingStays(s: Vm, a: Act, t: nat)
    requires Enabled(s, a) && !a.Schedule? && t in s.threads && s.threads[t] == Marking
    ensures t in Do(s, a).threads && Do(s, a).threads[t] == Marking
  {
    hide Own, Move, Shelve, Unshelve, RemoveId, Free, Importable, DoTeardown, CanTeardown, DoWork, CanWork;
    if !ByThread(a) { MarkingUnmoved(s, a); }
  }

  lemma MarkingUnmoved(s: Vm, a: Act)
    requires Enabled(s, a) && !ByThread(a)
    ensures Do(s, a).threads == s.threads
  {
    hide DoThread, CanThread, DoTeardown, CanTeardown, DoWork, CanWork, Still;
    if ByTeardown(a) { TeardownFrame(s, a); } else { WorkFrame(s, a); }
  }

  /** Only a context that puts a descriptor on the list, and an UNIMPORT, make an orphan. */
  lemma OrphanBefore(s: Vm, a: Act, o: nat)
    requires Inv(s) && Enabled(s, a) && !a.RecvUnimport? && !a.ScanOne? && !a.WorkStart?
    requires o in Do(s, a).heap && Orphan(Do(s, a), o)
    ensures (Orphan(s, o) && (BeingScanned(s, o) ==> BeingScanned(Do(s, a), o))) || Awaited(Do(s, a))
  {
    if a.Keep? {
      assert Do(s, a).ctxs[a.c] == Scheduling;
    } else {
      Frame(s, a);
      OrphanWas(s, a, o);
      ScanGoesOn(s, a);
      hide Inv, Do, Enabled, Awaited;
    }
  }

  lemma OrphanWas(s: Vm, a: Act, o: nat)
    requires Inv(s) && Enabled(s, a) && !a.Keep? && !a.RecvUnimport? && !a.ScanOne? && o in Do(s, a).heap && Orphan(Do(s, a), o)
    ensures Orphan(s, o)
  {
    Frame(s, a);
    FreshObj(s);
    hide Inv, DoThread, CanThread, DoTeardown, CanTeardown, DoWork, CanWork;
    if Touched(s, a) == Some(o) || o !in s.heap {
      hide Framed;
      if ByThread(a) { ThreadOrphan(s, a, o); } else if ByTeardown(a) { TeardownOrphan(s, a, o); } else { WorkOrphan(s, a, o); }
    }
  }

  lemma ThreadOrphan(s: Vm, a: Act, o: nat)
    requires CanThread(s, a) && !a.RecvUnimport? && o in DoThread(s, a).heap && Orphan(DoThread(s, a), o)
    ensures Orphan(s, o)
  {
    hide RemoveId;
  }

  lemma TeardownOrphan(s: Vm, a: Act, o: nat)
    requires CanTeardown(s, a) && !a.Keep? && o in DoTeardown(s, a).heap && Orphan(DoTeardown(s, a), o)
    ensures Orphan(s, o)
  {
    hide RemoveId;
  }

  lemma WorkOrphan(s: Vm, a: Act, o: nat)
    requires CanWork(s, a) && !a.ScanOne? && o in DoWork(s, a).heap && Orphan(DoWork(s, a), o)
    ensures Orphan(s, o)
  {
    hide RemoveId, ReclaimSet;
  }

  lemma ScanGoesOn(s: Vm, a: Act)
    requires Enabled(s, a) && !a.ScanOne? && !a.WorkStart?
    ensures s.work.Scanning? && s.work.todo != {} ==> Do(s, a).work == s.work
  {
    hide Own, Move, Shelve, Unshelve, RemoveId, Free, Importable, Unexportable;
  }

  /** If UNIMPORT for an orphaned export takes the no-vchan path, no orphan is ever left behind. */
  lemma {:induction false} ReclaimCompleteness(ss: seq<Vm>, steps: seq<Act>, n: nat)
    requires IsRun(ss, steps) && n < |ss|
    requires forall i :: 0 <= i < n ==> OrphanPath(ss[i], steps[i])
    ensures Covered(ss[n])
  {
    if n == 0 {
      NoOrphans(ss[0]);
    } else {
      hide Start, Leads, Covered, OrphanPath;
      ReclaimCompleteness(ss, steps, n - 1);
      CoveredAt(ss, steps, n - 1);
    }
  }

  lemma NoOrphans(s: Vm)
    ensures Start(s) ==> Covered(s)
  {
  }

  lemma CoveredAt(ss: seq<Vm>, steps: seq<Act>, i: nat)
    requires IsRun(ss, steps) && i < |steps| && Covered(ss[i]) && OrphanPath(ss[i], steps[i])
    ensures Covered(ss[i + 1])
  {
    RunStep(ss, steps, i);
    RunInv(ss, steps, i);
    hide IsRun, Inv, Enabled, Do, Allowed, Covered, OrphanPath;
    CoveredStep(ss[i], steps[i]);
  }

  /** An orphan the current run of the worker is to release, or has released. */
  predicate InPass(s: Vm, o: nat) {
    && o < s.next
    && (o in s.heap ==> s.heap[o].owner == Worker || (Orphan(s, o) && BeingScanned(s, o)))
  }

  lemma InPassStep(s: Vm, a: Act, o: nat)
    requires Inv(s) && Enabled(s, a) && Allowed(s, a) && InPass(s, o)
    ensures InPass(Do(s, a), o)
  {
    StaysFree(s, a, o);
    if o in s.heap {
      if ByWorker(a) {
        InPassWork(s, a, o);
      } else {
        Frame(s, a);
        if Touched(s, a) == Some(o) { NotTouched(s, a, o); }
        hide Inv, Do, Enabled;
      }
    }
  }

  lemma InPassWork(s: Vm, a: Act, o: nat)
    requires Inv(s) && ByWorker(a) && Enabled(s, a) && InPass(s, o) && o in s.heap && o < Do(s, a).next
    ensures InPass(Do(s, a), o)
  {
    hide DoThread, CanThread, DoTeardown, CanTeardown, ObjInv, ThreadInv, PhaseInv, IdrInv, InIdr;
    if a.ScanOne? {
      hide DoWork, CanWork;
      InPassScan(s, a.o, o);
    } else {
      hide ReclaimSet;
    }
  }

  lemma InPassScan(s: Vm, x: nat, o: nat)
    requires WorkInv(s) && Enabled(s, ScanOne(x)) && InPass(s, o) && o in s.heap
    ensures InPass(Do(s, ScanOne(x)), o)
  {
    hide DoThread, CanThread, DoTeardown, CanTeardown, InIdr;
  }

  /** Threads and contexts work on other descriptors, or clear `remote_imported` again. */
  lemma NotTouched(s: Vm, a: Act, o: nat)
    requires Inv(s) && !ByWorker(a) && Enabled(s, a) && Allowed(s, a) && InPass(s, o) && o in s.heap && Touched(s, a) == Some(o)
    ensures InPass(Do(s, a), o)
  {
    if ByTeardown(a) {
      NotContexts(s, a, o);
    } else {
      NotThreads(s, a, o);
    }
  }

  lemma NotContexts(s: Vm, a: Act, o: nat)
    requires Inv(s) && ByTeardown(a) && Enabled(s, a) && InPass(s, o) && o in s.heap
    ensures Touched(s, a) != Some(o)
  {
    hide CanThread, CanWork, ObjInv, PhaseInv, InPass;
    assert a.c in s.ctxs by { hide Inv; }
    assert ObjInv(s, o, s.heap[o]) && PhaseInv(s, a.c, s.ctxs[a.c]);
    hide Inv, Enabled;
    NotPicked(s, a, o);
  }

  lemma NotPicked(s: Vm, a: Act, o: nat)
    requires CanTeardown(s, a) && InPass(s, o) && o in s.heap && ObjInv(s, o, s.heap[o]) && PhaseInv(s, a.c, s.ctxs[a.c])
    ensures TouchedByTeardown(s, a) != Some(o)
  {
    hide InIdr;
  }

  lemma NotThreads(s: Vm, a: Act, o: nat)
    requires Inv(s) && ByThread(a) && Enabled(s, a) && Allowed(s, a) && InPass(s, o) && o in s.heap && Touched(s, a) == Some(o)
    ensures InPass(Do(s, a), o)
  {
    hide DoThread, CanTeardown, CanWork, ObjInv;
    assert ObjInv(s, o, s.heap[o]) && IdrInv(s);
    if WithDescriptor(a) {
      NotPassed(s, a.t);
    } else {
      hide Inv;
      PassLooked(s, a, o);
    }
  }

  lemma PassLooked(s: Vm, a: Act, o: nat)
    requires CanThread(s, a) && !WithDescriptor(a) && Allowed(s, a) && InPass(s, o) && o in s.heap && ObjInv(s, o, s.heap[o])
    requires IdrInv(s) && TouchedByThread(s, a) == Some(o)
    ensures InPass(DoThread(s, a), o)
  {
    hide RemoveId;
  }

  /** What a thread works on is neither the worker's nor on the reclaim list. */
  lemma NotPassed(s: Vm, t: nat)
    requires Inv(s) && t in s.threads
    ensures !s.threads[t].Marking? ==>
      var o := s.threads[t].o; o in s.heap && s.heap[o].owner != Worker && s.heap[o].place != ReclaimList
  {
    hide ObjInv, PhaseInv, WorkInv, IdrInv, InIdr;
    assert ThreadInv(s, t, s.threads[t]);
  }

  lemma {:induction false} PassKeeps(ss: seq<Vm>, steps: seq<Act>, o: nat, i: nat, j: nat)
    requires IsRun(ss, steps) && i <= j < |ss| && InPass(ss[i], o)
    ensures InPass(ss[j], o)
    decreases j
  {
    hide Start, Leads, InPass;
    if i < j {
      PassKeeps(ss, steps, o, i, j - 1);
      PassAt(ss, steps, o, j - 1);
    }
  }

  lemma PassAt(ss: seq<Vm>, steps: seq<Act>, o: nat, i: nat)
    requires IsRun(ss, steps) && i < |steps| && InPass(ss[i], o)
    ensures InPass(ss[i + 1], o)
  {
    RunStep(ss, steps, i);
    RunInv(ss, steps, i);
    hide IsRun, Inv, Enabled, Do, Allowed, InPass;
    InPassStep(ss[i], steps[i], o);
  }

  /**
   A run of the worker releases every orphan that is on the list when it starts, whatever else
   happens meanwhile: by the time the worker is idle again the descriptor is freed and no id leads to it.
   */
  lemma {:induction false} PassReleases(ss: seq<Vm>, steps: seq<Act>, o: nat, i: nat, j: nat)
    requires IsRun(ss, steps) && i < j < |ss| && steps[i] == WorkStart && ss[j].work == Idle
    requires o in ss[i].heap && Orphan(ss[i], o)
    ensures o !in ss[j].heap && forall id :: id in ss[j].idr ==> ss[j].idr[id] != o
  {
    RunInv(ss, steps, i);
    RunInv(ss, steps, j);
    assert ObjInv(ss[i], o, ss[i].heap[o]);
    RunStep(ss, steps, i);
    assert InPass(ss[i + 1], o);
    hide IsRun;
    PassKeeps(ss, steps, o, i + 1, j);
    assert o in ss[j].heap ==> ObjInv(ss[j], o, ss[j].heap[o]);
    assert IdrInv(ss[j]);
  }

  /** Context 0 with one descriptor, number 0, export id 1, beside context 1, which stays open. */
  function Snapshot(success: bool, imported: bool, place: Place, owner: Owner, ph: Phase, threads: map<nat, Pc>, work: Work, pending: bool): Vm {
    Vm(map[0 := Exp(1, 0, 0, 1, success, imported, place, owner)], 1, map[1 := 0], map[0 := ph, 1 := Open], threads, work, pending, false)
  }

  function StrandingSteps(): (r: seq<Act>)
    ensures |r| == 13
  {
    [Alloc(0, 0, 1, 1), List(0), Succeed(0), RecvImport(0, 1, 1), BeginFree(0), Pick(0, 0), Keep(0),
     CtxSchedule(0), WorkStart, ScanOne(0), ScanDone, WorkEnd, RecvUnimport(0, 1, true)]
  }

  function StrandingStates(): (r: seq<Vm>)
    ensures |r| == 14
  {
    [Vm(map[], 0, map[], map[0 := Open, 1 := Open], map[], Idle, false, false),
     Snapshot(false, false, Detached, Thread(0), Open, map[0 := Exporting(0, 0)], Idle, false),
     Snapshot(false, false, Warehouse, Thread(0), Open, map[0 := Listing(0, 0)], Idle, false),
     Snapshot(true, false, Warehouse, Nobody, Open, map[], Idle, false),
     Snapshot(true, true, Warehouse, Nobody, Open, map[], Idle, false),
     Snapshot(true, true, Warehouse, Nobody, Walking, map[], Idle, false),
     Snapshot(true, true, Detached, Context(0), Keeping(0), map[], Idle, false),
     Snapshot(true, true, ReclaimList, Nobody, Scheduling, map[], Idle, false),
     Snapshot(true, true, ReclaimList, Nobody, Walking, map[], Idle, true),
     Snapshot(true, true, ReclaimList, Nobody, Walking, map[], Scanning({0}, {}), false),
     Snapshot(true, true, ReclaimList, Nobody, Walking, map[], Scanning({}, {}), false),
     Snapshot(true, true, ReclaimList, Nobody, Walking, map[], Reaping({}), false),
     Snapshot(true, true, ReclaimList, Nobody, Walking, map[], Idle, false),
     Snapshot(true, false, ReclaimList, Nobody, Walking, map[], Idle, false)]
  }

  lemma AllocStep()
    ensures Leads(StrandingStates()[0], StrandingSteps()[0], StrandingStates()[1])
  {
    hide DoTeardown, CanTeardown, DoWork, CanWork;
  }

  lemma ListStep()
    ensures Leads(StrandingStates()[1], StrandingSteps()[1], StrandingStates()[2])
  {
    hide DoTeardown, CanTeardown, DoWork, CanWork;
  }

  lemma SucceedStep()
    ensures Leads(StrandingStates()[2], StrandingSteps()[2], StrandingStates()[3])
  {
    hide DoTeardown, CanTeardown, DoWork, CanWork;
  }

  lemma ImportStep()
    ensures Leads(StrandingStates()[3], StrandingSteps()[3], StrandingStates()[4])
  {
    hide DoTeardown, CanTeardown, DoWork, CanWork;
  }

  lemma BeginFreeStep()
    ensures Leads(StrandingStates()[4], StrandingSteps()[4], StrandingStates()[5])
  {
    hide DoThread, CanThread, DoWork, CanWork;
  }

  lemma PickStep()
    ensures Leads(StrandingStates()[5], StrandingSteps()[5], StrandingStates()[6])
  {
    hide DoThread, CanThread, DoWork, CanWork;
  }

  lemma KeepStep()
    ensures Leads(StrandingStates()[6], StrandingSteps()[6], StrandingStates()[7])
  {
    hide DoThread, CanThread, DoWork, CanWork;
  }

  lemma ScheduleStep()
    ensures Leads(StrandingStates()[7], StrandingSteps()[7], StrandingStates()[8])
  {
    hide DoThread, CanThread, DoWork, CanWork;
  }

  lemma WorkStep()
    ensures Leads(StrandingStates()[8], StrandingSteps()[8], StrandingStates()[9])
  {
    hide DoThread, CanThread, DoTeardown, CanTeardown;
    assert ReclaimSet(StrandingStates()[8]) == {0};
  }

  lemma ScanStep()
    ensures Leads(StrandingStates()[9], StrandingSteps()[9], StrandingStates()[10])
  {
    hide DoThread, CanThread, DoTeardown, CanTeardown;
    assert {0} - {0} == {};
  }

  lemma ScannedStep()
    ensures Leads(StrandingStates()[10], StrandingSteps()[10], StrandingStates()[11])
  {
    hide DoThread, CanThread, DoTeardown, CanTeardown;
  }

  lemma IdleStep()
    ensures Leads(StrandingStates()[11], StrandingSteps()[11], StrandingStates()[12])
  {
    hide DoThread, CanThread, DoTeardown, CanTeardown;
  }

  lemma UnimportStep()
    ensures Leads(StrandingStates()[12], StrandingSteps()[12], StrandingStates()[13])
  {
    hide DoTeardown, CanTeardown, DoWork, CanWork;
    assert StrandingStates()[12].ctxs[1] == Open;
  }

  lemma StrandingEnds()
    ensures Start(StrandingStates()[0]) && !Covered(StrandingStates()[13])
  {
    var s := StrandingStates()[13];
    assert Orphan(s, 0) && !Awaited(s);
  }

  /** If that UNIMPORT takes the path of a live virtual channel instead, the orphan is stranded. */
  lemma StrandedRun()
    ensures exists ss, steps :: IsRun(ss, steps) && !Covered(ss[|steps|])
  {
    var ss, steps := StrandingStates(), StrandingSteps();
    hide Start, Covered, Leads, StrandingStates, StrandingSteps;
    StrandingEnds();
    AllocStep(); ListStep(); SucceedStep(); ImportStep(); BeginFreeStep();
    PickStep(); KeepStep(); ScheduleStep(); WorkStep(); ScanStep();
    ScannedStep(); IdleStep(); UnimportStep();
    assert IsRun(ss, steps);
  }
}
