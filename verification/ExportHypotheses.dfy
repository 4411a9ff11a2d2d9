/**
 The exporter's hypotheses on its environment, and that each of them is needed.  A descriptor that
 outlives its context keeps pointing to it, and an IMPORT redirects that pointer to the context whose
 virtual channel it came over, while unexport does no more than compare it with the calling context.
 */
module ExportHypotheses {
  import E = ExportSide
  import R = ExportRuns

  /** Something an earlier context at address `c` left behind still points to `c`. */
  predicate Dangling(s: E.Vm, c: nat) { exists o :: o in s.heap && E.Stale(s, o) && s.heap[o].ctx == c }

  /** No context is allocated at an address that is still pointed to. */
  predicate FreshContext(s: E.Vm, a: E.Act) { a.Reopen? ==> !Dangling(s, a.c) }

  /** What outlived its context points to no open one. */
  predicate Apart(s: E.Vm) { forall c :: c in s.ctxs && s.ctxs[c] == E.Open ==> !Dangling(s, c) }

  // ---------------------------------------------------------------- fresh addresses suffice

  lemma OpenBefore(s: E.Vm, a: E.Act, c: nat)
    requires E.Enabled(s, a) && !a.Reopen? && s.next !in s.heap && c in E.Do(s, a).ctxs && E.Do(s, a).ctxs[c] == E.Open
    ensures c in s.ctxs && s.ctxs[c] == E.Open
  {
    hide E.DoThread, E.CanThread, E.DoTeardown, E.CanTeardown, E.DoWork, E.CanWork, E.Still;
    if E.ByThread(a) {
      E.ThreadFrame(s, a);
    } else if E.ByTeardown(a) {
      OpenBeforeTeardown(s, a, c);
    } else {
      E.WorkFrame(s, a);
    }
  }

  lemma OpenBeforeTeardown(s: E.Vm, a: E.Act, c: nat)
    requires E.CanTeardown(s, a) && !a.Reopen? && c in E.DoTeardown(s, a).ctxs && E.DoTeardown(s, a).ctxs[c] == E.Open
    ensures c in s.ctxs && s.ctxs[c] == E.Open
  {
    hide E.Own, E.Move, E.Unshelve, E.RemoveId, E.Free;
  }

  /** Only a context being freed makes a descriptor stale, and no step redirects a stale one. */
  lemma StaleBefore(s: E.Vm, a: E.Act, o: nat)
    requires E.Inv(s) && E.Enabled(s, a) && E.SameVchan(s, a) && !a.Keep? && E.Stale(E.Do(s, a), o)
    ensures E.Stale(s, o) && E.Do(s, a).heap[o].ctx == s.heap[o].ctx
  {
    E.FreshObj(s);
    hide E.Inv, E.DoThread, E.CanThread, E.DoTeardown, E.CanTeardown, E.DoWork, E.CanWork, E.SameVchan;
    if E.ByThread(a) {
      StaleBeforeThread(s, a, o);
    } else if E.ByTeardown(a) {
      StaleBeforeTeardown(s, a, o);
    } else {
      StaleBeforeWork(s, a, o);
    }
  }

  lemma StaleBeforeThread(s: E.Vm, a: E.Act, o: nat)
    requires E.CanThread(s, a) && E.SameVchan(s, a) && s.next !in s.heap && E.Stale(E.DoThread(s, a), o)
    ensures E.Stale(s, o) && E.DoThread(s, a).heap[o].ctx == s.heap[o].ctx
  {
    hide E.RemoveId;
    if E.WithDescriptor(a) {
      StaleBeforeWorking(s, a, o);
      hide E.DoThread, E.CanThread;
    }
  }

  lemma StaleBeforeWorking(s: E.Vm, a: E.Act, o: nat)
    requires E.WithDescriptor(a) && E.CanThread(s, a) && E.Stale(E.DoThread(s, a), o)
    ensures E.Stale(s, o) && E.DoThread(s, a).heap[o].ctx == s.heap[o].ctx
  {
    hide E.RemoveId;
  }

  lemma StaleBeforeTeardown(s: E.Vm, a: E.Act, o: nat)
    requires E.CanTeardown(s, a) && !a.Keep? && E.Stale(E.DoTeardown(s, a), o)
    ensures E.Stale(s, o) && E.DoTeardown(s, a).heap[o].ctx == s.heap[o].ctx
  {
    hide E.RemoveId;
  }

  lemma StaleBeforeWork(s: E.Vm, a: E.Act, o: nat)
    requires E.CanWork(s, a) && E.Stale(E.DoWork(s, a), o)
    ensures E.Stale(s, o) && E.DoWork(s, a).heap[o].ctx == s.heap[o].ctx
  {
    hide E.RemoveId, E.ReclaimSet;
    if a.ScanOne? {
      StaleBeforeScan(s, a.o, o);
      hide E.DoWork, E.CanWork;
    }
  }

  lemma StaleBeforeScan(s: E.Vm, x: nat, o: nat)
    requires E.CanWork(s, E.ScanOne(x)) && E.Stale(E.DoWork(s, E.ScanOne(x)), o)
    ensures E.Stale(s, o) && E.DoWork(s, E.ScanOne(x)).heap[o].ctx == s.heap[o].ctx
  {
    hide E.RemoveId, E.ReclaimSet, E.Free;
    if o != x { hide E.Own, E.Move; }
  }

  lemma ApartKept(s: E.Vm, a: E.Act)
    requires E.Inv(s) && Apart(s) && E.Enabled(s, a) && E.SameVchan(s, a) && FreshContext(s, a)
    ensures Apart(E.Do(s, a))
  {
    var s' := E.Do(s, a);
    E.FreshObj(s);
    hide E.Inv, E.Enabled, E.Do, E.SameVchan;
    forall c, o | c in s'.ctxs && s'.ctxs[c] == E.Open && E.Stale(s', o) ensures s'.heap[o].ctx != c {
      if a.Keep? {
        KeepsApart(s, a.c, c, o);
      } else {
        StaleBefore(s, a, o);
        if a.Reopen? { OnlyReopened(s, a.c, c); } else { OpenBefore(s, a, c); }
      }
    }
  }

  lemma OnlyReopened(s: E.Vm, c0: nat, c: nat)
    requires E.Enabled(s, E.Reopen(c0)) && c in E.Do(s, E.Reopen(c0)).ctxs && E.Do(s, E.Reopen(c0)).ctxs[c] == E.Open
    ensures c == c0 || (c in s.ctxs && s.ctxs[c] == E.Open)
  {
    hide E.DoThread, E.CanThread, E.DoWork, E.CanWork;
  }

  /** What a context puts on the reclaim list is its own, and it is not open. */
  lemma KeepsApart(s: E.Vm, c0: nat, c: nat, o: nat)
    requires E.Inv(s) && Apart(s) && E.Enabled(s, E.Keep(c0))
    requires
      var s' := E.Do(s, E.Keep(c0));
      c in s'.ctxs && s'.ctxs[c] == E.Open && E.Stale(s', o)
    ensures E.Do(s, E.Keep(c0)).heap[o].ctx != c
  {
    E.KeepEffect(s, c0);
    hide E.Inv, E.Enabled, E.Do;
  }

  predicate Moves(s: E.Vm, a: E.Act, s': E.Vm) { E.Enabled(s, a) && E.SameVchan(s, a) && s' == E.Do(s, a) }

  lemma OwnApart(s: E.Vm, a: E.Act)
    requires E.Inv(s) && Apart(s) && E.Enabled(s, a)
    ensures E.OwnUnexport(s, a)
  {
    hide E.Inv;
  }

  lemma MovesInv(s: E.Vm, a: E.Act, s': E.Vm)
    requires E.Inv(s) && Apart(s) && Moves(s, a, s') && FreshContext(s, a)
    ensures E.Inv(s') && Apart(s') && R.Leads(s, a, s')
  {
    OwnApart(s, a);
    hide E.Inv, E.Enabled, E.Do, E.SameVchan, E.OwnUnexport, Apart, FreshContext;
    E.DoInv(s, a);
    ApartKept(s, a);
  }

  predicate IsFreshRun(ss: seq<E.Vm>, steps: seq<E.Act>) {
    && |ss| == |steps| + 1 && R.Start(ss[0])
    && forall i :: 0 <= i < |steps| ==> Moves(ss[i], steps[i], ss[i + 1]) && FreshContext(ss[i], steps[i])
  }

  /** If contexts are allocated at fresh addresses only, no unexport ever finds what another context left behind. */
  lemma {:induction false} FreshRuns(ss: seq<E.Vm>, steps: seq<E.Act>, n: nat)
    requires IsFreshRun(ss, steps) && n < |ss|
    ensures E.Inv(ss[n]) && Apart(ss[n])
    ensures forall i :: 0 <= i < n ==> E.OwnUnexport(ss[i], steps[i])
    ensures R.IsRun(ss[..n + 1], steps[..n])
  {
    hide E.Inv, E.Enabled, E.Do, R.Start, R.Leads, E.SameVchan, E.OwnUnexport, FreshContext, Moves;
    if n == 0 {
      R.StartInv(ss[0]);
      StartApart(ss[0]);
    } else {
      hide Apart;
      FreshRuns(ss, steps, n - 1);
      assert Moves(ss[n - 1], steps[n - 1], ss[n]);
      MovesInv(ss[n - 1], steps[n - 1], ss[n]);
      LeadsOwn(ss[n - 1], steps[n - 1], ss[n]);
      assert ss[..n][..n] == ss[..n] && forall i :: 0 <= i < n - 1 ==> R.Leads(ss[..n][i], steps[..n - 1][i], ss[..n][i + 1]);
    }
  }

  lemma LeadsOwn(s: E.Vm, a: E.Act, s': E.Vm)
    requires R.Leads(s, a, s')
    ensures E.OwnUnexport(s, a)
  {
    hide E.Enabled, E.Do, E.SameVchan, E.OwnUnexport;
  }

  lemma StartApart(s: E.Vm)
    requires R.Start(s)
    ensures Apart(s)
  {
  }

  // ---------------------------------------------------------------- and what happens otherwise

  /** Which unexports fault: those that find a descriptor an earlier context left behind. */
  lemma UnexportExactly(s: E.Vm, t: nat, c: nat, id: nat)
    requires E.Inv(s) && E.Enabled(s, E.Unexport(t, c, id)) && E.Unexportable(s, c, id)
    ensures
      var s1 := E.Do(s, E.Unexport(t, c, id));
      E.Enabled(s1, E.Unlink(t)) && (E.Do(s1, E.Unlink(t)).fault <==> E.Stale(s, s.idr[id]))
  {
    var o := s.idr[id];
    if !E.Stale(s, o) { E.ImportFinds(s, o, c); }
    assert E.ObjInv(s, o, s.heap[o]) && s.heap[o].id == id;
    hide E.Inv, E.ObjInv, E.DoTeardown, E.CanTeardown, E.DoWork, E.CanWork;
  }

  /** What unexport does to a descriptor it may release. */
  lemma UnexportTo(s: E.Vm, t: nat, c: nat, o: nat)
    requires E.InIdr(s, o) && E.CanThread(s, E.Unexport(t, c, s.heap[o].id)) && E.Unexportable(s, c, s.heap[o].id)
    ensures E.Do(s, E.Unexport(t, c, s.heap[o].id))
         == s.(heap := s.heap[o := s.heap[o].(owner := E.Thread(t))], idr := s.idr - {s.heap[o].id}, threads := s.threads[t := E.Unlinking(c, o)])
  {
    hide E.DoTeardown, E.CanTeardown, E.DoWork, E.CanWork;
  }

  /** A descriptor that is not in the warehouse of context `c`. */
  predicate Misplaced(s: E.Vm, c: nat, o: nat) { o in s.heap && !(s.heap[o].place == E.Warehouse && s.heap[o].home == c) }

  lemma UnlinkTo(s: E.Vm, t: nat, c: nat, o: nat)
    requires t in s.threads && s.threads[t] == E.Unlinking(c, o) && o in s.heap && Misplaced(s, c, o)
    ensures E.Enabled(s, E.Unlink(t))
    ensures E.Do(s, E.Unlink(t)) == s.(fault := true, threads := s.threads[t := E.Revoking(c, o)])
  {
    hide E.DoTeardown, E.CanTeardown, E.DoWork, E.CanWork;
  }

  /** Unexport of such a descriptor: the next step takes it off whatever list it is in. */
  lemma UnexportEffect(s: E.Vm, t: nat, c: nat, o: nat) returns (s1: E.Vm, s2: E.Vm)
    requires E.InIdr(s, o) && E.CanThread(s, E.Unexport(t, c, s.heap[o].id)) && E.Unexportable(s, c, s.heap[o].id)
    requires Misplaced(s, c, o)
    ensures Moves(s, E.Unexport(t, c, s.heap[o].id), s1) && Moves(s1, E.Unlink(t), s2)
    ensures s2 == s.(fault := true, heap := s.heap[o := s.heap[o].(owner := E.Thread(t))], idr := s.idr - {s.heap[o].id},
                     threads := s.threads[t := E.Revoking(c, o)])
  {
    UnexportTo(s, t, c, o);
    s1 := E.Do(s, E.Unexport(t, c, s.heap[o].id));
    UnlinkTo(s1, t, c, o);
    s2 := E.Do(s1, E.Unlink(t));
    hide E.Do, E.CanTeardown, E.CanWork, E.InIdr;
  }

  lemma ReleaseTo(s: E.Vm, t: nat, c: nat, o: nat)
    requires t in s.threads && s.threads[t] == E.Revoking(c, o) && o in s.heap
    ensures Moves(s, E.Release(t), s.(heap := s.heap - {o}, threads := s.threads - {t}))
  {
    hide E.DoTeardown, E.CanTeardown, E.DoWork, E.CanWork;
  }

  /** It then frees the descriptor although the worker has it in hand and goes on to release it too. */
  lemma DoubleRelease(s: E.Vm, t: nat, c: nat, o: nat) returns (s1: E.Vm, s2: E.Vm, s3: E.Vm)
    requires E.Inv(s) && o in s.heap && E.CanThread(s, E.Unexport(t, c, s.heap[o].id)) && E.Unexportable(s, c, s.heap[o].id)
    requires s.work.Reaping? && o in s.work.found
    ensures Moves(s, E.Unexport(t, c, s.heap[o].id), s1) && Moves(s1, E.Unlink(t), s2) && Moves(s2, E.Release(t), s3)
    ensures o !in s3.heap && E.Enabled(s3, E.Reap(o)) && E.Do(s3, E.Reap(o)).fault
  {
    assert E.InIdr(s, o) && s.heap[o].place == E.FreeList;
    hide E.Inv, E.InIdr;
    s1, s2 := UnexportEffect(s, t, c, o);
    ReleaseTo(s2, t, c, o);
    s3 := s2.(heap := s2.heap - {o}, threads := s2.threads - {t});
    hide E.DoThread, E.CanThread, E.DoTeardown, E.CanTeardown, Moves;
    ReapGone(s3, o);
    hide *;
  }

  lemma ReapGone(s: E.Vm, o: nat)
    requires s.fault && s.work.Reaping? && o in s.work.found && o !in s.heap
    ensures E.Enabled(s, E.Reap(o)) && E.Do(s, E.Reap(o)).fault
  {
    hide E.DoThread, E.CanThread, E.DoTeardown, E.CanTeardown;
  }

  /** Steps that begin with `a`, every later one over the right channel and with contexts at fresh addresses. */
  predicate Path(ss: seq<E.Vm>, steps: seq<E.Act>, a: E.Act) {
    && |ss| == |steps| + 1 && |steps| > 0 && steps[0] == a && E.Enabled(ss[0], a) && ss[1] == E.Do(ss[0], a)
    && forall i :: 1 <= i < |steps| ==> Moves(ss[i], steps[i], ss[i + 1]) && FreshContext(ss[i], steps[i])
  }

  ghost predicate CanFail(s: E.Vm, a: E.Act) {
    exists ss: seq<E.Vm>, steps: seq<E.Act> :: Path(ss, steps, a) && ss[0] == s && ss[|steps|].fault
  }

  lemma {:induction false} PathInv(ss: seq<E.Vm>, steps: seq<E.Act>, a: E.Act, n: nat)
    requires Path(ss, steps, a) && n < |ss| && E.Inv(ss[0]) && Apart(ss[0])
    requires E.SameVchan(ss[0], a) && FreshContext(ss[0], a)
    ensures E.Inv(ss[n]) && Apart(ss[n])
  {
    hide E.Inv, Apart, E.Enabled, E.Do, E.SameVchan, FreshContext;
    if n == 1 {
      MovesInv(ss[0], a, ss[1]);
    } else if n > 1 {
      PathInv(ss, steps, a, n - 1);
      assert Moves(ss[n - 1], steps[n - 1], ss[n]);
      hide Moves;
      MovesInv(ss[n - 1], steps[n - 1], ss[n]);
    }
  }

  /** A strict upper bound of a finite set. */
  ghost function Above(s: set<nat>): (r: nat)
    ensures forall x :: x in s ==> x < r
  {
    if s == {} then 0
    else
      var x :| x in s;
      var r := Above(s - {x});
      assert forall y :: y in s ==> y == x || y in s - {x};
      if x < r then r else x + 1
  }

  /** UNIMPORT over a virtual channel of context `c` */
  lemma UnimportEffect(s: E.Vm, t: nat, c: nat, o: nat)
    requires t !in s.threads && c in s.ctxs && s.ctxs[c] == E.Open && E.InIdr(s, o)
    ensures Moves(s, E.RecvUnimport(t, s.heap[o].id, true), s.(heap := s.heap[o := s.heap[o].(imported := false)]))
  {
    hide E.DoTeardown, E.CanTeardown, E.DoWork, E.CanWork;
  }

  /** Once a descriptor points to an open context that does not have it, UNIMPORT and unexport lead to the fault. */
  lemma MisplacedFails(s: E.Vm, a: E.Act, s0: E.Vm, c: nat, o: nat)
    requires E.Enabled(s, a) && s0 == E.Do(s, a) && c in s0.ctxs && s0.ctxs[c] == E.Open
    requires E.InIdr(s0, o) && s0.heap[o].success && s0.heap[o].ctx == c && Misplaced(s0, c, o)
    ensures CanFail(s, a)
  {
    hide E.Enabled, E.Do;
    var t, id := Above(s0.threads.Keys), s0.heap[o].id;
    var s1 := s0.(heap := s0.heap[o := s0.heap[o].(imported := false)]);
    UnimportEffect(s0, t, c, o);
    var s2, s3 := UnexportEffect(s1, t, c, o);
    hide Moves;
    var ss, steps := [s, s0, s1, s2, s3], [a, E.RecvUnimport(t, id, true), E.Unexport(t, c, id), E.Unlink(t)];
    assert Path(ss, steps, a);
  }

  lemma ReuseFails(s: E.Vm, c: nat)
    requires E.Inv(s) && E.Enabled(s, E.Reopen(c)) && Dangling(s, c)
    ensures CanFail(s, E.Reopen(c))
  {
    var o :| o in s.heap && E.Stale(s, o) && s.heap[o].ctx == c;
    assert E.ObjInv(s, o, s.heap[o]);
    hide E.Inv, CanFail, E.DoThread, E.CanThread, E.DoWork, E.CanWork;
    MisplacedFails(s, E.Reopen(c), s.(ctxs := s.ctxs[c := E.Open]), c, o);
  }

  lemma ForeignFails(s: E.Vm, c: nat, id: nat, pages: nat)
    requires E.Inv(s) && E.Enabled(s, E.RecvImport(c, id, pages)) && E.Importable(s, id, pages) && s.heap[s.idr[id]].ctx != c
    ensures CanFail(s, E.RecvImport(c, id, pages))
  {
    var o := s.idr[id];
    assert E.ObjInv(s, o, s.heap[o]) && s.heap[o].id == id;
    hide E.Inv, CanFail, E.DoTeardown, E.CanTeardown, E.DoWork, E.CanWork;
    MisplacedFails(s, E.RecvImport(c, id, pages), s.(heap := s.heap[o := s.heap[o].(imported := true, ctx := c)]), c, o);
  }

  /**
   The hypotheses are exactly what safety needs: from any state reached under them, a step has a continuation
   to a fault if and only if it brings an IMPORT over another channel than the memory was exported on, or
   allocates a context at an address that something an earlier context left behind still points to.
   */
  lemma {:induction false} NeededExactly(s: E.Vm, a: E.Act)
    requires E.Inv(s) && Apart(s) && E.Enabled(s, a)
    ensures CanFail(s, a) <==> !(E.SameVchan(s, a) && FreshContext(s, a))
  {
    if !FreshContext(s, a) {
      hide E.Inv, CanFail, Apart;
      ReuseFails(s, a.c);
    } else if !E.SameVchan(s, a) {
      ForeignContext(s, a);
      hide E.Inv, CanFail, Apart;
      ForeignFails(s, a.c, a.id, a.pages);
    } else {
      hide E.Inv, Path, Apart, E.SameVchan, FreshContext;
      forall ss: seq<E.Vm>, steps: seq<E.Act> | Path(ss, steps, a) && ss[0] == s ensures !ss[|steps|].fault {
        PathInv(ss, steps, a, |steps|);
        InvNoFault(ss[|steps|]);
      }
    }
  }

  /** What an open context's own pointer leads to is not stale. */
  lemma ForeignContext(s: E.Vm, a: E.Act)
    requires Apart(s) && E.Enabled(s, a) && !E.SameVchan(s, a)
    ensures a.RecvImport? && E.Importable(s, a.id, a.pages) && s.heap[s.idr[a.id]].ctx != a.c
  {
    hide E.CanTeardown, E.CanWork;
  }

  lemma InvNoFault(s: E.Vm)
    requires E.Inv(s)
    ensures !s.fault
  {
  }

  /** The state after a context with an imported descriptor has been freed. */
  function Left(): E.Vm { R.Snapshot(true, true, E.ReclaimList, E.Nobody, E.Gone, map[], E.Idle, true) }

  function LeavingSteps(): (r: seq<E.Act>)
    ensures |r| == 9
  {
    R.StrandingSteps()[..8] + [E.EndFree(0)]
  }

  function LeavingStates(): (r: seq<E.Vm>)
    ensures |r| == 10
  {
    R.StrandingStates()[..9] + [Left()]
  }

  /** Such a state is reached: the memory was imported, and its exporter closed before the importer let go. */
  lemma ReuseRun()
    ensures exists ss, steps :: R.IsRun(ss, steps) && CanFail(ss[|steps|], E.Reopen(0))
  {
    LeftFails();
    LeavingEnds();
    LeavingRun();
    hide CanFail, R.IsRun, LeavingStates, LeavingSteps, Left;
    var ss, steps := LeavingStates(), LeavingSteps();
    assert R.IsRun(ss, steps) && CanFail(ss[|steps|], E.Reopen(0));
  }

  lemma LeavingEnds()
    ensures LeavingStates()[|LeavingSteps()|] == Left()
  {
    hide Left, R.StrandingStates;
  }

  lemma LeftFails()
    ensures CanFail(Left(), E.Reopen(0))
  {
    LeftDangles();
    hide CanFail, E.Inv;
    ReuseFails(Left(), 0);
  }

  lemma LeavingRun()
    ensures R.IsRun(LeavingStates(), LeavingSteps())
  {
    var ss, steps := LeavingStates(), LeavingSteps();
    hide R.Start, R.Leads, R.Covered, R.StrandingStates, R.StrandingSteps, Left;
    R.StrandingEnds();
    forall i | 0 <= i < |steps| ensures R.Leads(ss[i], steps[i], ss[i + 1]) {
      if i < 8 { LeavesLike(i); } else { EndFreeStep(); }
    }
  }

  lemma LeavesLike(i: nat)
    requires i < 8
    ensures R.Leads(R.StrandingStates()[i], R.StrandingSteps()[i], R.StrandingStates()[i + 1])
  {
    hide R.Leads, R.StrandingStates, R.StrandingSteps;
    R.AllocStep(); R.ListStep(); R.SucceedStep(); R.ImportStep(); R.BeginFreeStep(); R.PickStep(); R.KeepStep(); R.ScheduleStep();
  }

  lemma EndFreeStep()
    ensures R.Leads(R.StrandingStates()[8], E.EndFree(0), Left())
  {
    hide E.DoThread, E.CanThread, E.DoWork, E.CanWork;
  }

  lemma LeftDangles()
    ensures E.Inv(Left()) && Dangling(Left(), 0)
  {
    assert E.Stale(Left(), 0);
    assert E.InIdr(Left(), 0);
  }
}
