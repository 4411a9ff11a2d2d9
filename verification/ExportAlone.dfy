/**
 What the exporter's operations amount to when nothing interferes: each theorem follows one operation from its first
 step to its last and says in which state it ends.
 */
module ExportAlone {
  import opened ExportSide

  predicate Step(s: Vm, a: Act, s': Vm) { Enabled(s, a) && Do(s, a) == s' }

  /** The steps are possible one after the other and lead from `s` to `s'`. */
  predicate Does(s: Vm, acts: seq<Act>, s': Vm)
    decreases |acts|
  {
    if acts == [] then s == s' else Enabled(s, acts[0]) && Does(Do(s, acts[0]), acts[1..], s')
  }

  lemma Then(s: Vm, a: Act, s1: Vm, acts: seq<Act>, s2: Vm)
    requires Step(s, a, s1) && Does(s1, acts, s2)
    ensures Does(s, [a] + acts, s2)
  {
    hide Do, Enabled;
    assert ([a] + acts)[1..] == acts;
  }

  lemma One(s: Vm, a: Act, s1: Vm)
    requires Step(s, a, s1)
    ensures Does(s, [a], s1)
  {
    assert Does(s1, [], s1);
    hide Does, Step;
    Then(s, a, s1, [], s1);
    assert [a] + [] == [a];
  }

  lemma Two(s: Vm, a: Act, s1: Vm, b: Act, s2: Vm)
    requires Step(s, a, s1) && Step(s1, b, s2)
    ensures Does(s, [a, b], s2)
  {
    hide Does, Step;
    One(s1, b, s2);
    Then(s, a, s1, [b], s2);
    assert [a] + [b] == [a, b];
  }

  lemma Three(s: Vm, a: Act, s1: Vm, b: Act, s2: Vm, c: Act, s3: Vm)
    requires Step(s, a, s1) && Step(s1, b, s2) && Step(s2, c, s3)
    ensures Does(s, [a, b, c], s3)
  {
    hide Does, Step;
    Two(s1, b, s2, c, s3);
    Then(s, a, s1, [b, c], s3);
    assert [a] + [b, c] == [a, b, c];
  }

  lemma {:induction false} Joined(s: Vm, acts: seq<Act>, s1: Vm, more: seq<Act>, s2: Vm)
    requires Does(s, acts, s1) && Does(s1, more, s2)
    ensures Does(s, acts + more, s2)
    decreases |acts|
  {
    hide Do, Enabled;
    if acts == [] {
      assert acts + more == more;
    } else {
      Joined(Do(s, acts[0]), acts[1..], s1, more, s2);
      assert (acts + more)[1..] == acts[1..] + more && (acts + more)[0] == acts[0];
    }
  }

  // ---------------------------------------------------------------- export

  /** The states of an export of `pages` pages under this id, after `n` steps; 4 is an abandoned one. */
  function Stage(s: Vm, t: nat, c: nat, id: nat, pages: nat, n: nat): Vm {
    var o := s.next;
    var e := Exp(id, c, c, pages, n == 3, false, if n == 1 || n == 4 then Detached else Warehouse,
                 if n < 3 then Thread(t) else Nobody);
    s.(heap := s.heap[o := e], idr := s.idr[id := o], next := o + 1,
       threads := if n == 1 then s.threads[t := Exporting(c, o)] else if n == 2 then s.threads[t := Listing(c, o)] else s.threads)
  }

  predicate MayExport(s: Vm, t: nat, c: nat, id: nat) { t !in s.threads && c in s.ctxs && s.ctxs[c] == Open && id !in s.idr }

  lemma Allocates(s: Vm, t: nat, c: nat, id: nat, pages: nat)
    requires MayExport(s, t, c, id)
    ensures Step(s, Alloc(t, c, id, pages), Stage(s, t, c, id, pages, 1))
  {
    hide CanTeardown, DoTeardown, CanWork, DoWork;
  }

  lemma Lists(s: Vm, t: nat, c: nat, id: nat, pages: nat)
    requires MayExport(s, t, c, id)
    ensures Step(Stage(s, t, c, id, pages, 1), List(t), Stage(s, t, c, id, pages, 2))
  {
    hide CanTeardown, DoTeardown, CanWork, DoWork;
    var s1, s2 := Stage(s, t, c, id, pages, 1), Stage(s, t, c, id, pages, 2);
    assert s1.threads[t := Listing(c, s.next)] == s2.threads && s1.heap[s.next := s1.heap[s.next].(place := Warehouse)] == s2.heap;
  }

  lemma Succeeds(s: Vm, t: nat, c: nat, id: nat, pages: nat)
    requires MayExport(s, t, c, id)
    ensures Step(Stage(s, t, c, id, pages, 2), Succeed(t), Stage(s, t, c, id, pages, 3))
  {
    hide CanTeardown, DoTeardown, CanWork, DoWork;
    var s2, s3 := Stage(s, t, c, id, pages, 2), Stage(s, t, c, id, pages, 3);
    assert s2.threads - {t} == s.threads && s2.heap[s.next := s2.heap[s.next].(success := true, owner := Nobody)] == s3.heap;
  }

  /** Export: a new descriptor, exported in full and not imported, is in the warehouse and in the table under its id. */
  lemma {:induction false} ExportAlone(s: Vm, t: nat, c: nat, id: nat, pages: nat)
    requires t !in s.threads && c in s.ctxs && s.ctxs[c] == Open && id !in s.idr
    ensures
      Does(s, [Alloc(t, c, id, pages), List(t), Succeed(t)],
           s.(heap := s.heap[s.next := Exp(id, c, c, pages, true, false, Warehouse, Nobody)], idr := s.idr[id := s.next],
              next := s.next + 1))
  {
    var s1, s2, s3 := Stage(s, t, c, id, pages, 1), Stage(s, t, c, id, pages, 2), Stage(s, t, c, id, pages, 3);
    Allocates(s, t, c, id, pages);
    Lists(s, t, c, id, pages);
    Succeeds(s, t, c, id, pages);
    assert s3 == s.(heap := s.heap[s.next := Exp(id, c, c, pages, true, false, Warehouse, Nobody)],
                    idr := s.idr[id := s.next], next := s.next + 1);
    hide *;
    Three(s, Alloc(t, c, id, pages), s1, List(t), s2, Succeed(t), s3);
  }

  lemma Aborts(s: Vm, t: nat, c: nat, id: nat, pages: nat)
    requires MayExport(s, t, c, id) && s.next !in s.heap
    ensures
      var s1 := Stage(s, t, c, id, pages, 1);
      var s2 := s1.(idr := s.idr, threads := s.threads[t := Discarding(c, s.next)]);
      Step(s1, Abort(t), s2) && Step(s2, Discard(t), s.(next := s.next + 1))
  {
    hide CanTeardown, DoTeardown, CanWork, DoWork;
    var s1 := Stage(s, t, c, id, pages, 1);
    var s2 := s1.(idr := s.idr, threads := s.threads[t := Discarding(c, s.next)]);
    assert s1.idr - {id} == s.idr && s1.threads[t := Discarding(c, s.next)] == s2.threads;
    assert s2.heap - {s.next} == s.heap && s2.threads - {t} == s.threads;
  }

  lemma Abandons(s: Vm, t: nat, c: nat, id: nat, pages: nat)
    requires MayExport(s, t, c, id)
    ensures Step(Stage(s, t, c, id, pages, 1), Abandon(t), Stage(s, t, c, id, pages, 4))
  {
    hide CanTeardown, DoTeardown, CanWork, DoWork;
    var s1, s4 := Stage(s, t, c, id, pages, 1), Stage(s, t, c, id, pages, 4);
    assert s1.threads - {t} == s.threads && s1.heap[s.next := s1.heap[s.next].(owner := Nobody)] == s4.heap;
  }

  /**
   An export whose table cannot be built leaves nothing behind; one that fails after that leaves a descriptor that is in
   the table and in no warehouse.
   */
  lemma {:induction false} ExportFails(s: Vm, t: nat, c: nat, id: nat, pages: nat)
    requires t !in s.threads && c in s.ctxs && s.ctxs[c] == Open && id !in s.idr && s.next !in s.heap
    ensures Does(s, [Alloc(t, c, id, pages), Abort(t), Discard(t)], s.(next := s.next + 1))
    ensures
      Does(s, [Alloc(t, c, id, pages), Abandon(t)],
           s.(heap := s.heap[s.next := Exp(id, c, c, pages, false, false, Detached, Nobody)], idr := s.idr[id := s.next],
              next := s.next + 1))
  {
    var s1, s4 := Stage(s, t, c, id, pages, 1), Stage(s, t, c, id, pages, 4);
    var s2 := s1.(idr := s.idr, threads := s.threads[t := Discarding(c, s.next)]);
    Allocates(s, t, c, id, pages);
    Aborts(s, t, c, id, pages);
    Abandons(s, t, c, id, pages);
    assert s4 == s.(heap := s.heap[s.next := Exp(id, c, c, pages, false, false, Detached, Nobody)],
                    idr := s.idr[id := s.next], next := s.next + 1);
    hide *;
    Three(s, Alloc(t, c, id, pages), s1, Abort(t), s2, Discard(t), s.(next := s.next + 1));
    Two(s, Alloc(t, c, id, pages), s1, Abandon(t), s4);
  }

  // ---------------------------------------------------------------- unexport

  /** Descriptor `o` is exported under this id by context `c`. */
  predicate Exported(s: Vm, o: nat, id: nat, c: nat) {
    && id in s.idr && s.idr[id] == o && o in s.heap && s.heap[o].id == id && s.heap[o].ctx == s.heap[o].home == c
    && s.heap[o].success && s.heap[o].place == Warehouse && s.heap[o].owner == Nobody
  }

  /** The states of an unexport, after `n` steps; 4 is one whose revoking failed. */
  function Revoked(s: Vm, t: nat, c: nat, id: nat, o: nat, n: nat): Vm
    requires o in s.heap
  {
    var e := s.heap[o].(owner := if n == 4 then Nobody else Thread(t), place := if n == 1 then Warehouse else Detached);
    s.(heap := if n == 3 then s.heap - {o} else s.heap[o := e], idr := s.idr - {id},
       threads := if n == 1 then s.threads[t := Unlinking(c, o)] else if n == 2 then s.threads[t := Revoking(c, o)] else s.threads)
  }

  lemma Begins(s: Vm, t: nat, c: nat, id: nat, o: nat)
    requires t !in s.threads && c in s.ctxs && s.ctxs[c] == Open && Exported(s, o, id, c) && !s.heap[o].imported
    ensures Step(s, Unexport(t, c, id), Revoked(s, t, c, id, o, 1))
  {
    hide CanTeardown, DoTeardown, CanWork, DoWork;
  }

  lemma Unlinks(s: Vm, t: nat, c: nat, id: nat, o: nat)
    requires Exported(s, o, id, c)
    ensures Step(Revoked(s, t, c, id, o, 1), Unlink(t), Revoked(s, t, c, id, o, 2))
  {
    hide CanTeardown, DoTeardown, CanWork, DoWork;
    var s1, s2 := Revoked(s, t, c, id, o, 1), Revoked(s, t, c, id, o, 2);
    assert s1.heap[o := s1.heap[o].(place := Detached)] == s2.heap && s1.threads[t := Revoking(c, o)] == s2.threads;
  }

  lemma Releases(s: Vm, t: nat, c: nat, id: nat, o: nat)
    requires Exported(s, o, id, c) && t !in s.threads
    ensures Step(Revoked(s, t, c, id, o, 2), Release(t), Revoked(s, t, c, id, o, 3))
    ensures Step(Revoked(s, t, c, id, o, 2), RevokeFail(t), Revoked(s, t, c, id, o, 4))
  {
    hide CanTeardown, DoTeardown, CanWork, DoWork;
    var s2, s4 := Revoked(s, t, c, id, o, 2), Revoked(s, t, c, id, o, 4);
    assert s2.heap - {o} == s.heap - {o} && s2.threads - {t} == s.threads;
    assert s2.heap[o := s2.heap[o].(owner := Nobody)] == s4.heap;
  }

  /**
   Unexport of what the context has exported and nobody imports frees the descriptor and its id; if revoking fails the
   descriptor stays, out of the table and of every list.
   */
  lemma {:induction false} UnexportAlone(s: Vm, t: nat, c: nat, id: nat, o: nat)
    requires t !in s.threads && c in s.ctxs && s.ctxs[c] == Open && Exported(s, o, id, c) && !s.heap[o].imported
    ensures Does(s, [Unexport(t, c, id), Unlink(t), Release(t)], s.(heap := s.heap - {o}, idr := s.idr - {id}))
    ensures
      Does(s, [Unexport(t, c, id), Unlink(t), RevokeFail(t)],
           s.(heap := s.heap[o := s.heap[o].(place := Detached)], idr := s.idr - {id}))
  {
    var s1, s2, s3, s4 := Revoked(s, t, c, id, o, 1), Revoked(s, t, c, id, o, 2), Revoked(s, t, c, id, o, 3),
      Revoked(s, t, c, id, o, 4);
    assert s3 == s.(heap := s.heap - {o}, idr := s.idr - {id});
    assert s4 == s.(heap := s.heap[o := s.heap[o].(place := Detached)], idr := s.idr - {id});
    Begins(s, t, c, id, o);
    Unlinks(s, t, c, id, o);
    Releases(s, t, c, id, o);
    hide *;
    Three(s, Unexport(t, c, id), s1, Unlink(t), s2, Release(t), s3);
    Three(s, Unexport(t, c, id), s1, Unlink(t), s2, RevokeFail(t), s4);
  }

  /** Unexport goes further than its checks exactly if the id is this context's, exported in full and not imported. */
  lemma {:induction false} UnexportRefused(s: Vm, t: nat, c: nat, id: nat)
    requires t !in s.threads && c in s.ctxs && s.ctxs[c] == Open
      && (id in s.idr ==> s.idr[id] in s.heap && s.heap[s.idr[id]].id == id)
    ensures
      Step(s, Unexport(t, c, id), s)
      <==> id !in s.idr || s.heap[s.idr[id]].imported || !s.heap[s.idr[id]].success || s.heap[s.idr[id]].ctx != c
  {
    hide CanTeardown, DoTeardown, CanWork, DoWork;
    if Step(s, Unexport(t, c, id), s) { assert t !in s.threads; }
  }

  // ---------------------------------------------------------------- closing the context

  /** `o` is all that context `c` has, and no call is running in it. */
  predicate Last(s: Vm, o: nat, id: nat, c: nat) {
    && c in s.ctxs && s.ctxs[c] == Open && Exported(s, o, id, c)
    && (forall t :: t in s.threads && !s.threads[t].Marking? ==> s.threads[t].c != c)
    && (forall x :: x in s.heap && s.heap[x].home == c && s.heap[x].place == Warehouse ==> x == o)
  }

  /** The states of the close, after `n` steps, when the descriptor is imported and when it is not. */
  function Closing(s: Vm, c: nat, id: nat, o: nat, n: nat): Vm
    requires o in s.heap
  {
    var kept := s.heap[o].imported;
    var e := s.heap[o].(place := if n >= 3 then ReclaimList else Detached, owner := if n >= 3 then Nobody else Context(c));
    s.(heap := if n < 2 then s.heap else if !kept && n >= 4 then s.heap - {o}
               else s.heap[o := if kept then e else e.(place := Detached, owner := Context(c))],
       idr := if !kept && n >= 3 then s.idr - {id} else s.idr,
       ctxs := s.ctxs[c := if n == 1 || n == 4 then Walking
                           else if n == 2 then (if kept then Keeping(o) else Dropping(o))
                           else if n == 3 then (if kept then Scheduling else Phase.Freeing(o)) else Gone],
       pending := s.pending || (kept && n >= 4))
  }

  lemma Picks(s: Vm, c: nat, id: nat, o: nat)
    requires Last(s, o, id, c)
    ensures Step(s, BeginFree(c), Closing(s, c, id, o, 1)) && Step(Closing(s, c, id, o, 1), Pick(c, o), Closing(s, c, id, o, 2))
  {
    hide CanThread, DoThread, CanWork, DoWork;
    var s1, s2 := Closing(s, c, id, o, 1), Closing(s, c, id, o, 2);
    assert s1.ctxs[c := s2.ctxs[c]] == s2.ctxs;
    assert s.heap[o := s.heap[o].(place := Detached)][o := s2.heap[o]] == s2.heap;
  }

  lemma Drops(s: Vm, c: nat, id: nat, o: nat)
    requires Last(s, o, id, c) && !s.heap[o].imported
    ensures Step(Closing(s, c, id, o, 2), Drop(c), Closing(s, c, id, o, 3))
      && Step(Closing(s, c, id, o, 3), DropFree(c), Closing(s, c, id, o, 4))
  {
    hide CanThread, DoThread, CanWork, DoWork;
    var s2, s3, s4 := Closing(s, c, id, o, 2), Closing(s, c, id, o, 3), Closing(s, c, id, o, 4);
    assert s2.ctxs[c := s3.ctxs[c]] == s3.ctxs && s3.ctxs[c := s4.ctxs[c]] == s4.ctxs && s3.heap - {o} == s.heap - {o};
  }

  lemma Keeps(s: Vm, c: nat, id: nat, o: nat)
    requires Last(s, o, id, c) && s.heap[o].imported && !s.work.Scanning?
    ensures Step(Closing(s, c, id, o, 2), Keep(c), Closing(s, c, id, o, 3))
  {
    hide CanThread, DoThread, CanWork, DoWork;
    var s2, s3 := Closing(s, c, id, o, 2), Closing(s, c, id, o, 3);
    assert s2.ctxs[c := s3.ctxs[c]] == s3.ctxs;
    assert s2.heap[o := s2.heap[o].(place := ReclaimList)][o := s3.heap[o]] == s3.heap;
  }

  lemma Schedules(s: Vm, c: nat, id: nat, o: nat)
    requires Last(s, o, id, c) && s.heap[o].imported
    ensures Step(Closing(s, c, id, o, 3), CtxSchedule(c), Closing(s, c, id, o, 4))
  {
    hide CanThread, DoThread, CanWork, DoWork;
    assert Closing(s, c, id, o, 3).ctxs[c := Walking] == Closing(s, c, id, o, 4).ctxs;
  }

  lemma Ends(s: Vm, c: nat, id: nat, o: nat)
    requires Last(s, o, id, c)
    ensures Step(Closing(s, c, id, o, 4), EndFree(c), Closing(s, c, id, o, 5))
  {
    hide CanThread, DoThread, CanWork, DoWork;
    var s4, s5 := Closing(s, c, id, o, 4), Closing(s, c, id, o, 5);
    assert s4.ctxs[c := Gone] == s5.ctxs;
  }

  /**
   A context that closes with one exported descriptor: if nobody imports it, the descriptor and its id are freed; if
   it is imported, it goes to the reclaim list, still in the table, and the worker is scheduled.
   */
  lemma {:induction false} CloseAlone(s: Vm, c: nat, id: nat, o: nat)
    requires Last(s, o, id, c)
    ensures !s.heap[o].imported ==>
      Does(s, [BeginFree(c), Pick(c, o)] + [Drop(c), DropFree(c), EndFree(c)],
           s.(heap := s.heap - {o}, idr := s.idr - {id}, ctxs := s.ctxs[c := Gone]))
    ensures s.heap[o].imported && !s.work.Scanning? ==>
      Does(s, [BeginFree(c), Pick(c, o)] + [Keep(c), CtxSchedule(c), EndFree(c)],
           s.(heap := s.heap[o := s.heap[o].(place := ReclaimList)], ctxs := s.ctxs[c := Gone], pending := true))
  {
    var s1, s2, s3, s4, s5 := Closing(s, c, id, o, 1), Closing(s, c, id, o, 2), Closing(s, c, id, o, 3),
      Closing(s, c, id, o, 4), Closing(s, c, id, o, 5);
    Picks(s, c, id, o);
    Ends(s, c, id, o);
    if !s.heap[o].imported { Drops(s, c, id, o); } else if !s.work.Scanning? { Keeps(s, c, id, o); Schedules(s, c, id, o); }
    assert s5 == if s.heap[o].imported
                 then s.(heap := s.heap[o := s.heap[o].(place := ReclaimList)], ctxs := s.ctxs[c := Gone], pending := true)
                 else s.(heap := s.heap - {o}, idr := s.idr - {id}, ctxs := s.ctxs[c := Gone]);
    hide *;
    Two(s, BeginFree(c), s1, Pick(c, o), s2);
    if !s.heap[o].imported {
      Three(s2, Drop(c), s3, DropFree(c), s4, EndFree(c), s5);
      Joined(s, [BeginFree(c), Pick(c, o)], s2, [Drop(c), DropFree(c), EndFree(c)], s5);
    } else if !s.work.Scanning? {
      Three(s2, Keep(c), s3, CtxSchedule(c), s4, EndFree(c), s5);
      Joined(s, [BeginFree(c), Pick(c, o)], s2, [Keep(c), CtxSchedule(c), EndFree(c)], s5);
    }
  }

  // ---------------------------------------------------------------- reclaim

  /** `o` is the only descriptor on the reclaim list, in the table under its id; the worker is idle and nobody acts on `o`. */
  predicate Orphan(s: Vm, o: nat, id: nat) {
    && id in s.idr && s.idr[id] == o && o in s.heap && s.heap[o].id == id && s.heap[o].place == ReclaimList
    && ReclaimSet(s) == {o} && s.work == Idle
  }

  /** UNIMPORT takes the mark off; with no virtual channel it also schedules the worker. */
  lemma {:induction false} UnimportAlone(s: Vm, t: nat, id: nat, o: nat)
    requires t !in s.threads && id in s.idr && s.idr[id] == o && o in s.heap
    ensures Does(s, [RecvUnimport(t, id, false), Schedule(t)],
                 s.(heap := s.heap[o := s.heap[o].(imported := false)], pending := true))
    ensures SomeOpen(s) ==> Does(s, [RecvUnimport(t, id, true)], s.(heap := s.heap[o := s.heap[o].(imported := false)]))
  {
    var s1 := s.(heap := s.heap[o := s.heap[o].(imported := false)]);
    var s2 := s1.(threads := s.threads[t := Marking]);
    assert s2.threads - {t} == s.threads;
    assert Step(s, RecvUnimport(t, id, false), s2) && Step(s2, Schedule(t), s1.(pending := true))
        && (SomeOpen(s) ==> Step(s, RecvUnimport(t, id, true), s1)) by {
      hide CanTeardown, DoTeardown, CanWork, DoWork, SomeOpen;
    }
    hide Step, Does;
    Two(s, RecvUnimport(t, id, false), s2, Schedule(t), s1.(pending := true));
    if SomeOpen(s) { One(s, RecvUnimport(t, id, true), s1); }
  }

  /** The states of a run of the worker, after `n` steps. */
  function Working(s: Vm, o: nat, id: nat, n: nat): Vm
    requires o in s.heap
  {
    var e := s.heap[o].(place := if n < 4 then FreeList else Detached, owner := Worker);
    s.(pending := false,
       heap := if s.heap[o].imported || n < 2 then s.heap else if n >= 5 then s.heap - {o} else s.heap[o := e],
       idr := if s.heap[o].imported || n < 4 then s.idr else s.idr - {id},
       work := if n == 1 then Scanning({o}, {}) else if n == 6 || (n == 4 && s.heap[o].imported) then Idle
               else if s.heap[o].imported then (if n == 2 then Scanning({}, {}) else Reaping({}))
               else if n == 2 then Scanning({}, {o}) else if n == 3 then Reaping({o})
               else if n == 4 then Putting(o, {}) else Reaping({}))
  }

  lemma Starts(s: Vm, o: nat, id: nat)
    requires Orphan(s, o, id) && s.pending
    ensures Step(s, WorkStart, Working(s, o, id, 1))
  {
    hide CanThread, DoThread, CanTeardown, DoTeardown, ReclaimSet;
  }

  lemma Scans(s: Vm, o: nat, id: nat)
    requires Orphan(s, o, id)
    ensures Step(Working(s, o, id, 1), ScanOne(o), Working(s, o, id, 2))
  {
    hide CanThread, DoThread, CanTeardown, DoTeardown, ReclaimSet;
    var s2 := Working(s, o, id, 2);
    assert {o} - {o} == {} && {} + {o} == {o};
    if !s.heap[o].imported { assert s.heap[o := s.heap[o].(place := FreeList)][o := s2.heap[o]] == s2.heap; }
  }

  lemma Scanned(s: Vm, o: nat, id: nat)
    requires Orphan(s, o, id)
    ensures Step(Working(s, o, id, 2), ScanDone, Working(s, o, id, 3))
  {
    hide CanThread, DoThread, CanTeardown, DoTeardown, ReclaimSet;
  }

  lemma Reaps(s: Vm, o: nat, id: nat)
    requires Orphan(s, o, id) && !s.heap[o].imported
    ensures Step(Working(s, o, id, 3), Reap(o), Working(s, o, id, 4))
  {
    hide CanThread, DoThread, CanTeardown, DoTeardown, ReclaimSet;
    var s3, s4 := Working(s, o, id, 3), Working(s, o, id, 4);
    assert {o} - {o} == {} && s3.heap[o := s3.heap[o].(place := Detached)] == s4.heap;
  }

  lemma Puts(s: Vm, o: nat, id: nat)
    requires Orphan(s, o, id) && !s.heap[o].imported
    ensures Step(Working(s, o, id, 4), Put, Working(s, o, id, 5)) && Step(Working(s, o, id, 5), WorkEnd, Working(s, o, id, 6))
  {
    hide CanThread, DoThread, CanTeardown, DoTeardown, ReclaimSet;
    assert Working(s, o, id, 4).heap - {o} == s.heap - {o};
  }

  lemma Leaves(s: Vm, o: nat, id: nat)
    requires Orphan(s, o, id) && s.heap[o].imported
    ensures Step(Working(s, o, id, 3), WorkEnd, Working(s, o, id, 4))
  {
    hide CanThread, DoThread, CanTeardown, DoTeardown, ReclaimSet;
  }

  /** A run of the worker frees the orphan and its id if nobody imports it any more, and leaves it alone otherwise. */
  lemma {:induction false} ReclaimAlone(s: Vm, o: nat, id: nat)
    requires Orphan(s, o, id) && s.pending
    ensures !s.heap[o].imported ==>
      Does(s, [WorkStart, ScanOne(o), ScanDone] + [Reap(o), Put, WorkEnd],
           s.(heap := s.heap - {o}, idr := s.idr - {id}, pending := false))
    ensures s.heap[o].imported ==> Does(s, [WorkStart, ScanOne(o), ScanDone] + [WorkEnd], s.(pending := false))
  {
    var s1, s2, s3, s4 := Working(s, o, id, 1), Working(s, o, id, 2), Working(s, o, id, 3), Working(s, o, id, 4);
    Starts(s, o, id);
    Scans(s, o, id);
    Scanned(s, o, id);
    if s.heap[o].imported {
      Leaves(s, o, id);
      assert s4 == s.(pending := false);
      hide *;
      Three(s, WorkStart, s1, ScanOne(o), s2, ScanDone, s3);
      One(s3, WorkEnd, s4);
      Joined(s, [WorkStart, ScanOne(o), ScanDone], s3, [WorkEnd], s4);
    } else {
      var s5, s6 := Working(s, o, id, 5), Working(s, o, id, 6);
      Reaps(s, o, id);
      Puts(s, o, id);
      assert s6 == s.(heap := s.heap - {o}, idr := s.idr - {id}, pending := false);
      hide *;
      Three(s, WorkStart, s1, ScanOne(o), s2, ScanDone, s3);
      Three(s3, Reap(o), s4, Put, s5, WorkEnd, s6);
      Joined(s, [WorkStart, ScanOne(o), ScanDone], s3, [Reap(o), Put, WorkEnd], s6);
    }
  }
}
