/**
 The exporter's half of memory sharing on one physical channel: descriptors, the table that
 maps export ids to them, contexts with their warehouses, the reclaim list and its worker.
 Any number of threads, contexts and descriptors; every critical section, and every access
 outside a lock, is one step.
 */
module ExportSide {
  import opened Common

  /** The list a descriptor's `node` is linked into. */
  datatype Place = Detached | Warehouse | ReclaimList | FreeList

  /** Who may still act on a descriptor.  Not in the source: a history variable of the proof. */
  datatype Owner = Nobody | Thread(t: nat) | Context(c: nat) | Worker

  /**
   `struct export_desc_super`: `success` is `exp_state`, `imported` is `remote_imported`;
   `home` is the context whose warehouse the node was put into.
   */
  datatype Exp = Exp(id: nat, ctx: nat, home: nat, pages: nat, success: bool, imported: bool, place: Place, owner: Owner)

  /** Where a thread is; `c` is the context it was called in. */
  datatype Pc =
    | Exporting(c: nat, o: nat)   // id allocated, table being filled
    | Discarding(c: nat, o: nat)  // table could not be built: id removed, memory not freed yet
    | Listing(c: nat, o: nat)     // in the warehouse, state not SUCCESS yet
    | Unlinking(c: nat, o: nat)   // unexport: id removed, still in the warehouse
    | Revoking(c: nat, o: nat)    // unexport: out of the warehouse
    | Marking                     // UNIMPORT handled without a vchan, worker not scheduled yet

  /** `hab_ctx_free` */
  datatype Phase =
    | Open
    | Walking
    | Dropping(o: nat)  // unlinked, not imported: its id is next
    | Freeing(o: nat)   // id removed
    | Keeping(o: nat)   // unlinked, still imported: goes to the reclaim list
    | Scheduling        // put on the reclaim list, worker not scheduled yet
    | Gone

  /** `reclaim_cleanup`; the reclaim lock is held while `Scanning`. */
  datatype Work =
    | Idle
    | Scanning(todo: set<nat>, found: set<nat>)
    | Reaping(found: set<nat>)
    | Putting(o: nat, found: set<nat>)

  datatype Vm = Vm(
    heap: map<nat, Exp>, next: nat, idr: map<nat, nat>, ctxs: map<nat, Phase>, threads: map<nat, Pc>,
    work: Work, pending: bool,
    fault: bool  // a freed descriptor touched, a node unlinked from a list it is not in, or another's id removed
  )

  datatype Act =
    | Alloc(t: nat, c: nat, id: nat, pages: nat)
    | Abort(t: nat)
    | Discard(t: nat)
    | Abandon(t: nat)
    | List(t: nat)
    | Succeed(t: nat)
    | Unexport(t: nat, c: nat, id: nat)
    | Unlink(t: nat)
    | RevokeFail(t: nat)
    | Release(t: nat)
    | RecvImport(c: nat, id: nat, pages: nat)
    | RecvUnimport(t: nat, id: nat, vchan: bool)
    | Schedule(t: nat)
    | BeginFree(c: nat)
    | Pick(c: nat, o: nat)
    | Drop(c: nat)
    | DropFree(c: nat)
    | Keep(c: nat)
    | CtxSchedule(c: nat)
    | EndFree(c: nat)
    | Reopen(c: nat)
    | WorkStart
    | ScanOne(o: nat)
    | ScanDone
    | Reap(o: nat)
    | Put
    | WorkEnd

  function ObjOf(pc: Pc): Option<nat> { if pc.Marking? then None else Some(pc.o) }

  function PhaseObj(ph: Phase): Option<nat> {
    if ph.Dropping? || ph.Freeing? || ph.Keeping? then Some(ph.o) else None
  }

  function ReclaimSet(s: Vm): set<nat> { set o | o in s.heap && s.heap[o].place == ReclaimList }

  /** A virtual channel can be live only in a context that is open. */
  predicate SomeOpen(s: Vm) { exists c :: c in s.ctxs && s.ctxs[c] == Open }

  predicate ByThread(a: Act) {
    || a.Alloc? || a.Abort? || a.Discard? || a.Abandon? || a.List? || a.Succeed? || a.Unexport? || a.Unlink? || a.RevokeFail?
    || a.Release? || a.RecvImport? || a.RecvUnimport? || a.Schedule?
  }

  predicate ByTeardown(a: Act) {
    a.BeginFree? || a.Pick? || a.Drop? || a.DropFree? || a.Keep? || a.CtxSchedule? || a.EndFree? || a.Reopen?
  }

  predicate ByWorker(a: Act) { a.WorkStart? || a.ScanOne? || a.ScanDone? || a.Reap? || a.Put? || a.WorkEnd? }

  predicate CanThread(s: Vm, a: Act) {
    match a
    case Alloc(t, c, id, _) => t !in s.threads && c in s.ctxs && s.ctxs[c] == Open && id !in s.idr
    case Abort(t) => t in s.threads && s.threads[t].Exporting?
    case Discard(t) => t in s.threads && s.threads[t].Discarding?
    case Abandon(t) => t in s.threads && s.threads[t].Exporting?
    case List(t) => t in s.threads && s.threads[t].Exporting?
    case Succeed(t) => t in s.threads && s.threads[t].Listing?
    case Unexport(t, c, _) => t !in s.threads && c in s.ctxs && s.ctxs[c] == Open
    case Unlink(t) => t in s.threads && s.threads[t].Unlinking?
    case RevokeFail(t) => t in s.threads && s.threads[t].Revoking?
    case Release(t) => t in s.threads && s.threads[t].Revoking?
    case RecvImport(c, _, _) => c in s.ctxs && s.ctxs[c] == Open
    case RecvUnimport(t, _, vchan) => t !in s.threads && (vchan ==> SomeOpen(s))
    case Schedule(t) => t in s.threads && s.threads[t].Marking?
    case _ => false
  }

  predicate CanTeardown(s: Vm, a: Act) {
    match a
    case BeginFree(c) =>
      && c in s.ctxs && s.ctxs[c] == Open
      && forall t :: t in s.threads && !s.threads[t].Marking? ==> s.threads[t].c != c
    case Pick(c, o) =>
      && c in s.ctxs && s.ctxs[c] == Walking && o in s.heap && s.heap[o].place == Warehouse && s.heap[o].home == c
    case Drop(c) => c in s.ctxs && s.ctxs[c].Dropping?
    case DropFree(c) => c in s.ctxs && s.ctxs[c].Freeing?
    case Keep(c) => c in s.ctxs && s.ctxs[c].Keeping? && !s.work.Scanning?
    case CtxSchedule(c) => c in s.ctxs && s.ctxs[c] == Scheduling
    case EndFree(c) =>
      && c in s.ctxs && s.ctxs[c] == Walking
      && forall o :: o in s.heap && s.heap[o].home == c ==> s.heap[o].place != Warehouse
    case Reopen(c) => c in s.ctxs && s.ctxs[c] == Gone
    case _ => false
  }

  predicate CanWork(s: Vm, a: Act) {
    match a
    case WorkStart => s.pending && s.work == Idle
    case ScanOne(o) => s.work.Scanning? && o in s.work.todo
    case ScanDone => s.work.Scanning? && s.work.todo == {}
    case Reap(o) => s.work.Reaping? && o in s.work.found
    case Put => s.work.Putting?
    case WorkEnd => s.work == Reaping({})
    case _ => false
  }

  predicate Enabled(s: Vm, a: Act) {
    if ByThread(a) then CanThread(s, a) else if ByTeardown(a) then CanTeardown(s, a) else CanWork(s, a)
  }

  function Goto(s: Vm, t: nat, pc: Pc): Vm { s.(threads := s.threads[t := pc]) }

  function Leave(s: Vm, t: nat): Vm { s.(threads := s.threads - {t}) }

  function Turn(s: Vm, c: nat, ph: Phase): Vm { s.(ctxs := s.ctxs[c := ph]) }

  function Own(s: Vm, o: nat, owner: Owner): (r: Vm)
    ensures r == s.(heap := r.heap, fault := r.fault) && r.heap.Keys == s.heap.Keys
    ensures forall x :: x in s.heap && x != o ==> r.heap[x] == s.heap[x]
  {
    if o in s.heap then s.(heap := s.heap[o := s.heap[o].(owner := owner)]) else s.(fault := true)
  }

  /** `list_del` or `list_move`: the node must be in the list it is taken from. */
  function Move(s: Vm, o: nat, from: Place, to: Place): (r: Vm)
    ensures r == s.(heap := r.heap, fault := r.fault) && r.heap.Keys == s.heap.Keys
    ensures forall x :: x in s.heap && x != o ==> r.heap[x] == s.heap[x]
  {
    if o in s.heap && s.heap[o].place == from then s.(heap := s.heap[o := s.heap[o].(place := to)]) else s.(fault := true)
  }

  /** `list_add_tail` to the warehouse of context `c` */
  function Shelve(s: Vm, o: nat, c: nat): (r: Vm)
    ensures r == s.(heap := r.heap, fault := r.fault) && r.heap.Keys == s.heap.Keys
    ensures forall x :: x in s.heap && x != o ==> r.heap[x] == s.heap[x]
  {
    if o in s.heap && s.heap[o].place == Detached then s.(heap := s.heap[o := s.heap[o].(place := Warehouse, home := c)]) else s.(fault := true)
  }

  /** `list_del` under the lock of context `c`: the node must be in the warehouse of that context. */
  function Unshelve(s: Vm, o: nat, c: nat): (r: Vm)
    ensures r == s.(heap := r.heap, fault := r.fault) && r.heap.Keys == s.heap.Keys
    ensures forall x :: x in s.heap && x != o ==> r.heap[x] == s.heap[x]
  {
    if o in s.heap && s.heap[o].place == Warehouse && s.heap[o].home == c
    then s.(heap := s.heap[o := s.heap[o].(place := Detached)]) else s.(fault := true)
  }

  /** `idr_remove` of a descriptor's id: the entry must be that descriptor's. */
  function RemoveId(s: Vm, o: nat): (r: Vm)
    ensures r == s.(idr := r.idr, fault := r.fault)
  {
    if o in s.heap && s.heap[o].id in s.idr && s.idr[s.heap[o].id] == o
    then s.(idr := s.idr - {s.heap[o].id}) else s.(fault := true)
  }

  /** `habmem_export_put` of the only reference, or `vfree` */
  function Free(s: Vm, o: nat): (r: Vm)
    ensures r == s.(heap := r.heap, fault := r.fault) && r.heap.Keys <= s.heap.Keys
    ensures forall x :: x in s.heap && x != o ==> x in r.heap && r.heap[x] == s.heap[x]
  {
    if o in s.heap then s.(heap := s.heap - {o}) else s.(fault := true)
  }

  /** What an IMPORT finds: the descriptor under this id, of this size, successfully exported. */
  predicate Importable(s: Vm, id: nat, pages: nat) {
    id in s.idr && s.idr[id] in s.heap && s.heap[s.idr[id]].pages == pages && s.heap[s.idr[id]].success
  }

  predicate Unexportable(s: Vm, c: nat, id: nat) {
    && id in s.idr && s.idr[id] in s.heap
    && s.heap[s.idr[id]].success && s.heap[s.idr[id]].ctx == c && !s.heap[s.idr[id]].imported
  }

  /** export, unexport and the receive path */
  function DoThread(s: Vm, a: Act): Vm
    requires CanThread(s, a)
  {
    match a
    case Alloc(t, c, id, pages) =>
      Goto(s.(heap := s.heap[s.next := Exp(id, c, c, pages, false, false, Detached, Thread(t))],
              idr := s.idr[id := s.next], next := s.next + 1), t, Exporting(c, s.next))
    case Abort(t) => Goto(RemoveId(s, s.threads[t].o), t, Discarding(s.threads[t].c, s.threads[t].o))
    case Discard(t) => Leave(Free(s, s.threads[t].o), t)
    case Abandon(t) => Leave(Own(s, s.threads[t].o, Nobody), t)
    case List(t) => Goto(Shelve(s, s.threads[t].o, s.threads[t].c), t, Listing(s.threads[t].c, s.threads[t].o))
    case Succeed(t) =>
      var o := s.threads[t].o;
      if o in s.heap then Leave(s.(heap := s.heap[o := s.heap[o].(success := true, owner := Nobody)]), t)
      else s.(fault := true)
    case Unexport(t, c, id) =>
      if Unexportable(s, c, id)
      then Goto(RemoveId(Own(s, s.idr[id], Thread(t)), s.idr[id]), t, Unlinking(c, s.idr[id])) else s
    case Unlink(t) => Goto(Unshelve(s, s.threads[t].o, s.threads[t].c), t, Revoking(s.threads[t].c, s.threads[t].o))
    case RevokeFail(t) => Leave(Own(s, s.threads[t].o, Nobody), t)
    case Release(t) => Leave(Free(s, s.threads[t].o), t)
    case RecvImport(c, id, pages) =>
      // hab_send_import_ack leaves the context of its own channel in the descriptor
      if Importable(s, id, pages) then s.(heap := s.heap[s.idr[id] := s.heap[s.idr[id]].(imported := true, ctx := c)]) else s
    case RecvUnimport(t, id, vchan) =>
      var s1 :=
        if id !in s.idr then s
        else if s.idr[id] in s.heap then s.(heap := s.heap[s.idr[id] := s.heap[s.idr[id]].(imported := false)])
        else s.(fault := true);
      if vchan then s1 else Goto(s1, t, Marking)
    case Schedule(t) => Leave(s, t).(pending := true)
  }

  /** `hab_ctx_free`, and a new context at the address of a freed one */
  function DoTeardown(s: Vm, a: Act): Vm
    requires CanTeardown(s, a)
  {
    match a
    case BeginFree(c) => Turn(s, c, Walking)
    case Pick(c, o) =>
      Turn(Own(Unshelve(s, o, c), o, Context(c)), c, if s.heap[o].imported then Keeping(o) else Dropping(o))
    case Drop(c) => Turn(RemoveId(s, s.ctxs[c].o), c, Freeing(s.ctxs[c].o))
    case DropFree(c) => Turn(Free(s, s.ctxs[c].o), c, Walking)
    case Keep(c) => Turn(Own(Move(s, s.ctxs[c].o, Detached, ReclaimList), s.ctxs[c].o, Nobody), c, Scheduling)
    case CtxSchedule(c) => Turn(s, c, Walking).(pending := true)
    case EndFree(c) => Turn(s, c, Gone)
    case Reopen(c) => Turn(s, c, Open)
  }

  /** `reclaim_cleanup` */
  function DoWork(s: Vm, a: Act): Vm
    requires CanWork(s, a)
  {
    match a
    case WorkStart => s.(work := Scanning(ReclaimSet(s), {}), pending := false)
    case ScanOne(o) =>
      if o !in s.heap then s.(fault := true)
      else if s.heap[o].imported then s.(work := Scanning(s.work.todo - {o}, s.work.found))
      else Own(Move(s, o, ReclaimList, FreeList), o, Worker).(work := Scanning(s.work.todo - {o}, s.work.found + {o}))
    case ScanDone => s.(work := Reaping(s.work.found))
    case Reap(o) => RemoveId(Move(s, o, FreeList, Detached), o).(work := Putting(o, s.work.found - {o}))
    case Put => Free(s, s.work.o).(work := Reaping(s.work.found))
    case WorkEnd => s.(work := Idle)
  }

  function Do(s: Vm, a: Act): Vm
    requires Enabled(s, a)
  {
    if ByThread(a) then DoThread(s, a) else if ByTeardown(a) then DoTeardown(s, a) else DoWork(s, a)
  }

  /** A descriptor that outlived its context: on the reclaim list, or taken off it by the worker. */
  predicate Stale(s: Vm, o: nat) { o in s.heap && s.heap[o].place in {ReclaimList, FreeList} }

  /** An IMPORT arrives over the virtual channel the memory was exported on. */
  predicate SameVchan(s: Vm, a: Act) {
    a.RecvImport? && Importable(s, a.id, a.pages) ==> s.heap[s.idr[a.id]].ctx == a.c && !Stale(s, s.idr[a.id])
  }

  /** An unexport does not find, under a context's reused address, what an earlier context left behind. */
  predicate OwnUnexport(s: Vm, a: Act) {
    a.Unexport? && Unexportable(s, a.c, a.id) ==> !Stale(s, s.idr[a.id])
  }

  /** The hypotheses on a run. */
  predicate Allowed(s: Vm, a: Act) { SameVchan(s, a) && OwnUnexport(s, a) }

  // ---------------------------------------------------------------- the invariant

  predicate InIdr(s: Vm, o: nat) {
    o in s.heap && s.heap[o].id in s.idr && s.idr[s.heap[o].id] == o
  }

  function WorkSet(w: Work): set<nat> {
    match w
    case Idle => {}
    case Scanning(_, found) => found
    case Reaping(found) => found
    case Putting(o, found) => found + {o}
  }

  predicate ObjInv(s: Vm, o: nat, e: Exp) {
    && o < s.next && e.ctx in s.ctxs
    && (e.owner.Thread? ==> e.owner.t in s.threads && ObjOf(s.threads[e.owner.t]) == Some(o))
    && (e.owner.Context? ==> e.owner.c == e.ctx && PhaseObj(s.ctxs[e.ctx]) == Some(o))
    && (e.owner == Worker ==> o in WorkSet(s.work))
    && (e.owner == Nobody && e.success && InIdr(s, o) ==> e.place in {Warehouse, ReclaimList})
    && (e.place == Warehouse ==> e.owner.Thread? || (e.owner == Nobody && e.success && InIdr(s, o)))
    && (e.place == Warehouse ==> s.ctxs[e.ctx] != Gone && e.home == e.ctx)
    && (e.place == ReclaimList ==> e.owner == Nobody && e.success && InIdr(s, o))
    && (e.place == FreeList ==> e.owner == Worker && e.success && InIdr(s, o))
    && (e.imported ==> e.success && InIdr(s, o))
    && (e.imported && e.place == Warehouse ==> e.owner == Nobody)
    && (e.imported && e.place == Detached ==> e.owner.Context? && s.ctxs[e.ctx].Keeping?)
    && (e.owner == Worker ==> !e.imported && (e.place == FreeList || !InIdr(s, o)))
  }

  predicate ThreadInv(s: Vm, t: nat, pc: Pc) {
    !pc.Marking? ==>
      && pc.o in s.heap && s.heap[pc.o].owner == Thread(t) && s.heap[pc.o].ctx == pc.c
      && pc.c in s.ctxs && s.ctxs[pc.c] == Open && !s.heap[pc.o].imported
      && match pc
         case Exporting(_, o) => s.heap[o].place == Detached && InIdr(s, o) && !s.heap[o].success
         case Discarding(_, o) => s.heap[o].place == Detached && !InIdr(s, o) && !s.heap[o].success
         case Listing(_, o) => s.heap[o].place == Warehouse && InIdr(s, o) && !s.heap[o].success
         case Unlinking(_, o) => s.heap[o].place == Warehouse && !InIdr(s, o)
         case Revoking(_, o) => s.heap[o].place == Detached && !InIdr(s, o)
  }

  predicate PhaseInv(s: Vm, c: nat, ph: Phase) {
    PhaseObj(ph).Some? ==>
      && ph.o in s.heap && s.heap[ph.o].owner == Context(c) && s.heap[ph.o].ctx == c && s.heap[ph.o].place == Detached
      && (InIdr(s, ph.o) <==> !ph.Freeing?) && (!ph.Keeping? ==> !s.heap[ph.o].imported)
      && s.heap[ph.o].success
  }

  predicate WorkInv(s: Vm) {
    && (s.work.Scanning? ==> forall o :: o in s.work.todo ==> o in s.heap && s.heap[o].place == ReclaimList)
    && (s.work.Putting? ==>
          && s.work.o !in s.work.found && s.work.o in s.heap && s.heap[s.work.o].owner == Worker
          && s.heap[s.work.o].place == Detached && !InIdr(s, s.work.o))
    && (s.work != Idle ==> forall o :: o in s.work.found ==>
          o in s.heap && s.heap[o].owner == Worker && s.heap[o].place == FreeList && InIdr(s, o))
  }

  predicate IdrInv(s: Vm) {
    forall id :: id in s.idr ==> s.idr[id] in s.heap && s.heap[s.idr[id]].id == id
  }

  predicate Inv(s: Vm) {
    && !s.fault && IdrInv(s) && WorkInv(s)
    && (forall o :: o in s.heap ==> ObjInv(s, o, s.heap[o]))
    && (forall t :: t in s.threads ==> ThreadInv(s, t, s.threads[t]))
    && (forall c :: c in s.ctxs ==> PhaseInv(s, c, s.ctxs[c]))
  }

  // ---------------------------------------------------------------- frames

  /** `s'` differs from `s` in descriptor `o0`, thread `t0` and context `c0` only, and nobody else claims `o0`. */
  ghost predicate Agree(s: Vm, s': Vm, o0: nat, t0: Option<nat>, c0: Option<nat>) {
    && !s'.fault && s'.next >= s.next && s'.ctxs.Keys == s.ctxs.Keys
    && s'.heap - {o0} == s.heap - {o0}
    && (forall t :: Some(t) != t0 ==> (t in s'.threads <==> t in s.threads) && (t in s.threads ==> s'.threads[t] == s.threads[t]))
    && (forall c :: Some(c) != c0 && c in s.ctxs ==> s'.ctxs[c] == s.ctxs[c])
    && (t0.Some? && t0.value in s.threads ==> ObjOf(s.threads[t0.value]) in {None, Some(o0)})
    && (c0.Some? && c0.value in s.ctxs ==>
          && PhaseObj(s.ctxs[c0.value]) in {None, Some(o0)}
          && s.ctxs[c0.value] !in {Open, Gone} && s'.ctxs[c0.value] !in {Open, Gone})
    && (forall o :: o in s.heap && o != o0 ==> (InIdr(s', o) <==> InIdr(s, o)) && (o in WorkSet(s.work) ==> o in WorkSet(s'.work)))
    && (o0 in s.heap ==>
          && (s.heap[o0].owner.Thread? ==> Some(s.heap[o0].owner.t) == t0)
          && (s.heap[o0].owner.Context? ==> Some(s.heap[o0].owner.c) == c0))
  }

  lemma OtherObj(s: Vm, s': Vm, o0: nat, t0: Option<nat>, c0: Option<nat>, o: nat)
    requires Agree(s, s', o0, t0, c0) && o != o0 && o in s.heap && ObjInv(s, o, s.heap[o])
    ensures o in s'.heap && s'.heap[o] == s.heap[o] && ObjInv(s', o, s'.heap[o])
  {
    assert o in s.heap - {o0};
    assert o in s'.heap - {o0} && s'.heap[o] == s.heap[o];
    hide InIdr, WorkSet;
  }

  lemma OtherThread(s: Vm, s': Vm, o0: nat, t0: Option<nat>, c0: Option<nat>, t: nat)
    requires Agree(s, s', o0, t0, c0) && Some(t) != t0 && t in s.threads && ThreadInv(s, t, s.threads[t])
    ensures t in s'.threads && s'.threads[t] == s.threads[t] && ThreadInv(s', t, s'.threads[t])
  {
    hide InIdr, WorkSet;
    var pc := s.threads[t];
    if !pc.Marking? {
      assert pc.o != o0 && pc.o in s.heap - {o0};
      assert pc.o in s'.heap - {o0} && s'.heap[pc.o] == s.heap[pc.o];
    }
  }

  lemma OtherPhase(s: Vm, s': Vm, o0: nat, t0: Option<nat>, c0: Option<nat>, c: nat)
    requires Agree(s, s', o0, t0, c0) && Some(c) != c0 && c in s.ctxs && PhaseInv(s, c, s.ctxs[c])
    ensures c in s'.ctxs && s'.ctxs[c] == s.ctxs[c] && PhaseInv(s', c, s'.ctxs[c])
  {
    hide InIdr, WorkSet;
    var ph := s.ctxs[c];
    if PhaseObj(ph).Some? {
      assert ph.o != o0 && ph.o in s.heap - {o0};
      assert ph.o in s'.heap - {o0} && s'.heap[ph.o] == s.heap[ph.o];
    }
  }

  lemma Assemble(s: Vm, s': Vm, o0: nat, t0: Option<nat>, c0: Option<nat>)
    requires Inv(s) && Agree(s, s', o0, t0, c0) && IdrInv(s') && WorkInv(s')
    requires o0 in s'.heap ==> ObjInv(s', o0, s'.heap[o0])
    requires t0.Some? && t0.value in s'.threads ==> ThreadInv(s', t0.value, s'.threads[t0.value])
    requires c0.Some? && c0.value in s'.ctxs ==> PhaseInv(s', c0.value, s'.ctxs[c0.value])
    ensures Inv(s')
  {
    hide IdrInv, WorkInv, ObjInv, ThreadInv, PhaseInv, InIdr, WorkSet;
    forall o | o in s'.heap && o != o0 ensures ObjInv(s', o, s'.heap[o]) {
      assert o in s'.heap - {o0};
      assert o in s.heap;
      OtherObj(s, s', o0, t0, c0, o);
    }
    forall t | t in s'.threads && Some(t) != t0 ensures ThreadInv(s', t, s'.threads[t]) {
      OtherThread(s, s', o0, t0, c0, t);
    }
    forall c | c in s'.ctxs && Some(c) != c0 ensures PhaseInv(s', c, s'.ctxs[c]) {
      assert c in s.ctxs;
      OtherPhase(s, s', o0, t0, c0, c);
    }
  }

  // ---------------------------------------------------------------- every step keeps the invariant

  /** The worker's sets are about descriptors whose list and owner the step leaves alone. */
  lemma SameWork(s: Vm, s': Vm, o0: nat, t0: Option<nat>, c0: Option<nat>)
    requires Inv(s) && Agree(s, s', o0, t0, c0) && s'.work == s.work
    requires o0 in s.heap ==> s.heap[o0].owner != Worker
    requires o0 in s.heap && s.heap[o0].place == ReclaimList ==> o0 in s'.heap && s'.heap[o0].place == ReclaimList
    ensures WorkInv(s')
  {
    hide ObjInv, ThreadInv, PhaseInv, IdrInv, InIdr;
    forall o | o in s.heap && o != o0 ensures o in s'.heap && s'.heap[o] == s.heap[o] {
      assert o in s.heap - {o0};
    }
  }

  /** The table is unchanged and so is the id of `o0`. */
  lemma SameIdr(s: Vm, s': Vm, o0: nat)
    requires IdrInv(s) && s'.idr == s.idr && s'.heap.Keys == s.heap.Keys && s'.heap - {o0} == s.heap - {o0}
    requires o0 in s.heap ==> s'.heap[o0].id == s.heap[o0].id
    ensures IdrInv(s') && forall o :: InIdr(s', o) <==> InIdr(s, o)
  {
    forall o | o in s.heap ensures s'.heap[o].id == s.heap[o].id {
      assert o != o0 ==> o in s.heap - {o0};
    }
  }

  /** The entry of `o0` is taken out of the table. */
  lemma LessIdr(s: Vm, s': Vm, o0: nat)
    requires IdrInv(s) && InIdr(s, o0) && s'.idr == s.idr - {s.heap[o0].id} && s'.heap.Keys == s.heap.Keys && s'.heap - {o0} == s.heap - {o0}
    requires s'.heap[o0].id == s.heap[o0].id
    ensures IdrInv(s') && !InIdr(s', o0) && forall o :: o != o0 ==> (InIdr(s', o) <==> InIdr(s, o))
  {
    forall o | o in s.heap ensures s'.heap[o].id == s.heap[o].id {
      assert o != o0 ==> o in s.heap - {o0};
    }
  }

  /** A descriptor outside the table is freed. */
  lemma FreedIdr(s: Vm, s': Vm, o0: nat)
    requires IdrInv(s) && o0 in s.heap && !InIdr(s, o0) && s'.idr == s.idr && s'.heap == s.heap - {o0}
    ensures IdrInv(s') && forall o :: o != o0 ==> (InIdr(s', o) <==> InIdr(s, o))
  {
  }

  /** The same for a step that leaves the worker alone, on a descriptor that is not the worker's. */
  lemma AssembleSame(s: Vm, s': Vm, o0: nat, t0: Option<nat>, c0: Option<nat>)
    requires Inv(s) && Agree(s, s', o0, t0, c0) && IdrInv(s') && s'.work == s.work
    requires o0 in s.heap ==> s.heap[o0].owner != Worker
    requires o0 in s.heap && s.heap[o0].place == ReclaimList ==> o0 in s'.heap && s'.heap[o0].place == ReclaimList
    requires o0 in s'.heap ==> ObjInv(s', o0, s'.heap[o0])
    requires t0.Some? && t0.value in s'.threads ==> ThreadInv(s', t0.value, s'.threads[t0.value])
    requires c0.Some? && c0.value in s'.ctxs ==> PhaseInv(s', c0.value, s'.ctxs[c0.value])
    ensures Inv(s')
  {
    hide Agree, IdrInv, WorkInv, ObjInv, ThreadInv, PhaseInv, InIdr, WorkSet;
    SameWork(s, s', o0, t0, c0);
    Assemble(s, s', o0, t0, c0);
  }

  /** The table gains the entry of a new descriptor. */
  lemma AllocIdr(s: Vm, s': Vm, id: nat)
    requires IdrInv(s) && id !in s.idr && s.next !in s.heap && s'.idr == s.idr[id := s.next]
    requires s.next in s'.heap && s'.heap[s.next].id == id && s'.heap == s.heap[s.next := s'.heap[s.next]]
    ensures IdrInv(s') && InIdr(s', s.next) && forall x :: x in s.heap ==> (InIdr(s', x) <==> InIdr(s, x))
  {
  }

  lemma AllocInv(s: Vm, t: nat, c: nat, id: nat, pages: nat)
    requires Inv(s) && Enabled(s, Alloc(t, c, id, pages))
    ensures Inv(Do(s, Alloc(t, c, id, pages)))
  {
    hide DoTeardown, CanTeardown, DoWork, CanWork;
    hide PhaseInv, WorkInv;
    var s', o := Do(s, Alloc(t, c, id, pages)), s.next;
    FreshObj(s);
    AllocIdr(s, s', id);
    assert ObjInv(s', o, s'.heap[o]) && ThreadInv(s', t, Exporting(c, o));
    hide InIdr, ObjInv, ThreadInv, IdrInv;
    AssembleSame(s, s', o, Some(t), None);
  }

  /** A step of thread `t` on its descriptor that keeps the table. */
  lemma ThreadStep(s: Vm, s': Vm, t: nat, o: nat, e: Exp)
    requires Inv(s) && s' == s.(heap := s.heap[o := e], threads := s'.threads)
    requires t in s.threads && ObjOf(s.threads[t]) == Some(o) && s'.threads - {t} == s.threads - {t}
    requires o in s.heap && e.id == s.heap[o].id && s.heap[o].owner == Thread(t) && s.heap[o].place != ReclaimList
    requires (InIdr(s', o) <==> InIdr(s, o)) ==>
      ObjInv(s', o, e) && (t in s'.threads ==> ThreadInv(s', t, s'.threads[t]))
    ensures Inv(s')
  {
    hide ObjInv, ThreadInv, PhaseInv, WorkInv;
    SameIdr(s, s', o);
    hide InIdr, IdrInv;
    assert forall x :: x != t ==> (x in s'.threads <==> x in s.threads) && (x in s.threads ==> s'.threads[x] == s.threads[x]) by {
      OnlyThread(s.threads, s'.threads, t);
    }
    AssembleSame(s, s', o, Some(t), None);
  }

  lemma OnlyThread(m: map<nat, Pc>, m': map<nat, Pc>, t: nat)
    requires m' - {t} == m - {t}
    ensures forall x :: x != t ==> (x in m' <==> x in m) && (x in m ==> m'[x] == m[x])
  {
    forall x | x != t ensures (x in m' <==> x in m) && (x in m ==> m'[x] == m[x]) {
      assert x in m ==> x in m - {t};
      assert x in m' ==> x in m' - {t};
    }
  }

  lemma AbandonInv(s: Vm, t: nat)
    requires Inv(s) && Enabled(s, Abandon(t))
    ensures Inv(Do(s, Abandon(t)))
  {
    hide DoTeardown, CanTeardown, DoWork, CanWork;
    hide PhaseInv, WorkInv, IdrInv, InIdr;
    var o := s.threads[t].o;
    assert ThreadInv(s, t, s.threads[t]) && ObjInv(s, o, s.heap[o]);
    ThreadStep(s, Do(s, Abandon(t)), t, o, s.heap[o].(owner := Nobody));
  }

  lemma ListInv(s: Vm, t: nat)
    requires Inv(s) && Enabled(s, List(t))
    ensures Inv(Do(s, List(t)))
  {
    hide DoTeardown, CanTeardown, DoWork, CanWork;
    hide PhaseInv, WorkInv, IdrInv, InIdr;
    var o := s.threads[t].o;
    assert ThreadInv(s, t, s.threads[t]) && ObjInv(s, o, s.heap[o]);
    ThreadStep(s, Do(s, List(t)), t, o, s.heap[o].(place := Warehouse, home := s.threads[t].c));
  }

  lemma SucceedInv(s: Vm, t: nat)
    requires Inv(s) && Enabled(s, Succeed(t))
    ensures Inv(Do(s, Succeed(t)))
  {
    hide DoTeardown, CanTeardown, DoWork, CanWork;
    hide PhaseInv, WorkInv, IdrInv, InIdr;
    var o := s.threads[t].o;
    assert ThreadInv(s, t, s.threads[t]) && ObjInv(s, o, s.heap[o]);
    ThreadStep(s, Do(s, Succeed(t)), t, o, s.heap[o].(success := true, owner := Nobody));
  }

  lemma UnlinkInv(s: Vm, t: nat)
    requires Inv(s) && Enabled(s, Unlink(t))
    ensures Inv(Do(s, Unlink(t)))
  {
    hide DoTeardown, CanTeardown, DoWork, CanWork;
    hide PhaseInv, WorkInv, IdrInv, InIdr;
    var o := s.threads[t].o;
    assert ThreadInv(s, t, s.threads[t]) && ObjInv(s, o, s.heap[o]);
    ThreadStep(s, Do(s, Unlink(t)), t, o, s.heap[o].(place := Detached));
  }

  lemma RevokeFailInv(s: Vm, t: nat)
    requires Inv(s) && Enabled(s, RevokeFail(t))
    ensures Inv(Do(s, RevokeFail(t)))
  {
    hide DoTeardown, CanTeardown, DoWork, CanWork;
    hide PhaseInv, WorkInv, IdrInv, InIdr;
    var o := s.threads[t].o;
    assert ThreadInv(s, t, s.threads[t]) && ObjInv(s, o, s.heap[o]);
    ThreadStep(s, Do(s, RevokeFail(t)), t, o, s.heap[o].(owner := Nobody));
  }

  lemma AbortInv(s: Vm, t: nat)
    requires Inv(s) && Enabled(s, Abort(t))
    ensures Inv(Do(s, Abort(t)))
  {
    hide DoTeardown, CanTeardown, DoWork, CanWork;
    hide PhaseInv, WorkInv;
    var s', o := Do(s, Abort(t)), s.threads[t].o;
    assert ThreadInv(s, t, s.threads[t]) && ObjInv(s, o, s.heap[o]);
    LessIdr(s, s', o);
    hide IdrInv, InIdr;
    AssembleSame(s, s', o, Some(t), None);
  }

  lemma UnexportInv(s: Vm, t: nat, c: nat, id: nat)
    requires Inv(s) && Enabled(s, Unexport(t, c, id)) && OwnUnexport(s, Unexport(t, c, id))
    ensures Inv(Do(s, Unexport(t, c, id)))
  {
    if Unexportable(s, c, id) {
      hide DoTeardown, CanTeardown, DoWork, CanWork, ThreadInv, PhaseInv, WorkInv, ObjInv;
      var o := s.idr[id];
      assert InIdr(s, o) && s.heap[o].id == id;
      hide IdrInv, InIdr;
      ImportFinds(s, o, c);
      UnexportStep(s, Do(s, Unexport(t, c, id)), t, o);
    }
  }

  lemma UnexportStep(s: Vm, s': Vm, t: nat, o: nat)
    requires Inv(s) && t !in s.threads && o in s.heap && InIdr(s, o) && !s.heap[o].imported
    requires s.heap[o].owner == Nobody && s.heap[o].place == Warehouse && s.heap[o].ctx in s.ctxs && s.ctxs[s.heap[o].ctx] == Open
    requires s' == s.(heap := s.heap[o := s.heap[o].(owner := Thread(t))], idr := s.idr - {s.heap[o].id},
                      threads := s.threads[t := Unlinking(s.heap[o].ctx, o)])
    ensures Inv(s')
  {
    hide PhaseInv, WorkInv;
    LessIdr(s, s', o);
    assert ObjInv(s, o, s.heap[o]);
    hide IdrInv, InIdr;
    assert ThreadInv(s', t, s'.threads[t]) && ObjInv(s', o, s'.heap[o]);
    hide ObjInv, ThreadInv;
    AssembleSame(s, s', o, Some(t), None);
  }

  /** A descriptor that is in no table is freed by its thread. */
  lemma ThreadFreeInv(s: Vm, a: Act)
    requires Inv(s) && Enabled(s, a) && (a.Discard? || a.Release?)
    ensures Inv(Do(s, a))
  {
    hide DoTeardown, CanTeardown, DoWork, CanWork;
    var s', t := Do(s, a), a.t;
    var o := s.threads[t].o;
    FreeOwn(s, t);
    assert s' == s.(heap := s.heap - {o}, threads := s.threads - {t});
    hide Inv, Do, Enabled, InIdr;
    FreeStep(s, s', t, o);
  }

  /** What a thread frees is its own, in no list and in no table. */
  lemma FreeOwn(s: Vm, t: nat)
    requires Inv(s) && t in s.threads && (s.threads[t].Discarding? || s.threads[t].Revoking?)
    ensures var o := s.threads[t].o; o in s.heap && s.heap[o].owner == Thread(t) && s.heap[o].place == Detached && !InIdr(s, o)
  {
    hide ObjInv, PhaseInv, WorkInv, IdrInv, InIdr;
    assert ThreadInv(s, t, s.threads[t]);
  }

  lemma FreeStep(s: Vm, s': Vm, t: nat, o: nat)
    requires Inv(s) && t in s.threads && ObjOf(s.threads[t]) == Some(o)
    requires o in s.heap && s.heap[o].owner == Thread(t) && s.heap[o].place == Detached && !InIdr(s, o)
    requires s' == s.(heap := s.heap - {o}, threads := s.threads - {t})
    ensures Inv(s')
  {
    hide PhaseInv, WorkInv, WorkSet, ThreadInv, ObjInv;
    FreedIdr(s, s', o);
    hide IdrInv, InIdr;
    AssembleSame(s, s', o, Some(t), None);
  }

  lemma RecvImportInv(s: Vm, c: nat, id: nat, pages: nat)
    requires Inv(s) && Enabled(s, RecvImport(c, id, pages)) && SameVchan(s, RecvImport(c, id, pages))
    ensures Inv(Do(s, RecvImport(c, id, pages)))
  {
    hide DoTeardown, CanTeardown, DoWork, CanWork;
    hide WorkInv, ThreadInv;
    var s' := Do(s, RecvImport(c, id, pages));
    if Importable(s, id, pages) {
      var o := s.idr[id];
      assert ObjInv(s, o, s.heap[o]);
      ImportFinds(s, o, c);
      SameIdr(s, s', o);
      hide IdrInv, InIdr, PhaseInv;
      AssembleSame(s, s', o, None, None);
    }
  }

  /** An exported descriptor of a context that is still open is in its warehouse and nobody's. */
  lemma ImportFinds(s: Vm, o: nat, c: nat)
    requires Inv(s) && InIdr(s, o) && s.heap[o].success && s.heap[o].ctx == c && c in s.ctxs && s.ctxs[c] == Open && !Stale(s, o)
    ensures s.heap[o].owner == Nobody && s.heap[o].place == Warehouse
  {
  }

  /** Clearing `remote_imported` is harmless whoever works on the descriptor. */
  lemma ClearedInv(s: Vm, s': Vm, o: nat)
    requires Inv(s) && o in s.heap && s' == s.(heap := s.heap[o := s.heap[o].(imported := false)])
    ensures Inv(s')
  {
    hide InIdr, ObjInv, ThreadInv, PhaseInv, IdrInv, WorkInv;
    assert IdrInv(s') && (forall x :: InIdr(s', x) <==> InIdr(s, x)) by { SameIdr(s, s', o); }
    ClearedWork(s, s', o);
    forall x | x in s'.heap ensures ObjInv(s', x, s'.heap[x]) {
      assert ObjInv(s, x, s.heap[x]);
      ClearedObj(s, s', o, x);
    }
    forall t | t in s'.threads ensures ThreadInv(s', t, s'.threads[t]) {
      assert ThreadInv(s, t, s.threads[t]);
      ClearedThread(s, s', o, t);
    }
    forall c | c in s'.ctxs ensures PhaseInv(s', c, s'.ctxs[c]) {
      assert PhaseInv(s, c, s.ctxs[c]);
      ClearedPhase(s, s', o, c);
    }
  }

  ghost predicate Cleared(s: Vm, s': Vm, o: nat) {
    o in s.heap && s' == s.(heap := s.heap[o := s.heap[o].(imported := false)]) && forall x :: InIdr(s', x) <==> InIdr(s, x)
  }

  lemma ClearedWork(s: Vm, s': Vm, o: nat)
    requires Cleared(s, s', o) && WorkInv(s)
    ensures WorkInv(s')
  {
  }

  lemma ClearedObj(s: Vm, s': Vm, o: nat, x: nat)
    requires Cleared(s, s', o) && x in s.heap && ObjInv(s, x, s.heap[x])
    ensures ObjInv(s', x, s'.heap[x])
  {
  }

  lemma ClearedThread(s: Vm, s': Vm, o: nat, t: nat)
    requires Cleared(s, s', o) && t in s.threads && ThreadInv(s, t, s.threads[t])
    ensures ThreadInv(s', t, s'.threads[t])
  {
  }

  lemma ClearedPhase(s: Vm, s': Vm, o: nat, c: nat)
    requires Cleared(s, s', o) && c in s.ctxs && PhaseInv(s, c, s.ctxs[c])
    ensures PhaseInv(s', c, s'.ctxs[c])
  {
  }

  /** A thread with no descriptor comes or goes, or the pending mark changes. */
  lemma PlainInv(s: Vm, s': Vm, t: nat)
    requires Inv(s) && s' == s.(threads := s'.threads, pending := s'.pending) && s'.threads - {t} == s.threads - {t}
    requires t in s.threads ==> s.threads[t] == Marking
    requires t in s'.threads ==> s'.threads[t] == Marking
    ensures Inv(s')
  {
    hide ObjInv, PhaseInv, WorkInv, InIdr;
    FreshObj(s);
    SameIdr(s, s', s.next);
    OnlyThread(s.threads, s'.threads, t);
    AssembleSame(s, s', s.next, Some(t), None);
  }

  lemma FreshObj(s: Vm)
    requires Inv(s)
    ensures s.next !in s.heap
  {
  }

  lemma RecvUnimportInv(s: Vm, t: nat, id: nat, vchan: bool)
    requires Inv(s) && Enabled(s, RecvUnimport(t, id, vchan))
    ensures Inv(Do(s, RecvUnimport(t, id, vchan)))
  {
    hide DoTeardown, CanTeardown, DoWork, CanWork;
    var s' := Do(s, RecvUnimport(t, id, vchan));
    assert id in s.idr ==> s.idr[id] in s.heap;
    hide Inv;
    if id in s.idr {
      var o := s.idr[id];
      var u := s.(heap := s.heap[o := s.heap[o].(imported := false)]);
      ClearedInv(s, u, o);
      if !vchan { PlainInv(u, s', t); }
    } else if !vchan {
      PlainInv(s, s', t);
    }
  }

  // contexts

  lemma BeginFreeInv(s: Vm, c: nat)
    requires Inv(s) && Enabled(s, BeginFree(c))
    ensures Inv(Do(s, BeginFree(c)))
  {
    hide DoThread, CanThread, DoWork, CanWork;
    var s' := Do(s, BeginFree(c));
    assert forall o :: InIdr(s', o) <==> InIdr(s, o);
    hide InIdr;
    assert IdrInv(s') && WorkInv(s');
    hide IdrInv, WorkInv;
    forall o | o in s'.heap ensures ObjInv(s', o, s'.heap[o]) { assert ObjInv(s, o, s.heap[o]); }
    hide ObjInv;
    forall t | t in s'.threads ensures ThreadInv(s', t, s'.threads[t]) { assert ThreadInv(s, t, s.threads[t]); }
    forall x | x in s'.ctxs ensures PhaseInv(s', x, s'.ctxs[x]) { assert PhaseInv(s, x, s.ctxs[x]); }
  }

  lemma EndFreeInv(s: Vm, c: nat)
    requires Inv(s) && Enabled(s, EndFree(c))
    ensures Inv(Do(s, EndFree(c)))
  {
    hide DoThread, CanThread, DoWork, CanWork;
    var s' := Do(s, EndFree(c));
    assert forall o :: InIdr(s', o) <==> InIdr(s, o);
    hide InIdr;
    assert IdrInv(s') && WorkInv(s');
    hide IdrInv, WorkInv;
    forall o | o in s'.heap ensures ObjInv(s', o, s'.heap[o]) { assert ObjInv(s, o, s.heap[o]); }
    hide ObjInv;
    forall t | t in s'.threads ensures ThreadInv(s', t, s'.threads[t]) { assert ThreadInv(s, t, s.threads[t]); }
    forall x | x in s'.ctxs ensures PhaseInv(s', x, s'.ctxs[x]) { assert PhaseInv(s, x, s.ctxs[x]); }
  }

  lemma ReopenInv(s: Vm, c: nat)
    requires Inv(s) && Enabled(s, Reopen(c))
    ensures Inv(Do(s, Reopen(c)))
  {
    hide DoThread, CanThread, DoWork, CanWork;
    var s' := Do(s, Reopen(c));
    assert forall o :: InIdr(s', o) <==> InIdr(s, o);
    hide InIdr;
    assert IdrInv(s') && WorkInv(s');
    hide IdrInv, WorkInv;
    forall o | o in s'.heap ensures ObjInv(s', o, s'.heap[o]) { assert ObjInv(s, o, s.heap[o]); }
    hide ObjInv;
    forall t | t in s'.threads ensures ThreadInv(s', t, s'.threads[t]) { assert ThreadInv(s, t, s.threads[t]); }
    forall x | x in s'.ctxs ensures PhaseInv(s', x, s'.ctxs[x]) { assert PhaseInv(s, x, s.ctxs[x]); }
  }

  lemma CtxScheduleInv(s: Vm, c: nat)
    requires Inv(s) && Enabled(s, CtxSchedule(c))
    ensures Inv(Do(s, CtxSchedule(c)))
  {
    hide DoThread, CanThread, DoWork, CanWork;
    hide ObjInv, ThreadInv, WorkInv, InIdr;
    var s' := Do(s, CtxSchedule(c));
    FreshObj(s);
    SameIdr(s, s', s.next);
    AssembleSame(s, s', s.next, None, Some(c));
  }

  lemma PickInv(s: Vm, c: nat, o: nat)
    requires Inv(s) && Enabled(s, Pick(c, o))
    ensures Inv(Do(s, Pick(c, o)))
  {
    var s' := Do(s, Pick(c, o));
    var e := s.heap[o].(place := Detached, owner := Context(c));
    PickEffect(s, c, o, e);
    Picked(s, c, o);
    assert c in s.ctxs && s.ctxs[c] == Walking && o in s.heap;
    hide Inv, Do, Enabled;
    if InIdr(s', o) <==> InIdr(s, o) { PickedObj(s, s', c, o, e); }
    hide InIdr, ObjInv, PhaseInv;
    PhaseStep(s, s', c, o, e);
  }

  lemma PickEffect(s: Vm, c: nat, o: nat, e: Exp)
    requires Enabled(s, Pick(c, o)) && e == s.heap[o].(place := Detached, owner := Context(c))
    ensures Do(s, Pick(c, o)) == s.(heap := s.heap[o := e], ctxs := s.ctxs[c := if e.imported then Keeping(o) else Dropping(o)])
  {
    hide DoThread, CanThread, DoWork, CanWork;
  }

  lemma PickedObj(s: Vm, s': Vm, c: nat, o: nat, e: Exp)
    requires o in s.heap && ObjInv(s, o, s.heap[o]) && s.heap[o].success && InIdr(s', o) && InIdr(s, o) && s.heap[o].ctx == c && c in s.ctxs
    requires e == s.heap[o].(place := Detached, owner := Context(c))
    requires s' == s.(heap := s.heap[o := e], ctxs := s.ctxs[c := if e.imported then Keeping(o) else Dropping(o)])
    ensures ObjInv(s', o, e) && PhaseInv(s', c, s'.ctxs[c])
  {
    hide InIdr;
  }

  /** What a context being freed finds in its warehouse is nobody else's. */
  lemma Picked(s: Vm, c: nat, o: nat)
    requires Inv(s) && Enabled(s, Pick(c, o))
    ensures s.heap[o].owner == Nobody && s.heap[o].success && s.heap[o].ctx == c && InIdr(s, o) && ObjInv(s, o, s.heap[o])
  {
  }

  /** A step of context `c` on a descriptor it holds or picks, that keeps the table. */
  lemma PhaseStep(s: Vm, s': Vm, c: nat, o: nat, e: Exp)
    requires Inv(s) && c in s.ctxs && o in s.heap && e.id == s.heap[o].id
    requires s' == s.(heap := s.heap[o := e], ctxs := s'.ctxs) && c in s'.ctxs && s'.ctxs == s.ctxs[c := s'.ctxs[c]]
    requires s.heap[o].owner in {Nobody, Context(c)} && s.heap[o].place != ReclaimList
    requires PhaseObj(s.ctxs[c]) in {None, Some(o)} && s.ctxs[c] !in {Open, Gone} && s'.ctxs[c] !in {Open, Gone}
    requires (InIdr(s', o) <==> InIdr(s, o)) ==> ObjInv(s', o, e) && PhaseInv(s', c, s'.ctxs[c])
    ensures Inv(s')
  {
    hide ObjInv, ThreadInv, PhaseInv, WorkInv;
    SameIdr(s, s', o);
    hide InIdr, IdrInv, WorkSet;
    AssembleSame(s, s', o, None, Some(c));
  }

  lemma DropInv(s: Vm, c: nat)
    requires Inv(s) && Enabled(s, Drop(c))
    ensures Inv(Do(s, Drop(c)))
  {
    hide DoThread, CanThread, DoWork, CanWork, WorkInv, ThreadInv, ObjInv, IdrInv;
    assert PhaseInv(s, c, s.ctxs[c]);
    DropStep(s, Do(s, Drop(c)), c, s.ctxs[c].o);
  }

  lemma DropStep(s: Vm, s': Vm, c: nat, o: nat)
    requires Inv(s) && c in s.ctxs && s.ctxs[c] == Dropping(o)
    requires o in s.heap && s' == s.(idr := s.idr - {s.heap[o].id}, ctxs := s.ctxs[c := Freeing(o)])
    ensures Inv(s')
  {
    hide WorkInv, ThreadInv;
    assert PhaseInv(s, c, s.ctxs[c]) && ObjInv(s, o, s.heap[o]);
    LessIdr(s, s', o);
    hide InIdr, IdrInv;
    assert ObjInv(s', o, s'.heap[o]) && PhaseInv(s', c, s'.ctxs[c]);
    hide ObjInv, PhaseInv;
    AssembleSame(s, s', o, None, Some(c));
  }

  lemma DropFreeInv(s: Vm, c: nat)
    requires Inv(s) && Enabled(s, DropFree(c))
    ensures Inv(Do(s, DropFree(c)))
  {
    hide DoThread, CanThread, DoWork, CanWork;
    hide WorkInv, ThreadInv;
    var s', o := Do(s, DropFree(c)), s.ctxs[c].o;
    assert PhaseInv(s, c, s.ctxs[c]) && ObjInv(s, o, s.heap[o]);
    FreedIdr(s, s', o);
    hide InIdr, IdrInv, ObjInv;
    AssembleSame(s, s', o, None, Some(c));
  }

  lemma KeepInv(s: Vm, c: nat)
    requires Inv(s) && Enabled(s, Keep(c))
    ensures Inv(Do(s, Keep(c)))
  {
    var s', o := Do(s, Keep(c)), s.ctxs[c].o;
    KeepEffect(s, c);
    var e := s.heap[o].(place := ReclaimList, owner := Nobody);
    hide Do, Enabled, Inv;
    if InIdr(s', o) <==> InIdr(s, o) { KeptObj(s, s', c, o, e); }
    hide InIdr, ObjInv, PhaseInv;
    PhaseStep(s, s', c, o, e);
  }

  lemma KeepEffect(s: Vm, c: nat)
    requires Inv(s) && Enabled(s, Keep(c))
    ensures PhaseInv(s, c, s.ctxs[c]) && s.ctxs[c].o in s.heap && ObjInv(s, s.ctxs[c].o, s.heap[s.ctxs[c].o])
    ensures
      var o := s.ctxs[c].o;
      Do(s, Keep(c)) == s.(heap := s.heap[o := s.heap[o].(place := ReclaimList, owner := Nobody)], ctxs := s.ctxs[c := Scheduling])
  {
    hide DoThread, CanThread, DoWork, CanWork, WorkInv, ThreadInv, IdrInv, InIdr, ObjInv;
    assert PhaseInv(s, c, s.ctxs[c]);
    assert ObjInv(s, s.ctxs[c].o, s.heap[s.ctxs[c].o]);
  }

  lemma KeptObj(s: Vm, s': Vm, c: nat, o: nat, e: Exp)
    requires c in s.ctxs && s.ctxs[c] == Keeping(o) && PhaseInv(s, c, s.ctxs[c]) && ObjInv(s, o, s.heap[o])
    requires e == s.heap[o].(place := ReclaimList, owner := Nobody) && (InIdr(s', o) <==> InIdr(s, o))
    requires s' == s.(heap := s.heap[o := e], ctxs := s.ctxs[c := Scheduling])
    ensures ObjInv(s', o, e) && PhaseInv(s', c, s'.ctxs[c])
  {
    hide InIdr;
  }

  // the worker

  lemma WorkStartInv(s: Vm)
    requires Inv(s) && Enabled(s, WorkStart)
    ensures Inv(Do(s, WorkStart))
  {
    hide DoThread, CanThread, DoTeardown, CanTeardown;
    hide ThreadInv, PhaseInv, ObjInv;
    FreshObj(s);
    var s' := Do(s, WorkStart);
    assert WorkInv(s');
    SameIdr(s, s', s.next);
    hide InIdr, IdrInv, WorkInv;
    Assemble(s, s', s.next, None, None);
  }

  /** What the worker does with one entry of the list. */
  ghost predicate ScanLeads(s: Vm, s': Vm, o: nat) {
    && o in s.heap && ObjInv(s, o, s.heap[o]) && s.heap[o].place == ReclaimList && s.work.Scanning?
    && if s.heap[o].imported then s' == s.(work := Scanning(s.work.todo - {o}, s.work.found))
       else s' == s.(heap := s.heap[o := s.heap[o].(place := FreeList, owner := Worker)],
                     work := Scanning(s.work.todo - {o}, s.work.found + {o}))
  }

  lemma ScanEffect(s: Vm, o: nat)
    requires Inv(s) && Enabled(s, ScanOne(o))
    ensures ScanLeads(s, Do(s, ScanOne(o)), o)
  {
    hide DoThread, CanThread, DoTeardown, CanTeardown, ThreadInv, PhaseInv, IdrInv, ObjInv;
    assert ObjInv(s, o, s.heap[o]);
  }

  lemma ScanOneInv(s: Vm, o: nat)
    requires Inv(s) && Enabled(s, ScanOne(o))
    ensures Inv(Do(s, ScanOne(o)))
  {
    hide ThreadInv, PhaseInv, ObjInv, InIdr, IdrInv, WorkInv;
    var s' := Do(s, ScanOne(o));
    ScanEffect(s, o);
    hide Do, Enabled, ScanLeads;
    ScanTable(s, s', o);
    ScanWork(s, s', o);
    ScanObj(s, s', o);
    ScanAgree(s, s', o);
    Assemble(s, s', o, None, None);
  }

  lemma ScanTable(s: Vm, s': Vm, o: nat)
    requires IdrInv(s) && ScanLeads(s, s', o)
    ensures IdrInv(s') && forall x :: InIdr(s', x) <==> InIdr(s, x)
  {
    hide ObjInv;
    SameIdr(s, s', o);
  }

  lemma ScanAgree(s: Vm, s': Vm, o: nat)
    requires !s.fault && ScanLeads(s, s', o) && forall x :: InIdr(s', x) <==> InIdr(s, x)
    ensures Agree(s, s', o, None, None)
  {
    hide InIdr;
  }

  lemma ScanObj(s: Vm, s': Vm, o: nat)
    requires ScanLeads(s, s', o) && (InIdr(s', o) <==> InIdr(s, o))
    ensures o in s'.heap && ObjInv(s', o, s'.heap[o])
  {
    hide InIdr;
  }

  lemma ScanWork(s: Vm, s': Vm, o: nat)
    requires WorkInv(s) && ScanLeads(s, s', o) && forall x :: InIdr(s', x) <==> InIdr(s, x)
    ensures WorkInv(s')
  {
    assert InIdr(s, o);
    hide InIdr, ObjInv;
  }

  lemma ReapInv(s: Vm, o: nat)
    requires Inv(s) && Enabled(s, Reap(o))
    ensures Inv(Do(s, Reap(o)))
  {
    hide Do, Enabled, WorkSet, ObjInv, WorkInv, InIdr, IdrInv, ThreadInv, PhaseInv;
    ReapEffect(s, o);
    ReapStep(s, Do(s, Reap(o)), o);
  }

  lemma ReapStep(s: Vm, s': Vm, o: nat)
    requires Inv(s) && o in s.heap && s.heap[o].owner == Worker && InIdr(s, o) && ObjInv(s, o, s.heap[o])
    requires s.work.Reaping? && o in s.work.found
    requires s' == s.(heap := s.heap[o := s.heap[o].(place := Detached)], idr := s.idr - {s.heap[o].id}, work := Putting(o, s.work.found - {o}))
    ensures Inv(s')
  {
    hide WorkSet, ObjInv, WorkInv, ThreadInv, PhaseInv;
    LessIdr(s, s', o);
    hide IdrInv, InIdr;
    ReapWork(s, s', o);
    ReapObj(s, s', o);
    Assemble(s, s', o, None, None);
  }

  lemma ReapEffect(s: Vm, o: nat)
    requires Inv(s) && Enabled(s, Reap(o))
    ensures o in s.heap && s.heap[o].owner == Worker && InIdr(s, o) && ObjInv(s, o, s.heap[o]) && s.work.Reaping? && o in s.work.found
    ensures Do(s, Reap(o))
      == s.(heap := s.heap[o := s.heap[o].(place := Detached)], idr := s.idr - {s.heap[o].id}, work := Putting(o, s.work.found - {o}))
  {
    hide DoThread, CanThread, DoTeardown, CanTeardown, ThreadInv, PhaseInv, IdrInv, ObjInv;
  }

  lemma ReapWork(s: Vm, s': Vm, o: nat)
    requires WorkInv(s) && s.work.Reaping? && o in s.work.found && s'.work == Putting(o, s.work.found - {o})
    requires s'.heap == s.heap[o := s.heap[o].(place := Detached)] && !InIdr(s', o) && forall x :: x != o ==> (InIdr(s', x) <==> InIdr(s, x))
    ensures WorkInv(s') && o in WorkSet(s'.work) && forall x :: x in WorkSet(s.work) ==> x in WorkSet(s'.work)
  {
  }

  lemma ReapObj(s: Vm, s': Vm, o: nat)
    requires o in s.heap && ObjInv(s, o, s.heap[o]) && s.heap[o].owner == Worker && !InIdr(s', o)
    requires s' == s.(heap := s.heap[o := s.heap[o].(place := Detached)], idr := s'.idr, work := s'.work) && o in WorkSet(s'.work)
    ensures ObjInv(s', o, s'.heap[o])
  {
  }

  lemma PutInv(s: Vm)
    requires Inv(s) && Enabled(s, Put)
    ensures Inv(Do(s, Put))
  {
    hide DoThread, CanThread, DoTeardown, CanTeardown;
    hide ThreadInv, PhaseInv, ObjInv;
    var s', o := Do(s, Put), s.work.o;
    FreedIdr(s, s', o);
    hide IdrInv, InIdr;
    assert WorkInv(s');
    hide WorkInv;
    Assemble(s, s', o, None, None);
  }

  lemma WorkSetInv(s: Vm, a: Act)
    requires Inv(s) && Enabled(s, a) && (a.ScanDone? || a.WorkEnd?)
    ensures Inv(Do(s, a))
  {
    hide DoThread, CanThread, DoTeardown, CanTeardown;
    hide ThreadInv, PhaseInv, ObjInv;
    FreshObj(s);
    var s' := Do(s, a);
    SameIdr(s, s', s.next);
    hide IdrInv, InIdr;
    assert WorkInv(s');
    Assemble(s, s', s.next, None, None);
  }

  lemma {:induction false} DoInv(s: Vm, a: Act)
    requires Inv(s) && Enabled(s, a) && Allowed(s, a)
    ensures Inv(Do(s, a))
  {
    hide Inv, SameVchan, OwnUnexport;
    match a
    case Alloc(t, c, id, pages) => AllocInv(s, t, c, id, pages);
    case Abort(t) => AbortInv(s, t);
    case Discard(_) => ThreadFreeInv(s, a);
    case Abandon(t) => AbandonInv(s, t);
    case List(t) => ListInv(s, t);
    case Succeed(t) => SucceedInv(s, t);
    case Unexport(t, c, id) => UnexportInv(s, t, c, id);
    case Unlink(t) => UnlinkInv(s, t);
    case RevokeFail(t) => RevokeFailInv(s, t);
    case Release(_) => ThreadFreeInv(s, a);
    case RecvImport(c, id, pages) => RecvImportInv(s, c, id, pages);
    case RecvUnimport(t, id, vchan) => RecvUnimportInv(s, t, id, vchan);
    case Schedule(t) => PlainInv(s, Do(s, a), t);
    case BeginFree(c) => BeginFreeInv(s, c);
    case Pick(c, o) => PickInv(s, c, o);
    case Drop(c) => DropInv(s, c);
    case DropFree(c) => DropFreeInv(s, c);
    case Keep(c) => KeepInv(s, c);
    case CtxSchedule(c) => CtxScheduleInv(s, c);
    case EndFree(c) => EndFreeInv(s, c);
    case Reopen(c) => ReopenInv(s, c);
    case WorkStart => WorkStartInv(s);
    case ScanOne(o) => ScanOneInv(s, o);
    case ScanDone => WorkSetInv(s, a);
    case Reap(o) => ReapInv(s, o);
    case Put => PutInv(s);
    case WorkEnd => WorkSetInv(s, a);
  }

  // ---------------------------------------------------------------- what every step leaves alone

  /** The descriptor a step works on. */
  function TouchedByThread(s: Vm, a: Act): Option<nat>
    requires CanThread(s, a)
  {
    match a
    case Alloc(_, _, _, _) => None
    case Unexport(_, c, id) => if Unexportable(s, c, id) then Some(s.idr[id]) else None
    case RecvImport(_, id, _) => if id in s.idr then Some(s.idr[id]) else None
    case RecvUnimport(_, id, _) => if id in s.idr then Some(s.idr[id]) else None
    case _ => ObjOf(s.threads[a.t])
  }

  function TouchedByTeardown(s: Vm, a: Act): Option<nat>
    requires CanTeardown(s, a)
  {
    if a.Pick? then Some(a.o) else PhaseObj(s.ctxs[a.c])
  }

  function TouchedByWork(s: Vm, a: Act): Option<nat>
    requires CanWork(s, a)
  {
    if a.ScanOne? || a.Reap? then Some(a.o) else if a.Put? then Some(s.work.o) else None
  }

  function Touched(s: Vm, a: Act): Option<nat>
    requires Enabled(s, a)
  {
    if ByThread(a) then TouchedByThread(s, a) else if ByTeardown(a) then TouchedByTeardown(s, a) else TouchedByWork(s, a)
  }

  /** Handles are new, descriptors keep still but for the one touched, and what is pending stays so. */
  ghost predicate Still(s: Vm, s': Vm, touched: Option<nat>) {
    && s.next <= s'.next && (forall o :: o in s'.heap ==> o in s.heap || s.next <= o)
    && (forall o :: o in s.heap && touched != Some(o) ==> o in s'.heap && s'.heap[o] == s.heap[o])
    && (s.pending && (s'.work.Scanning? ==> s.work.Scanning?) ==> s'.pending)
  }

  /** Besides, each party moves only itself. */
  ghost predicate Framed(s: Vm, a: Act, s': Vm)
    requires Enabled(s, a)
  {
    && Still(s, s', Touched(s, a))
    && (ByThread(a) ==> s'.ctxs == s.ctxs && s'.work == s.work)
    && (!ByThread(a) ==> s'.threads == s.threads)
    && (ByTeardown(a) ==> s'.work == s.work && forall c :: c in s.ctxs && c != a.c ==> c in s'.ctxs && s'.ctxs[c] == s.ctxs[c])
    && (ByWorker(a) ==> s'.ctxs == s.ctxs)
  }

  lemma Frame(s: Vm, a: Act)
    requires Inv(s) && Enabled(s, a)
    ensures Framed(s, a, Do(s, a))
  {
    hide Do, Enabled, Framed;
    FreshObj(s);
    hide Inv;
    StepFrame(s, a);
  }

  lemma StepFrame(s: Vm, a: Act)
    requires Enabled(s, a) && s.next !in s.heap
    ensures Framed(s, a, Do(s, a))
  {
    hide DoThread, CanThread, DoTeardown, CanTeardown, DoWork, CanWork, Still, TouchedByThread, TouchedByTeardown, TouchedByWork;
    if ByThread(a) {
      ThreadFrame(s, a);
    } else if ByTeardown(a) {
      TeardownFrame(s, a);
    } else {
      WorkFrame(s, a);
    }
  }

  lemma ThreadFrame(s: Vm, a: Act)
    requires CanThread(s, a) && s.next !in s.heap
    ensures var s' := DoThread(s, a); Still(s, s', TouchedByThread(s, a)) && s'.ctxs == s.ctxs && s'.work == s.work
  {
    if WithDescriptor(a) { WorkingFrame(s, a); } else { LookingFrame(s, a); }
    hide DoThread, CanThread, TouchedByThread, Still;
  }

  /** A step of a thread on the descriptor it already has. */
  predicate WithDescriptor(a: Act) {
    a.Abort? || a.Discard? || a.Abandon? || a.List? || a.Succeed? || a.Unlink? || a.RevokeFail? || a.Release?
  }

  lemma WorkingFrame(s: Vm, a: Act)
    requires WithDescriptor(a) && CanThread(s, a)
    ensures var s' := DoThread(s, a); Still(s, s', TouchedByThread(s, a)) && s'.ctxs == s.ctxs && s'.work == s.work
  {
    hide Own, Shelve, Unshelve, RemoveId, Free;
  }

  lemma LookingFrame(s: Vm, a: Act)
    requires !WithDescriptor(a) && CanThread(s, a) && s.next !in s.heap
    ensures var s' := DoThread(s, a); Still(s, s', TouchedByThread(s, a)) && s'.ctxs == s.ctxs && s'.work == s.work
  {
    hide Own, RemoveId;
  }

  lemma TeardownFrame(s: Vm, a: Act)
    requires CanTeardown(s, a)
    ensures var s' := DoTeardown(s, a); Still(s, s', TouchedByTeardown(s, a)) && s'.threads == s.threads && s'.work == s.work
    ensures forall c :: c in s.ctxs && c != a.c ==> c in DoTeardown(s, a).ctxs && DoTeardown(s, a).ctxs[c] == s.ctxs[c]
  {
    hide Own, Move, Unshelve, RemoveId, Free;
  }

  lemma WorkFrame(s: Vm, a: Act)
    requires CanWork(s, a)
    ensures var s' := DoWork(s, a); Still(s, s', TouchedByWork(s, a)) && s'.threads == s.threads && s'.ctxs == s.ctxs
  {
    hide Own, Move, RemoveId, Free, ReclaimSet;
    if a.ScanOne? || a.Reap? {
      ListFrame(s, a);
      hide Still, DoWork, CanWork, TouchedByWork;
    }
  }

  lemma ListFrame(s: Vm, a: Act)
    requires (a.ScanOne? || a.Reap?) && CanWork(s, a)
    ensures var s' := DoWork(s, a); Still(s, s', Some(a.o)) && s'.threads == s.threads && s'.ctxs == s.ctxs
  {
    hide Own, Move, RemoveId;
    if a.ScanOne? { ScanFrame(s, a.o); hide DoWork, CanWork; }
  }

  lemma ScanFrame(s: Vm, o: nat)
    requires CanWork(s, ScanOne(o))
    ensures var s' := DoWork(s, ScanOne(o)); Still(s, s', Some(o)) && s'.threads == s.threads && s'.ctxs == s.ctxs
  {
    hide Own, Move;
  }

  /** No step brings a descriptor back. */
  lemma StaysFree(s: Vm, a: Act, o: nat)
    requires Inv(s) && Enabled(s, a) && o < s.next
    ensures o < Do(s, a).next && (o !in s.heap ==> o !in Do(s, a).heap)
  {
    Frame(s, a);
    hide Inv, Do, Enabled;
  }
}
