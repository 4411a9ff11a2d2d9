/**
 The way back: what an importer lets go of is told to the exporter, and `remote_imported` is set only while
 somebody still has the memory or the message that will clear it is on its way.
 */
module FlagReturns {
  import opened Common
  import opened MemShare

  import I = ImportSide
  import E = ExportSide
  import R = ExportRuns

  // ---------------------------------------------------------------- UNIMPORT is handed to the channel

  /** The step takes node `h` of context `c` out of what is still to be told to the exporter. */
  ghost predicate LetsGo(s: Sys, a: Act, c: nat, h: nat)
    requires Enabled(s, a)
  {
    && c in s.imps && I.Unsent(s.imps[c], h)
    && c in Do(s, a).imps && !I.Unsent(Do(s, a).imps[c], h)
  }

  /** Exactly one UNIMPORT of this export id is put at the end of the channel, and nothing else. */
  predicate Tells(s: Sys, s': Sys, id: nat) { s'.toExp == s.toExp + [Unimport(s.serial, id)] && s'.serial == s.serial + 1 }

  /**
   A node is let go of only by a step of its own context; unless its unmapping failed in teardown, and unless the
   channel refuses the message, that step hands one UNIMPORT of its export id to the channel.
   */
  lemma {:induction false} LetGoIsTold(s: Sys, a: Act, c: nat, h: nat)
    requires Inv(s) && Enabled(s, a) && LetsGo(s, a, c, h)
    ensures a.ImpStep? && a.c == c
    ensures a.i == I.PopSend(false) ==> Do(s, a).toExp == s.toExp
    ensures a.i != I.PopSend(false) && a.delivered ==> Tells(s, Do(s, a), s.imps[c].heap[h].desc.key.exportId)
    ensures !a.delivered ==> Do(s, a).toExp == s.toExp
  {
    hide E.Inv, E.Do, E.Enabled, E.Importable, I.Inv, I.Do, I.Enabled, I.Unsent, I.Refuses, I.Unimports, I.Retires, Queues, ClaimOk, DescOk;
    assert CtxOk(s, c, s.imps[c]);
    CtxSound(s, c, s.imps[c]);
    hide CtxOk;
    if a.ImpStep? && a.c == c {
      hide Inv;
      I.UnimportsExactly(s.imps[c], a.i, h, 0);
      UnmapFailure(s.imps[c], a.i);
    } else {
      KeepsUnsent(s, a, c, h);
    }
  }

  lemma UnmapFailure(x: I.Ctx, i: I.Act)
    requires I.Enabled(x, i)
    ensures i == I.PopSend(false) ==> I.Unimports(x, i) == None
  {
  }

  /** Sending an IMPORT and receiving an answer let go of nothing. */
  lemma KeepsUnsent(s: Sys, a: Act, c: nat, h: nat)
    requires Inv(s) && Enabled(s, a) && c in s.imps && I.Unsent(s.imps[c], h) && !(a.ImpStep? && a.c == c)
    ensures c in Do(s, a).imps && I.Unsent(Do(s, a).imps[c], h)
  {
    hide E.Inv, E.Do, E.Enabled, E.Importable, I.Inv, I.Do, I.Enabled, I.Unsent, I.Refuses, I.Unimports, I.Retires, Queues, ClaimOk, DescOk;
    var x := s.imps[c];
    assert CtxOk(s, c, x);
    CtxSound(s, c, x);
    hide Inv, CtxOk;
    if a.SendImport? && a.c == c {
      StepKeeps(x, I.SendImport(a.t, KeyOf(a.id), a.vcLocal, a.vcRemote), h);
    } else if a.TakeAckFail? && s.toImp[0].ictx == c {
      var m := s.toImp[0];
      StepKeeps(x, I.ReceiveFail(a.t, KeyOf(m.id), m.vcLocal, m.vcRemote), h);
    } else if a.TakeAck? && s.toImp[0].ictx == c {
      StepKeeps(x, RecvAck(s, a.t, a.outcome), h);
    }
  }

  lemma StepKeeps(x: I.Ctx, i: I.Act, h: nat)
    requires I.Inv(x) && x.proto == 1 && I.Enabled(x, i) && (i.SendImport? || i.ReceiveFail? || i.Receive?) && I.Unsent(x, h)
    ensures I.Unsent(I.Do(x, i), h)
  {
    hide I.Inv, I.Do, I.Enabled, I.Unsent;
    if i.Receive? { MoreAfter(x, i); } else { LessAfter(x, i); RetiresNothing(x, i); }
    hide I.Refuses;
  }

  lemma RetiresNothing(x: I.Ctx, i: I.Act)
    requires I.Enabled(x, i) && (i.SendImport? || i.ReceiveFail?)
    ensures I.Retires(x, i) == None
  {
  }

  /**
   Over a run: between two states of which the first has node `h` in a warehouse with UNIMPORT unsent and the second
   has not, there is a step that unmapped it in vain, failed to send, or put exactly its UNIMPORT into the channel.
   */
  lemma {:induction false} NoSilentRelease(ss: seq<Sys>, steps: seq<Act>, i: nat, j: nat, c: nat, h: nat) returns (k: nat)
    requires IsRun(ss, steps) && i <= j < |ss| && c in ss[i].imps && I.Unsent(ss[i].imps[c], h)
    requires c in ss[j].imps && !I.Unsent(ss[j].imps[c], h)
    ensures i <= k < j && Enabled(ss[k], steps[k]) && ss[k + 1] == Do(ss[k], steps[k]) && LetsGo(ss[k], steps[k], c, h)
    ensures steps[k].ImpStep? && steps[k].c == c
    ensures
      || steps[k].i == I.PopSend(false) || !steps[k].delivered
      || Tells(ss[k], ss[k + 1], ss[k].imps[c].heap[h].desc.key.exportId)
    decreases j
  {
    hide Inv, Enabled, Do, Allowed, Start, I.Unsent;
    RunInv(ss, steps, j - 1);
    assert Leads(ss[j - 1], steps[j - 1], ss[j - 1 + 1]);
    SameContexts(ss[j - 1], steps[j - 1]);
    if I.Unsent(ss[j - 1].imps[c], h) {
      k := j - 1;
      LetGoIsTold(ss[k], steps[k], c, h);
    } else {
      k := NoSilentRelease(ss, steps, i, j - 1, c, h);
    }
  }

  lemma SameContexts(s: Sys, a: Act)
    requires Enabled(s, a)
    ensures Do(s, a).imps.Keys == s.imps.Keys
  {
    hide E.Do, E.Enabled, I.Do, I.Enabled, I.Unimports, I.Retires;
  }

  // ---------------------------------------------------------------- the flag is accounted for

  /** An import of the id is answered or in a context's hands, or its UNIMPORT is on its way. */
  predicate Accounted(s: Sys, id: nat) {
    || ClaimOf(s, id).Acked? || ClaimOf(s, id).Inserted? || ClaimOf(s, id).Refused?
    || exists m :: m in s.toExp && m.Unimport? && m.id == id
  }

  ghost predicate FlagOk(s: Sys) {
    forall o :: o in s.exp.heap && s.exp.heap[o].imported ==> Accounted(s, s.exp.heap[o].id)
  }

  /** Nothing that tells either side is lost: no answer, no UNIMPORT, no descriptor for want of memory, no unmapping failure. */
  predicate Lossless(s: Sys, a: Act)
    requires Enabled(s, a)
  {
    match a
    case TakeImport(answered) => answered
    case DropAck => s.toImp[0].AckFail?
    case TakeAck(_, outcome) => outcome != I.NoMemory && KeyOf(s.toImp[0].id) !in s.imps[s.toImp[0].ictx].whse
    case ImpStep(_, i, delivered) => delivered && i != I.PopSend(false)
    case _ => true
  }

  /** Only an IMPORT sets the flag. */
  lemma FlagBefore(e: E.Vm, a: E.Act, o: nat)
    requires E.Inv(e) && E.Enabled(e, a) && !a.RecvImport? && o in E.Do(e, a).heap && E.Do(e, a).heap[o].imported
    ensures o in e.heap && e.heap[o].imported && E.Do(e, a).heap[o].id == e.heap[o].id
    ensures a.RecvUnimport? ==> e.heap[o].id != a.id
  {
    E.FreshObj(e);
    FlagInTable(e, o);
    hide E.Inv, E.DoThread, E.CanThread, E.DoTeardown, E.CanTeardown, E.DoWork, E.CanWork;
    if E.ByThread(a) { FlagBeforeThread(e, a, o); } else if E.ByTeardown(a) { FlagBeforeTeardown(e, a, o); } else { FlagBeforeWork(e, a, o); }
  }

  lemma FlagInTable(e: E.Vm, o: nat)
    requires E.Inv(e)
    ensures o in e.heap && e.heap[o].imported ==> E.InIdr(e, o)
  {
    assert o in e.heap ==> E.ObjInv(e, o, e.heap[o]);
  }

  lemma FlagBeforeThread(e: E.Vm, a: E.Act, o: nat)
    requires E.CanThread(e, a) && !a.RecvImport? && e.next !in e.heap && o in E.DoThread(e, a).heap && E.DoThread(e, a).heap[o].imported
    requires o in e.heap && e.heap[o].imported ==> E.InIdr(e, o)
    ensures o in e.heap && e.heap[o].imported && E.DoThread(e, a).heap[o].id == e.heap[o].id
    ensures a.RecvUnimport? ==> e.heap[o].id != a.id
  {
    hide E.RemoveId;
    if E.WithDescriptor(a) {
      FlagBeforeWorking(e, a, o);
      hide E.DoThread, E.CanThread;
    }
  }

  lemma FlagBeforeWorking(e: E.Vm, a: E.Act, o: nat)
    requires E.WithDescriptor(a) && E.CanThread(e, a) && o in E.DoThread(e, a).heap && E.DoThread(e, a).heap[o].imported
    ensures o in e.heap && e.heap[o].imported && E.DoThread(e, a).heap[o].id == e.heap[o].id
  {
    hide E.RemoveId;
  }

  lemma FlagBeforeTeardown(e: E.Vm, a: E.Act, o: nat)
    requires E.CanTeardown(e, a) && o in E.DoTeardown(e, a).heap && E.DoTeardown(e, a).heap[o].imported
    ensures o in e.heap && e.heap[o].imported && E.DoTeardown(e, a).heap[o].id == e.heap[o].id
  {
    hide E.RemoveId;
  }

  lemma FlagBeforeWork(e: E.Vm, a: E.Act, o: nat)
    requires E.CanWork(e, a) && o in E.DoWork(e, a).heap && E.DoWork(e, a).heap[o].imported
    ensures o in e.heap && e.heap[o].imported && E.DoWork(e, a).heap[o].id == e.heap[o].id
  {
    hide E.RemoveId, E.ReclaimSet;
    if a.ScanOne? {
      FlagBeforeScan(e, a.o, o);
      hide E.DoWork, E.CanWork;
    }
  }

  lemma FlagBeforeScan(e: E.Vm, x: nat, o: nat)
    requires E.CanWork(e, E.ScanOne(x)) && o in E.DoWork(e, E.ScanOne(x)).heap && E.DoWork(e, E.ScanOne(x)).heap[o].imported
    ensures o in e.heap && e.heap[o].imported && E.DoWork(e, E.ScanOne(x)).heap[o].id == e.heap[o].id
  {
    hide E.RemoveId, E.ReclaimSet, E.Free;
    if o != x { hide E.Own, E.Move; }
  }

  /** An IMPORT sets the flag of the descriptor it finds, and of no other. */
  lemma FlagByImport(e: E.Vm, a: E.Act, o: nat)
    requires E.Inv(e) && E.Enabled(e, a) && a.RecvImport? && o in E.Do(e, a).heap && E.Do(e, a).heap[o].imported
    ensures o in e.heap && E.Do(e, a).heap[o].id == e.heap[o].id
    ensures e.heap[o].imported || (E.Importable(e, a.id, a.pages) && e.heap[o].id == a.id)
  {
    hide E.DoTeardown, E.CanTeardown, E.DoWork, E.CanWork, E.ObjInv, E.ThreadInv, E.PhaseInv, E.WorkInv;
  }

  /** The claim on the id and the UNIMPORTs of it are as before. */
  lemma SameAccount(s: Sys, s': Sys, id: nat)
    requires Accounted(s, id) && ClaimOf(s', id) == ClaimOf(s, id)
    requires forall m :: m in s.toExp && m.Unimport? && m.id == id ==> m in s'.toExp
    ensures Accounted(s', id)
  {
  }

  /** The message at the head is not an UNIMPORT of the id. */
  lemma HeadGone(s: Sys, s': Sys, id: nat)
    requires Accounted(s, id) && ClaimOf(s', id) == ClaimOf(s, id) && s.toExp != [] && s'.toExp == s.toExp[1..]
    requires s.toExp[0].Unimport? ==> s.toExp[0].id != id
    ensures Accounted(s', id)
  {
    SameAccount(s, s', id);
  }

  /** While its IMPORT is under way an id has no other account. */
  lemma RequestedIsNot(s: Sys)
    requires Inv(s) && s.toExp != [] && s.toExp[0].Import?
    ensures !Accounted(s, s.toExp[0].id)
  {
    assert ToExpOk(s, s.toExp[0]);
    forall m | m in s.toExp && m.Unimport? ensures m.id != s.toExp[0].id {
      var i :| 0 <= i < |s.toExp| && s.toExp[i] == m;
      ImportIsAlone(s, i);
    }
    hide Inv;
  }

  lemma FlagTakeImport(s: Sys, answered: bool, o: nat)
    requires Inv(s) && FlagOk(s) && Enabled(s, TakeImport(answered)) && answered
    requires o in Do(s, TakeImport(answered)).exp.heap && Do(s, TakeImport(answered)).exp.heap[o].imported
    ensures Accounted(Do(s, TakeImport(answered)), Do(s, TakeImport(answered)).exp.heap[o].id)
  {
    hide I.Inv, I.Unsent, I.Refuses, I.Do, I.Enabled, CtxOk, Queues, ClaimOk, E.ObjInv, E.ThreadInv, E.PhaseInv, E.WorkInv;
    RequestedIsNot(s);
    FlagByImport(s.exp, RecvImport(s), o);
    hide Inv, E.Do, E.Enabled, E.Importable;
    var s', m := Do(s, TakeImport(answered)), s.toExp[0];
    if s.exp.heap[o].id != m.id { HeadGone(s, s', s.exp.heap[o].id); }
  }

  lemma FlagDropImport(s: Sys, id: nat)
    requires Inv(s) && Enabled(s, DropImport) && Accounted(s, id)
    ensures Accounted(Do(s, DropImport), id)
  {
    RequestedIsNot(s);
    hide Inv;
    HeadGone(s, Do(s, DropImport), id);
  }

  lemma FlagSendImport(s: Sys, a: Act, id: nat)
    requires Inv(s) && a.SendImport? && Enabled(s, a) && Allowed(s, a) && Accounted(s, id)
    ensures Accounted(Do(s, a), id)
  {
    hide I.Inv, I.Unsent, I.Refuses, I.Do, I.Enabled, E.Inv, CtxOk, Queues, ClaimOk, Outstanding;
    Quiet(s, a.id);
    hide Inv;
    if id != a.id { SameAccount(s, Do(s, a), id); }
  }

  lemma FlagTakeAck(s: Sys, a: Act, id: nat)
    requires a.TakeAck? && Enabled(s, a) && Lossless(s, a) && Accounted(s, id)
    ensures Accounted(Do(s, a), id)
  {
    hide I.Do, I.Enabled;
    if id != s.toImp[0].id { SameAccount(s, Do(s, a), id); }
  }

  lemma FlagImpStep(s: Sys, a: Act, id: nat)
    requires Inv(s) && a.ImpStep? && Enabled(s, a) && Lossless(s, a) && Accounted(s, id)
    ensures Accounted(Do(s, a), id)
  {
    hide E.Inv, I.Inv, I.Do, I.Enabled, I.Unsent, I.Refuses, I.Unimports, Queues, ClaimOk;
    var s', x := Do(s, a), s.imps[a.c];
    assert CtxOk(s, a.c, x);
    assert I.Inv(x) && x.proto == 1;
    hide CtxOk, Inv;
    var key := I.Unimports(x, a.i);
    I.UnimportSource(x, a.i);
    if I.Retires(x, a.i).Some? { RetiredIsTold(x, a.i); }
    assert forall m :: m in s.toExp ==> m in s'.toExp;
    if ClaimOf(s', id) != ClaimOf(s, id) {
      assert key.Some? && key.value.exportId == id;
      assert s'.toExp[|s.toExp|] == Unimport(s.serial, id);
    } else {
      SameAccount(s, s', id);
    }
  }

  /** What a step is done with, other than by a failed unmapping, it sends UNIMPORT of. */
  lemma RetiredIsTold(x: I.Ctx, i: I.Act)
    requires I.Inv(x) && x.proto == 1 && I.Enabled(x, i) && I.Retires(x, i).Some? && i != I.PopSend(false)
    ensures I.Retires(x, i).value in x.heap && I.Unimports(x, i) == Some(x.heap[I.Retires(x, i).value].desc.key)
  {
    I.UnimportSource(x, i);
    var h := I.Retires(x, i).value;
    hide I.Inv, I.Do, I.Enabled;
    RetiredGoes(x, i, h);
    I.UnimportsExactly(x, i, h, 0);
  }

  lemma RetiredGoes(x: I.Ctx, i: I.Act, h: nat)
    requires I.Inv(x) && x.proto == 1 && I.Enabled(x, i) && I.Retires(x, i) == Some(h)
    ensures !I.Unsent(I.Do(x, i), h)
  {
    assert !i.Receive?;
    hide I.Inv, I.Do, I.Enabled;
    I.UnsentKept(x, i, h);
  }

  lemma {:induction false} FlagKept(s: Sys, a: Act)
    requires Inv(s) && FlagOk(s) && Enabled(s, a) && Allowed(s, a) && Lossless(s, a)
    ensures FlagOk(Do(s, a))
  {
    hide E.Inv, E.Do, E.Enabled, E.Importable, I.Inv, I.Do, I.Enabled, I.Unsent, I.Refuses, I.Unimports, I.Retires, Accounted, CtxOk;
    var s' := Do(s, a);
    forall o | o in s'.exp.heap && s'.exp.heap[o].imported ensures Accounted(s', s'.exp.heap[o].id) {
      match a
      case ExpStep(e) =>
        FlagBefore(s.exp, e, o);
        SameAccount(s, s', s.exp.heap[o].id);
      case TakeImport(answered) => FlagTakeImport(s, answered, o);
      case TakeUnimport(t, vchan) =>
        FlagBefore(s.exp, E.RecvUnimport(t, s.toExp[0].id, vchan), o);
        HeadGone(s, s', s.exp.heap[o].id);
      case ImpStep(_, _, _) => FlagImpStep(s, a, s.exp.heap[o].id);
      case TakeAck(_, _) => FlagTakeAck(s, a, s.exp.heap[o].id);
      case SendImport(_, _, _, _, _, _, _) => FlagSendImport(s, a, s.exp.heap[o].id);
      case DropImport => FlagDropImport(s, s.exp.heap[o].id);
      case TakeAckFail(_) => SameAccount(s, s', s.exp.heap[o].id);
      case DropAck => SameAccount(s, s', s.exp.heap[o].id);
    }
  }

  lemma {:induction false} RunFlag(ss: seq<Sys>, steps: seq<Act>, n: nat)
    requires IsRun(ss, steps) && n < |ss| && forall i :: 0 <= i < n ==> Enabled(ss[i], steps[i]) && Lossless(ss[i], steps[i])
    ensures FlagOk(ss[n])
  {
    hide Inv, Enabled, Do, Allowed, Lossless, FlagOk;
    if n == 0 {
      StartFlag(ss[0]);
    } else {
      hide Start;
      RunFlag(ss, steps, n - 1);
      RunInv(ss, steps, n - 1);
      assert Leads(ss[n - 1], steps[n - 1], ss[n - 1 + 1]);
      FlagKept(ss[n - 1], steps[n - 1]);
    }
  }

  lemma StartFlag(s: Sys)
    requires Start(s)
    ensures FlagOk(s)
  {
  }

  /** An answer with the descriptor, a warehouse, a refusal or an UNIMPORT of this id is about. */
  predicate Pending(s: Sys, id: nat) {
    || (exists m :: m in s.toImp && m.Ack? && m.id == id)
    || (exists c, h :: c in s.imps && h in s.imps[c].heap && I.Unsent(s.imps[c], h) && s.imps[c].heap[h].desc.key.exportId == id)
    || (exists c, t :: c in s.imps && t in s.imps[c].threads && I.Refuses(s.imps[c], t) && s.imps[c].threads[t].desc.key.exportId == id)
    || (exists m :: m in s.toExp && m.Unimport? && m.id == id)
  }

  /**
   The converse of cross-VM safety: in a run without loss `remote_imported` is set only while the descriptor is on its
   way to an importer, in a warehouse or refused, or its UNIMPORT is on its way back. So once no importer has it and
   the channel is empty, the exporter's unexport is not refused for it and its context does not leave it behind.
   */
  lemma {:induction false} FlagReturned(ss: seq<Sys>, steps: seq<Act>, n: nat, o: nat)
    requires IsRun(ss, steps) && n < |ss| && forall i :: 0 <= i < n ==> Enabled(ss[i], steps[i]) && Lossless(ss[i], steps[i])
    requires o in ss[n].exp.heap && ss[n].exp.heap[o].imported
    ensures Pending(ss[n], ss[n].exp.heap[o].id)
  {
    RunFlag(ss, steps, n);
    RunInv(ss, steps, n);
    hide IsRun;
    var s, id := ss[n], ss[n].exp.heap[o].id;
    KnownClaim(s, id);
    hide E.Inv, I.Inv, I.Unsent, I.Refuses, Queues, CtxOk;
    ClaimPends(s, id);
  }

  lemma ClaimPends(s: Sys, id: nat)
    requires ClaimOk(s, id, ClaimOf(s, id)) && Accounted(s, id)
    ensures Pending(s, id)
  {
    var claim := ClaimOf(s, id);
    if claim.Inserted? { assert claim.h in s.imps[claim.c].heap; }
  }
}
