/**
 Both machines of one physical channel, protocol 1, and the two FIFO channels between them:
 IMPORT and UNIMPORT towards the exporter, IMPORT_ACK and IMPORT_ACK_FAIL towards the importer.
 */
module MemShare {
  import opened Common

  import I = ImportSide
  import E = ExportSide
  import R = ExportRuns

  /** `serial`, a history variable, numbers the messages in the order they are sent. */
  datatype ToExporter =
    | Import(serial: nat, id: nat, pages: nat, ectx: nat, ictx: nat, vcLocal: nat, vcRemote: nat)
    | Unimport(serial: nat, id: nat)

  /** An ack carries the descriptor; the virtual channel it goes to belongs to context `ictx`. */
  datatype ToImporter =
    | Ack(serial: nat, id: nat, obj: nat, ictx: nat, vcLocal: nat, vcRemote: nat)
    | AckFail(serial: nat, id: nat, ictx: nat, vcLocal: nat, vcRemote: nat)

  /** Where the one import of an id has got to.  A history variable of the proof; `ClaimOk` says what it means. */
  datatype Claim =
    | Unclaimed
    | Requested(serial: nat)
    | Acked(serial: nat, o: nat)
    | Inserted(c: nat, h: nat)
    | Refused(c: nat, t: nat)

  datatype Sys = Sys(
    exp: E.Vm, imps: map<nat, I.Ctx>, toExp: seq<ToExporter>, toImp: seq<ToImporter>,
    serial: nat, claim: map<nat, Claim>
  )

  datatype Act =
    | ExpStep(e: E.Act)
    | ImpStep(c: nat, i: I.Act, delivered: bool)
    | SendImport(c: nat, t: nat, id: nat, pages: nat, ectx: nat, vcLocal: nat, vcRemote: nat)
    | TakeImport(answered: bool)
    | DropImport
    | TakeUnimport(t: nat, vchan: bool)
    | TakeAck(t: nat, outcome: I.Outcome)
    | TakeAckFail(t: nat)
    | DropAck

  function KeyOf(id: nat): I.Key { I.Key(id, 0) }

  function ClaimOf(s: Sys, id: nat): Claim { if id in s.claim then s.claim[id] else Unclaimed }

  function RecvImport(s: Sys): E.Act
    requires s.toExp != [] && s.toExp[0].Import?
  {
    E.RecvImport(s.toExp[0].ectx, s.toExp[0].id, s.toExp[0].pages)
  }

  function RecvAck(s: Sys, t: nat, outcome: I.Outcome): I.Act
    requires s.toImp != [] && s.toImp[0].Ack?
  {
    I.Receive(t, I.Desc(KeyOf(s.toImp[0].id), s.toImp[0].obj), s.toImp[0].vcLocal, s.toImp[0].vcRemote, outcome)
  }

  predicate Enabled(s: Sys, a: Act) {
    match a
    case ExpStep(e) => !e.RecvImport? && !e.RecvUnimport? && E.Enabled(s.exp, e)
    case ImpStep(c, i, _) => c in s.imps && !i.SendImport? && !i.Receive? && !i.ReceiveFail? && I.Enabled(s.imps[c], i)
    case SendImport(c, t, id, _, _, l, r) => c in s.imps && I.Enabled(s.imps[c], I.SendImport(t, KeyOf(id), l, r))
    case TakeImport(_) => s.toExp != [] && s.toExp[0].Import? && E.Enabled(s.exp, RecvImport(s))
    case DropImport => s.toExp != [] && s.toExp[0].Import?
    case TakeUnimport(t, vchan) => s.toExp != [] && s.toExp[0].Unimport? && E.Enabled(s.exp, E.RecvUnimport(t, s.toExp[0].id, vchan))
    case TakeAck(t, outcome) =>
      && s.toImp != [] && s.toImp[0].Ack? && s.toImp[0].ictx in s.imps
      && I.Enabled(s.imps[s.toImp[0].ictx], RecvAck(s, t, outcome))
    case TakeAckFail(t) =>
      && s.toImp != [] && s.toImp[0].AckFail? && s.toImp[0].ictx in s.imps
      && var m := s.toImp[0]; I.Enabled(s.imps[m.ictx], I.ReceiveFail(t, KeyOf(m.id), m.vcLocal, m.vcRemote))
    case DropAck => s.toImp != []
  }

  function Do(s: Sys, a: Act): Sys
    requires Enabled(s, a)
  {
    match a
    case ExpStep(e) => s.(exp := E.Do(s.exp, e))
    case ImpStep(c, i, delivered) =>
      var x := s.imps[c];
      var key := I.Unimports(x, i);
      var s1 := s.(imps := s.imps[c := I.Do(x, i)], claim := Forget(s, x, i));
      if delivered && key.Some?
      then s1.(toExp := s.toExp + [Unimport(s.serial, key.value.exportId)], serial := s.serial + 1) else s1
    case SendImport(c, t, id, pages, ectx, l, r) =>
      s.(imps := s.imps[c := I.Do(s.imps[c], I.SendImport(t, KeyOf(id), l, r))],
         toExp := s.toExp + [Import(s.serial, id, pages, ectx, c, l, r)], serial := s.serial + 1,
         claim := s.claim[id := Requested(s.serial)])
    case TakeImport(answered) =>
      var m := s.toExp[0];
      var found := E.Importable(s.exp, m.id, m.pages);
      var reply :=
        if !answered then []
        else if found then [Ack(s.serial, m.id, s.exp.idr[m.id], m.ictx, m.vcLocal, m.vcRemote)]
        else [AckFail(s.serial, m.id, m.ictx, m.vcLocal, m.vcRemote)];
      Sys(E.Do(s.exp, RecvImport(s)), s.imps, s.toExp[1..], s.toImp + reply, s.serial + 1,
          s.claim[m.id := if found && answered then Acked(s.serial, s.exp.idr[m.id]) else Unclaimed])
    case DropImport => s.(toExp := s.toExp[1..], claim := s.claim[s.toExp[0].id := Unclaimed])
    case TakeUnimport(t, vchan) => s.(toExp := s.toExp[1..], exp := E.Do(s.exp, E.RecvUnimport(t, s.toExp[0].id, vchan)))
    case TakeAck(t, outcome) =>
      var m := s.toImp[0];
      var x := s.imps[m.ictx];
      s.(imps := s.imps[m.ictx := I.Do(x, RecvAck(s, t, outcome))], toImp := s.toImp[1..],
         claim := s.claim[m.id := Outcome(x, m.ictx, RecvAck(s, t, outcome))])
    case TakeAckFail(t) =>
      var m := s.toImp[0];
      s.(imps := s.imps[m.ictx := I.Do(s.imps[m.ictx], I.ReceiveFail(t, KeyOf(m.id), m.vcLocal, m.vcRemote))], toImp := s.toImp[1..])
    case DropAck =>
      var m := s.toImp[0];
      s.(toImp := s.toImp[1..], claim := if m.Ack? then s.claim[m.id := Unclaimed] else s.claim)
  }

  /** The import whose UNIMPORT the step sends, or whose unmapping fails in teardown, is over. */
  function Forget(s: Sys, x: I.Ctx, i: I.Act): map<nat, Claim>
    requires I.Enabled(x, i)
  {
    if i.RejectSend? then s.claim[x.threads[i.t].desc.key.exportId := Unclaimed]
    else if I.Retires(x, i).Some? && I.Retires(x, i).value in x.heap
    then s.claim[x.heap[I.Retires(x, i).value].desc.key.exportId := Unclaimed]
    else s.claim
  }

  /** The claim that the outcome of receiving a descriptor leads to. */
  function Outcome(x: I.Ctx, c: nat, i: I.Act): Claim
    requires i.Receive?
  {
    if i.outcome == I.Invalid then Refused(c, i.t)
    else if i.outcome == I.Valid && i.desc.key !in x.whse then Inserted(c, x.next)
    else Unclaimed
  }

  // ---------------------------------------------------------------- hypotheses

  /** An earlier IMPORT of the id, its answer, or its descriptor in some warehouse is still about. */
  predicate Outstanding(s: Sys, id: nat) {
    || (exists m :: m in s.toExp && m.Import? && m.id == id)
    || (exists m :: m in s.toImp && m.id == id)
    || (exists c :: c in s.imps && Holding(s.imps[c], id))
  }

  predicate Holding(x: I.Ctx, id: nat) {
    || KeyOf(id) in x.whse
    || (x.drain.InHand? && x.drain.h in x.heap && x.heap[x.drain.h].desc.key.exportId == id)
    || (exists t :: t in x.threads && I.Refuses(x, t) && x.threads[t].desc.key.exportId == id)
  }

  /** No import of an id that is still outstanding, and the exporter's own hypotheses. */
  predicate Allowed(s: Sys, a: Act)
    requires Enabled(s, a)
  {
    match a
    case ExpStep(e) => E.Allowed(s.exp, e)
    case SendImport(_, _, id, _, _, _, _) => !Outstanding(s, id)
    case TakeImport(_) => E.Allowed(s.exp, RecvImport(s))
    case _ => true
  }

  // ---------------------------------------------------------------- the invariant

  predicate ToExpOk(s: Sys, m: ToExporter) {
    && m.serial < s.serial
    && match m
       case Import(n, id, _, _, _, _, _) => ClaimOf(s, id) == Requested(n)
       case Unimport(n, id) => ClaimOf(s, id) == Unclaimed || (ClaimOf(s, id).Requested? && n < ClaimOf(s, id).serial)
  }

  predicate ToImpOk(s: Sys, m: ToImporter) {
    && m.serial < s.serial
    && (m.Ack? ==> ClaimOf(s, m.id) == Acked(m.serial, m.obj) && R.Held(s.exp, m.id, m.obj))
  }

  predicate DescOk(s: Sys, d: I.Desc, claim: Claim) {
    && d.key == KeyOf(d.key.exportId) && ClaimOf(s, d.key.exportId) == claim
    && R.Held(s.exp, d.key.exportId, d.obj)
  }

  predicate CtxOk(s: Sys, c: nat, x: I.Ctx) {
    && I.Inv(x) && x.proto == 1
    && (forall h :: h in x.heap && I.Unsent(x, h) ==> DescOk(s, x.heap[h].desc, Inserted(c, h)))
    && (forall t :: t in x.threads && I.Refuses(x, t) ==> DescOk(s, x.threads[t].desc, Refused(c, t)))
  }

  predicate ClaimOk(s: Sys, id: nat, claim: Claim) {
    match claim
    case Unclaimed => true
    case Requested(n) => exists m :: m in s.toExp && m.Import? && m.id == id
    case Acked(n, o) => exists m :: m in s.toImp && m.Ack? && m.id == id
    case Inserted(c, h) => c in s.imps && I.Unsent(s.imps[c], h) && s.imps[c].heap[h].desc.key == KeyOf(id)
    case Refused(c, t) => c in s.imps && I.Refuses(s.imps[c], t) && s.imps[c].threads[t].desc.key == KeyOf(id)
  }

  predicate Queues(s: Sys) {
    && (forall i :: 0 <= i < |s.toExp| ==> ToExpOk(s, s.toExp[i]))
    && (forall i :: 0 <= i < |s.toImp| ==> ToImpOk(s, s.toImp[i]))
    && (forall i, j :: 0 <= i < j < |s.toExp| ==> s.toExp[i].serial < s.toExp[j].serial)
    && (forall i, j :: 0 <= i < j < |s.toImp| ==> s.toImp[i].serial < s.toImp[j].serial)
  }

  predicate Inv(s: Sys) {
    && E.Inv(s.exp) && Queues(s)
    && (forall c :: c in s.imps ==> CtxOk(s, c, s.imps[c]))
    && (forall id :: id in s.claim ==> ClaimOk(s, id, s.claim[id]))
  }

  // ---------------------------------------------------------------- frames

  /** Claims and held descriptors are as before, except perhaps for the ids in `xs`. */
  ghost predicate Change(s: Sys, s': Sys, xs: set<nat>) {
    && s'.serial >= s.serial
    && (forall id :: id !in xs ==> ClaimOf(s', id) == ClaimOf(s, id))
    && (forall id, o :: id !in xs && R.Held(s.exp, id, o) ==> R.Held(s'.exp, id, o))
  }

  /** The import is not in the hands of context `c`. */
  predicate Elsewhere(claim: Claim, c: nat) { claim.Inserted? || claim.Refused? ==> claim.c != c }

  lemma CtxKept(s: Sys, s': Sys, xs: set<nat>, c: nat, v: I.Ctx)
    requires Change(s, s', xs) && CtxOk(s, c, v) && forall x :: x in xs ==> Elsewhere(ClaimOf(s, x), c)
    ensures CtxOk(s', c, v)
  {
    hide I.Inv, I.Unsent, R.Held;
    forall h | h in v.heap && I.Unsent(v, h) ensures DescOk(s', v.heap[h].desc, Inserted(c, h)) {
      assert DescOk(s, v.heap[h].desc, Inserted(c, h));
    }
    forall t | t in v.threads && I.Refuses(v, t) ensures DescOk(s', v.threads[t].desc, Refused(c, t)) {
      assert DescOk(s, v.threads[t].desc, Refused(c, t));
    }
  }

  /** What the claims of other ids rest on is still there. */
  ghost predicate Evidence(s: Sys, s': Sys, xs: set<nat>) {
    && (forall m :: m in s.toExp && m.Import? && m.id !in xs ==> m in s'.toExp)
    && (forall m :: m in s.toImp && m.Ack? && m.id !in xs ==> m in s'.toImp)
    && s'.imps.Keys == s.imps.Keys
    && (forall c, h, id :: c in s.imps && I.Unsent(s.imps[c], h) && s.imps[c].heap[h].desc.key == KeyOf(id) && id !in xs ==>
          I.Unsent(s'.imps[c], h) && s'.imps[c].heap[h].desc.key == KeyOf(id))
    && (forall c, t, id :: c in s.imps && I.Refuses(s.imps[c], t) && s.imps[c].threads[t].desc.key == KeyOf(id) && id !in xs ==>
          I.Refuses(s'.imps[c], t) && s'.imps[c].threads[t].desc.key == KeyOf(id))
  }

  lemma ClaimKept(s: Sys, s': Sys, xs: set<nat>, id: nat)
    requires Change(s, s', xs) && Evidence(s, s', xs) && id !in xs && ClaimOk(s, id, ClaimOf(s, id))
    ensures ClaimOk(s', id, ClaimOf(s', id))
  {
  }

  lemma Assemble(s: Sys, s': Sys, xs: set<nat>)
    requires Inv(s) && Change(s, s', xs) && Evidence(s, s', xs) && E.Inv(s'.exp) && Queues(s')
    requires forall c :: c in s'.imps ==> CtxOk(s', c, s'.imps[c])
    requires forall x :: x in xs ==> ClaimOk(s', x, ClaimOf(s', x))
    ensures Inv(s')
  {
    hide E.Inv, Queues, CtxOk, Evidence, Change;
    forall id | id in s'.claim ensures ClaimOk(s', id, s'.claim[id]) {
      assert ClaimOf(s', id) == s'.claim[id];
      if id !in xs {
        assert ClaimOk(s, id, ClaimOf(s, id)) by { hide ClaimOf; KnownClaim(s, id); }
        ClaimKept(s, s', xs, id);
      }
    }
  }

  lemma KnownClaim(s: Sys, id: nat)
    requires Inv(s)
    ensures ClaimOk(s, id, ClaimOf(s, id))
  {
  }

  /** Messages whose id is not in `xs` stay in order. */
  lemma ToExpKept(s: Sys, s': Sys, xs: set<nat>, m: ToExporter)
    requires Change(s, s', xs) && ToExpOk(s, m) && m.id !in xs
    ensures ToExpOk(s', m)
  {
  }

  lemma ToImpKept(s: Sys, s': Sys, xs: set<nat>, m: ToImporter)
    requires Change(s, s', xs) && ToImpOk(s, m) && (m.Ack? ==> m.id !in xs)
    ensures ToImpOk(s', m)
  {
  }

  // ---------------------------------------------------------------- every step keeps the invariant

  lemma ExporterStep(e: E.Vm, a: E.Act)
    requires E.Inv(e) && E.Enabled(e, a) && E.Allowed(e, a)
    ensures E.Inv(E.Do(e, a))
    ensures forall id, o :: R.Held(e, id, o) && !(a.RecvUnimport? && a.id == id) ==> R.Held(E.Do(e, a), id, o)
  {
    hide E.Inv, E.Do, R.Held, E.Enabled, E.Allowed;
    E.DoInv(e, a);
    forall id, o | R.Held(e, id, o) && !(a.RecvUnimport? && a.id == id) ensures R.Held(E.Do(e, a), id, o) {
      R.HeldKept(e, a, id, o);
    }
  }

  lemma ExpStepInv(s: Sys, e: E.Act)
    requires Inv(s) && Enabled(s, ExpStep(e)) && Allowed(s, ExpStep(e))
    ensures Inv(Do(s, ExpStep(e)))
  {
    hide E.Inv, E.Do, R.Held, E.Enabled, I.Inv, I.Unsent, I.Refuses;
    var s' := Do(s, ExpStep(e));
    ExporterStep(s.exp, e);
    forall c | c in s'.imps ensures CtxOk(s', c, s'.imps[c]) { CtxKept(s, s', {}, c, s.imps[c]); }
    hide CtxOk;
    Assemble(s, s', {});
  }

  /** Only the message at the head of its queue is an IMPORT of this id, and no other names the id. */
  lemma ImportIsAlone(s: Sys, i: nat)
    requires Inv(s) && 0 < i < |s.toExp| && s.toExp[0].Import?
    ensures s.toExp[i].id != s.toExp[0].id
  {
  }

  lemma AckIsAlone(s: Sys, i: nat)
    requires Inv(s) && 0 < i < |s.toImp| && s.toImp[0].Ack? && s.toImp[i].Ack?
    ensures s.toImp[i].id != s.toImp[0].id
  {
  }

  lemma NoAckFor(s: Sys, i: nat, id: nat)
    requires Inv(s) && i < |s.toImp| && s.toImp[i].Ack? && !ClaimOf(s, id).Acked?
    ensures s.toImp[i].id != id
  {
  }

  lemma TakeImportInv(s: Sys, answered: bool)
    requires Inv(s) && Enabled(s, TakeImport(answered)) && Allowed(s, TakeImport(answered))
    ensures Inv(Do(s, TakeImport(answered)))
  {
    hide E.Inv, E.Do, E.Enabled, E.Allowed, I.Inv, I.Unsent, I.Refuses, CtxOk;
    var s', m := Do(s, TakeImport(answered)), s.toExp[0];
    assert ToExpOk(s, m);
    ExporterStep(s.exp, RecvImport(s));
    hide R.Held, E.Importable;
    if ClaimOf(s', m.id).Acked? { assert s'.toImp[|s.toImp|] in s'.toImp; }
    forall c | c in s'.imps ensures CtxOk(s', c, s'.imps[c]) { CtxKept(s, s', {m.id}, c, s.imps[c]); }
    TakeImportQueues(s, answered);
    Assemble(s, s', {m.id});
  }

  lemma ImportHolds(e: E.Vm, a: E.Act)
    requires E.Enabled(e, a) && a.RecvImport? && E.Importable(e, a.id, a.pages)
    ensures R.Held(E.Do(e, a), a.id, e.idr[a.id])
  {
  }

  lemma TakeImportQueues(s: Sys, answered: bool)
    requires Inv(s) && Enabled(s, TakeImport(answered)) && Allowed(s, TakeImport(answered))
    ensures Queues(Do(s, TakeImport(answered)))
  {
    hide E.Inv, E.Do, R.Held, E.Enabled, E.Allowed, I.Inv, I.Unsent, I.Refuses, CtxOk, ClaimOk;
    var s', m := Do(s, TakeImport(answered)), s.toExp[0];
    assert ToExpOk(s, m);
    ExporterStep(s.exp, RecvImport(s));
    forall i | 0 <= i < |s'.toExp| ensures ToExpOk(s', s'.toExp[i]) {
      ImportIsAlone(s, i + 1);
      ToExpKept(s, s', {m.id}, s.toExp[i + 1]);
    }
    forall i | 0 <= i < |s'.toImp| ensures ToImpOk(s', s'.toImp[i]) {
      if i < |s.toImp| {
        if s.toImp[i].Ack? { NoAckFor(s, i, m.id); }
        ToImpKept(s, s', {m.id}, s.toImp[i]);
      } else if s'.toImp[i].Ack? {
        ImportHolds(s.exp, RecvImport(s));
      }
    }
  }

  lemma DropImportInv(s: Sys)
    requires Inv(s) && Enabled(s, DropImport)
    ensures Inv(Do(s, DropImport))
  {
    hide E.Inv, R.Held, I.Inv, I.Unsent, I.Refuses, CtxOk, ClaimOk;
    var s', m := Do(s, DropImport), s.toExp[0];
    assert ToExpOk(s, m);
    forall c | c in s'.imps ensures CtxOk(s', c, s'.imps[c]) { CtxKept(s, s', {m.id}, c, s.imps[c]); }
    forall i | 0 <= i < |s'.toExp| ensures ToExpOk(s', s'.toExp[i]) {
      ImportIsAlone(s, i + 1);
      ToExpKept(s, s', {m.id}, s.toExp[i + 1]);
    }
    forall i | 0 <= i < |s'.toImp| ensures ToImpOk(s', s'.toImp[i]) {
      if s.toImp[i].Ack? { NoAckFor(s, i, m.id); }
      ToImpKept(s, s', {m.id}, s.toImp[i]);
    }
    assert ClaimOk(s', m.id, Unclaimed) by { NoClaim(s', m.id); }
    Assemble(s, s', {m.id});
  }

  lemma NoClaim(s: Sys, id: nat)
    ensures ClaimOk(s, id, Unclaimed)
  {
  }

  lemma TakeUnimportInv(s: Sys, t: nat, vchan: bool)
    requires Inv(s) && Enabled(s, TakeUnimport(t, vchan))
    ensures Inv(Do(s, TakeUnimport(t, vchan)))
  {
    hide E.Inv, E.Do, R.Held, E.Enabled, I.Inv, I.Unsent, I.Refuses, CtxOk, ClaimOk;
    var s', m := Do(s, TakeUnimport(t, vchan)), s.toExp[0];
    assert ToExpOk(s, m);
    ExporterStep(s.exp, E.RecvUnimport(t, m.id, vchan));
    forall c | c in s'.imps ensures CtxOk(s', c, s'.imps[c]) { CtxKept(s, s', {m.id}, c, s.imps[c]); }
    forall i | 0 <= i < |s'.toImp| ensures ToImpOk(s', s'.toImp[i]) {
      if s.toImp[i].Ack? { NoAckFor(s, i, m.id); }
      ToImpKept(s, s', {m.id}, s.toImp[i]);
    }
    assert ClaimOk(s', m.id, ClaimOf(s', m.id)) by { hide E.Enabled; UnimportLeaves(s, s', m.id); }
    Assemble(s, s', {m.id});
  }

  /** A claim on an id whose UNIMPORT is taken rests on a later IMPORT, if on anything. */
  lemma UnimportLeaves(s: Sys, s': Sys, id: nat)
    requires Inv(s) && (ClaimOf(s, id) == Unclaimed || ClaimOf(s, id).Requested?) && s.toExp != [] && s.toExp[0].Unimport?
    requires s'.claim == s.claim && s'.toExp == s.toExp[1..]
    ensures ClaimOk(s', id, ClaimOf(s', id))
  {
  }

  lemma SendImportInv(s: Sys, a: Act)
    requires Inv(s) && a.SendImport? && Enabled(s, a) && Allowed(s, a)
    ensures Inv(Do(s, a))
  {
    hide E.Inv, R.Held, I.Inv, I.Unsent, I.Refuses, I.Enabled, I.Do, CtxOk, ClaimOk, Outstanding;
    var s', i := Do(s, a), I.SendImport(a.t, KeyOf(a.id), a.vcLocal, a.vcRemote);
    Quiet(s, a.id);
    ContextStep(s, s', {a.id}, a.c, i);
    forall k | 0 <= k < |s'.toExp| ensures ToExpOk(s', s'.toExp[k]) {
      if k < |s.toExp| && s.toExp[k].id != a.id { ToExpKept(s, s', {a.id}, s.toExp[k]); }
      else if k < |s.toExp| { assert ToExpOk(s, s.toExp[k]); }
    }
    forall k | 0 <= k < |s'.toImp| ensures ToImpOk(s', s'.toImp[k]) {
      if s.toImp[k].Ack? { NoAckFor(s, k, a.id); }
      ToImpKept(s, s', {a.id}, s.toImp[k]);
    }
    NewImport(s', a.id, s.serial);
    Assemble(s, s', {a.id});
  }

  lemma NewImport(s: Sys, id: nat, n: nat)
    requires s.toExp != [] && s.toExp[|s.toExp| - 1].Import? && s.toExp[|s.toExp| - 1].id == id
    ensures ClaimOk(s, id, Requested(n))
  {
  }

  /** An id that is not outstanding is unclaimed: what the hypothesis on new imports gives. */
  lemma Quiet(s: Sys, id: nat)
    requires Inv(s) && !Outstanding(s, id)
    ensures ClaimOf(s, id) == Unclaimed
  {
    KnownClaim(s, id);
    ClaimIsHeld(s, id);
    hide E.Inv, Queues, CtxOk, Holding, I.Unsent, I.Refuses;
  }

  lemma ClaimIsHeld(s: Sys, id: nat)
    requires Inv(s)
    ensures var claim := ClaimOf(s, id); claim.Inserted? || claim.Refused? ==> claim.c in s.imps && Holding(s.imps[claim.c], id)
  {
    KnownClaim(s, id);
    hide E.Inv, Queues;
    var claim := ClaimOf(s, id);
    if claim.Inserted? {
      assert CtxOk(s, claim.c, s.imps[claim.c]);
      UnsentIsHeld(s.imps[claim.c], claim.h, id);
    } else if claim.Refused? {
      RefusedIsHeld(s.imps[claim.c], claim.t, id);
    }
  }

  lemma RefusedIsHeld(x: I.Ctx, t: nat, id: nat)
    requires I.Refuses(x, t) && x.threads[t].desc.key == KeyOf(id)
    ensures Holding(x, id)
  {
  }

  lemma UnsentIsHeld(x: I.Ctx, h: nat, id: nat)
    requires I.Inv(x) && x.proto == 1 && I.Unsent(x, h) && x.heap[h].desc.key == KeyOf(id)
    ensures Holding(x, id)
  {
  }

  /** The refused descriptor whose UNIMPORT the step sends. */
  function Refusal(i: I.Act): Option<nat> { if i.RejectSend? then Some(i.t) else None }

  /** `x'` has the open descriptors of `x`, less one node or one refused descriptor. */
  ghost predicate Less(x: I.Ctx, x': I.Ctx, gone: Option<nat>, sent: Option<nat>) {
    && I.Inv(x') && x'.proto == 1
    && (forall h: nat :: I.Unsent(x', h) <==> I.Unsent(x, h) && Some(h) != gone)
    && (forall h: nat :: I.Unsent(x', h) ==> x'.heap[h].desc == x.heap[h].desc)
    && (forall t: nat :: I.Refuses(x', t) <==> I.Refuses(x, t) && Some(t) != sent)
    && (forall t: nat :: I.Refuses(x', t) ==> x'.threads[t].desc == x.threads[t].desc)
  }

  lemma LessAfter(x: I.Ctx, i: I.Act)
    requires I.Inv(x) && x.proto == 1 && I.Enabled(x, i) && !i.Receive?
    ensures Less(x, I.Do(x, i), I.Retires(x, i), Refusal(i))
  {
    hide I.Inv, I.Enabled, I.Do;
    I.DoInv(x, i);
    I.ProtoKept(x, i);
    forall h { I.UnsentKept(x, i, h); }
    forall t { I.RefusalsKept(x, i, t); }
  }

  /** The ids in `xs` are claimed elsewhere, or by what the step is done with. */
  lemma CtxLess(s: Sys, s': Sys, xs: set<nat>, c: nat, x: I.Ctx, x': I.Ctx, gone: Option<nat>, sent: Option<nat>)
    requires Change(s, s', xs) && CtxOk(s, c, x) && Less(x, x', gone, sent)
    requires forall id :: id in xs ==>
      || Elsewhere(ClaimOf(s, id), c)
      || (gone.Some? && ClaimOf(s, id) == Inserted(c, gone.value))
      || (sent.Some? && ClaimOf(s, id) == Refused(c, sent.value))
    ensures CtxOk(s', c, x')
  {
    hide I.Inv, R.Held;
    forall h | h in x'.heap && I.Unsent(x', h) ensures DescOk(s', x'.heap[h].desc, Inserted(c, h)) {
      assert DescOk(s, x.heap[h].desc, Inserted(c, h));
    }
    forall t | t in x'.threads && I.Refuses(x', t) ensures DescOk(s', x'.threads[t].desc, Refused(c, t)) {
      assert DescOk(s, x.threads[t].desc, Refused(c, t));
    }
  }

  /** A step of context `c` that receives no descriptor and is done with none. */
  lemma ContextStep(s: Sys, s': Sys, xs: set<nat>, c: nat, i: I.Act)
    requires Inv(s) && Change(s, s', xs) && c in s.imps && I.Enabled(s.imps[c], i) && !i.Receive? && !i.RejectSend?
    requires s'.imps == s.imps[c := I.Do(s.imps[c], i)] && I.Retires(s.imps[c], i) == None
    requires forall id :: id in xs ==> !ClaimOf(s, id).Inserted? && !ClaimOf(s, id).Refused?
    requires forall m :: m in s.toExp && m.Import? && m.id !in xs ==> m in s'.toExp
    requires forall m :: m in s.toImp && m.Ack? && m.id !in xs ==> m in s'.toImp
    ensures Evidence(s, s', xs) && forall k :: k in s'.imps ==> CtxOk(s', k, s'.imps[k])
  {
    hide E.Inv, R.Held, I.Inv, I.Enabled, I.Do, ClaimOk, Queues;
    var x, x' := s.imps[c], I.Do(s.imps[c], i);
    assert CtxOk(s, c, x);
    LessAfter(x, i);
    hide I.Unsent, I.Refuses;
    CtxLess(s, s', xs, c, x, x', None, None);
    forall k | k in s'.imps ensures CtxOk(s', k, s'.imps[k]) {
      if k != c { CtxKept(s, s', xs, k, s.imps[k]); }
    }
  }

  lemma TakeAckFailInv(s: Sys, t: nat)
    requires Inv(s) && Enabled(s, TakeAckFail(t))
    ensures Inv(Do(s, TakeAckFail(t)))
  {
    hide E.Inv, R.Held, I.Inv, I.Unsent, I.Refuses, I.Enabled, I.Do, CtxOk, ClaimOk;
    var s', m := Do(s, TakeAckFail(t)), s.toImp[0];
    ContextStep(s, s', {}, m.ictx, I.ReceiveFail(t, KeyOf(m.id), m.vcLocal, m.vcRemote));
    SameQueues(s, s', {}, 1);
    Assemble(s, s', {});
  }

  /** The queues lose their heads at most, and messages about ids in `xs` are in order. */
  lemma SameQueues(s: Sys, s': Sys, xs: set<nat>, n: nat)
    requires Queues(s) && Change(s, s', xs) && s'.toExp == s.toExp && n <= |s.toImp| && s'.toImp == s.toImp[n..]
    requires forall k :: 0 <= k < |s.toExp| && s.toExp[k].id in xs ==> ToExpOk(s', s.toExp[k])
    requires forall k :: n <= k < |s.toImp| && s.toImp[k].Ack? ==> s.toImp[k].id !in xs
    ensures Queues(s')
  {
  }

  lemma DropAckInv(s: Sys)
    requires Inv(s) && Enabled(s, DropAck)
    ensures Inv(Do(s, DropAck))
  {
    hide E.Inv, R.Held, I.Inv, I.Unsent, I.Refuses, CtxOk, ClaimOk;
    var s', m := Do(s, DropAck), s.toImp[0];
    var xs := if m.Ack? then {m.id} else {};
    assert ToImpOk(s, m);
    forall c | c in s'.imps ensures CtxOk(s', c, s'.imps[c]) { CtxKept(s, s', xs, c, s.imps[c]); }
    AckQueues(s, s', xs);
    NoClaim(s', m.id);
    Assemble(s, s', xs);
  }

  /** An ack is taken off its queue; no other message names its id. */
  lemma AckQueues(s: Sys, s': Sys, xs: set<nat>)
    requires Inv(s) && s.toImp != [] && s'.toExp == s.toExp && s'.toImp == s.toImp[1..] && Change(s, s', xs)
    requires xs == if s.toImp[0].Ack? then {s.toImp[0].id} else {}
    ensures Queues(s')
  {
    hide E.Inv, R.Held, CtxOk, ClaimOk;
    var m := s.toImp[0];
    assert ToImpOk(s, m);
    forall k | 0 <= k < |s.toExp| ensures s.toExp[k].id !in xs {
      assert ToExpOk(s, s.toExp[k]);
    }
    forall k | 1 <= k < |s.toImp| && s.toImp[k].Ack? ensures s.toImp[k].id !in xs {
      if m.Ack? { AckIsAlone(s, k); }
    }
    SameQueues(s, s', xs, 1);
  }

  lemma ImpStepInv(s: Sys, a: Act)
    requires Inv(s) && a.ImpStep? && Enabled(s, a)
    ensures Inv(Do(s, a))
  {
    hide E.Inv, R.Held, I.Inv, I.Enabled, I.Do, I.Unimports, CtxOk, ClaimOk;
    var s', x := Do(s, a), s.imps[a.c];
    assert CtxOk(s, a.c, x);
    assert I.Inv(x) && x.proto == 1 by { CtxSound(s, a.c, x); }
    I.UnimportSource(x, a.i);
    if a.i.RejectSend? {
      Released(s, a, x.threads[a.i.t].desc.key.exportId);
    } else if I.Retires(x, a.i).Some? {
      Released(s, a, x.heap[I.Retires(x, a.i).value].desc.key.exportId);
    } else {
      ContextStep(s, s', {}, a.c, a.i);
      SameQueues(s, s', {}, 0);
      Assemble(s, s', {});
    }
  }

  lemma CtxSound(s: Sys, c: nat, x: I.Ctx)
    requires CtxOk(s, c, x)
    ensures I.Inv(x) && x.proto == 1
  {
  }

  /** The step is done with the import of `id`, and may send its UNIMPORT. */
  lemma Released(s: Sys, a: Act, id: nat)
    requires Inv(s) && a.ImpStep? && Enabled(s, a) && DoneWith(s.imps[a.c], a.i, id)
    ensures Inv(Do(s, a))
  {
    hide E.Inv, R.Held, I.Inv, I.Enabled, I.Do, ClaimOk;
    var s', x := Do(s, a), s.imps[a.c];
    I.UnimportSource(x, a.i);
    ReleasedContexts(s, s', a.c, a.i, id);
    hide I.Retires, I.Unimports, I.Unsent, I.Refuses, Evidence;
    ReleasedQueues(s, s', id);
    NoClaim(s', id);
    Assemble(s, s', {id});
  }

  lemma ReleasedContexts(s: Sys, s': Sys, c: nat, i: I.Act, id: nat)
    requires Inv(s) && c in s.imps && I.Enabled(s.imps[c], i) && !i.Receive? && DoneWith(s.imps[c], i, id) && Change(s, s', {id})
    requires s'.imps == s.imps[c := I.Do(s.imps[c], i)] && (forall m :: m in s.toExp ==> m in s'.toExp) && s'.toImp == s.toImp
    ensures Evidence(s, s', {id}) && forall k :: k in s'.imps ==> CtxOk(s', k, s'.imps[k])
    ensures ClaimOf(s, id).Inserted? || ClaimOf(s, id).Refused?
  {
    hide E.Inv, R.Held, I.Inv, I.Enabled, I.Do, ClaimOk, Queues;
    var x := s.imps[c];
    assert CtxOk(s, c, x);
    LessAfter(x, i);
    CtxLess(s, s', {id}, c, x, s'.imps[c], I.Retires(x, i), Refusal(i));
    EvidenceLess(s, s', c, i, id);
    hide I.Retires, I.Unimports, I.Unsent, I.Refuses, Evidence;
    forall k | k in s'.imps ensures CtxOk(s', k, s'.imps[k]) {
      if k != c { CtxKept(s, s', {id}, k, s.imps[k]); }
    }
  }

  predicate DoneWith(x: I.Ctx, i: I.Act, id: nat)
    requires I.Enabled(x, i)
  {
    if i.RejectSend? then I.Refuses(x, i.t) && id == x.threads[i.t].desc.key.exportId
    else I.Retires(x, i).Some? && I.Unsent(x, I.Retires(x, i).value) && id == x.heap[I.Retires(x, i).value].desc.key.exportId
  }

  lemma EvidenceLess(s: Sys, s': Sys, c: nat, i: I.Act, id: nat)
    requires c in s.imps && I.Enabled(s.imps[c], i) && DoneWith(s.imps[c], i, id)
    requires s'.imps.Keys == s.imps.Keys && Less(s.imps[c], s'.imps[c], I.Retires(s.imps[c], i), Refusal(i))
    requires forall k :: k in s.imps && k != c ==> s'.imps[k] == s.imps[k]
    requires (forall m :: m in s.toExp ==> m in s'.toExp) && s'.toImp == s.toImp
    ensures Evidence(s, s', {id})
  {
    hide I.Inv, I.Enabled;
  }

  /** No message names an id whose import is in the hands of a context. */
  lemma ReleasedQueues(s: Sys, s': Sys, id: nat)
    requires Inv(s) && Change(s, s', {id}) && (ClaimOf(s, id).Inserted? || ClaimOf(s, id).Refused?) && ClaimOf(s', id) == Unclaimed
    requires s'.toImp == s.toImp
    requires || s'.toExp == s.toExp
             || (s'.toExp == s.toExp + [Unimport(s.serial, id)] && s'.serial == s.serial + 1)
    ensures Queues(s')
  {
    hide E.Inv, R.Held, CtxOk, ClaimOk;
    forall k | 0 <= k < |s'.toExp| ensures ToExpOk(s', s'.toExp[k]) {
      if k < |s.toExp| {
        assert ToExpOk(s, s.toExp[k]);
        ToExpKept(s, s', {id}, s.toExp[k]);
      }
    }
    forall k | 0 <= k < |s'.toImp| ensures ToImpOk(s', s'.toImp[k]) {
      if s.toImp[k].Ack? { NoAckFor(s, k, id); }
      ToImpKept(s, s', {id}, s.toImp[k]);
    }
  }

  lemma TakeAckInv(s: Sys, t: nat, outcome: I.Outcome)
    requires Inv(s) && Enabled(s, TakeAck(t, outcome))
    ensures Inv(Do(s, TakeAck(t, outcome)))
  {
    hide E.Inv, R.Held, I.Inv, I.Enabled, I.Do, I.Unsent, I.Refuses, CtxOk, ClaimOk;
    var s', m := Do(s, TakeAck(t, outcome)), s.toImp[0];
    var x, i := s.imps[m.ictx], RecvAck(s, t, outcome);
    assert ToImpOk(s, m) && CtxOk(s, m.ictx, x);
    AckQueues(s, s', {m.id});
    TakenAck(s, s', m.ictx, i);
    forall k | k in s'.imps ensures CtxOk(s', k, s'.imps[k]) {
      if k != m.ictx { CtxKept(s, s', {m.id}, k, s.imps[k]); }
    }
    Assemble(s, s', {m.id});
  }

  /** `x'` has the open descriptors of `x` and, unless it was turned away, the received one. */
  ghost predicate More(x: I.Ctx, x': I.Ctx, i: I.Act)
    requires i.Receive?
  {
    && I.Inv(x') && x'.proto == 1
    && (forall h: nat :: I.Unsent(x', h) <==> I.Unsent(x, h) || (h == x.next && i.outcome == I.Valid && i.desc.key !in x.whse))
    && (forall h: nat :: I.Unsent(x', h) ==> x'.heap[h].desc == if h == x.next then i.desc else x.heap[h].desc)
    && (forall t: nat :: I.Refuses(x', t) <==> I.Refuses(x, t) || (t == i.t && i.outcome == I.Invalid))
    && (forall t: nat :: I.Refuses(x', t) ==> x'.threads[t].desc == if t == i.t then i.desc else x.threads[t].desc)
    && !I.Unsent(x, x.next) && !I.Refuses(x, i.t)
  }

  lemma MoreAfter(x: I.Ctx, i: I.Act)
    requires I.Inv(x) && x.proto == 1 && i.Receive? && I.Enabled(x, i)
    ensures More(x, I.Do(x, i), i)
  {
    I.FreshNode(x);
    NotYet(x, i);
    MoreNodes(x, i);
    MoreRefusals(x, i);
    hide I.Inv, I.Do, I.Enabled, I.Refuses, I.Unsent;
    I.DoInv(x, i);
    I.ProtoKept(x, i);
  }

  lemma MoreNodes(x: I.Ctx, i: I.Act)
    requires I.Inv(x) && x.proto == 1 && i.Receive? && I.Enabled(x, i)
    ensures var x' := I.Do(x, i);
      && (forall h: nat :: I.Unsent(x', h) <==> I.Unsent(x, h) || (h == x.next && i.outcome == I.Valid && i.desc.key !in x.whse))
      && (forall h: nat :: I.Unsent(x', h) ==> x'.heap[h].desc == if h == x.next then i.desc else x.heap[h].desc)
  {
    hide I.Inv, I.Do, I.Enabled, I.Refuses;
    var x' := I.Do(x, i);
    forall h: nat
      ensures I.Unsent(x', h) <==> I.Unsent(x, h) || (h == x.next && i.outcome == I.Valid && i.desc.key !in x.whse)
      ensures I.Unsent(x', h) ==> x'.heap[h].desc == if h == x.next then i.desc else x.heap[h].desc
    {
      I.ReceiveEffect(x, i, h, 0);
    }
  }

  lemma NotYet(x: I.Ctx, i: I.Act)
    requires i.Receive? && I.Enabled(x, i) && x.next !in x.heap
    ensures !I.Unsent(x, x.next) && !I.Refuses(x, i.t)
  {
  }

  lemma MoreRefusals(x: I.Ctx, i: I.Act)
    requires I.Inv(x) && x.proto == 1 && i.Receive? && I.Enabled(x, i)
    ensures var x' := I.Do(x, i);
      && (forall t: nat :: I.Refuses(x', t) <==> I.Refuses(x, t) || (t == i.t && i.outcome == I.Invalid))
      && (forall t: nat :: I.Refuses(x', t) ==> x'.threads[t].desc == if t == i.t then i.desc else x.threads[t].desc)
  {
    hide I.Inv, I.Do, I.Enabled, I.Unsent;
    var x' := I.Do(x, i);
    forall t: nat
      ensures I.Refuses(x', t) <==> I.Refuses(x, t) || (t == i.t && i.outcome == I.Invalid)
      ensures I.Refuses(x', t) ==> x'.threads[t].desc == if t == i.t then i.desc else x.threads[t].desc
    {
      I.ReceiveEffect(x, i, 0, t);
    }
  }

  lemma CtxMore(s: Sys, s': Sys, c: nat, x: I.Ctx, x': I.Ctx, i: I.Act)
    requires i.Receive? && CtxOk(s, c, x) && More(x, x', i)
    requires var id := i.desc.key.exportId;
      && i.desc.key == KeyOf(id) && ClaimOf(s, id).Acked? && Change(s, s', {id}) && R.Held(s'.exp, id, i.desc.obj)
      && ClaimOf(s', id) == Outcome(x, c, i)
    ensures CtxOk(s', c, x')
  {
    hide I.Inv, R.Held;
    forall h | h in x'.heap && I.Unsent(x', h) ensures DescOk(s', x'.heap[h].desc, Inserted(c, h)) {
      if h != x.next { assert DescOk(s, x.heap[h].desc, Inserted(c, h)); }
    }
    forall t | t in x'.threads && I.Refuses(x', t) ensures DescOk(s', x'.threads[t].desc, Refused(c, t)) {
      if t != i.t { assert DescOk(s, x.threads[t].desc, Refused(c, t)); }
    }
  }

  lemma EvidenceMore(s: Sys, s': Sys, c: nat, i: I.Act)
    requires i.Receive? && c in s.imps && s'.imps.Keys == s.imps.Keys && More(s.imps[c], s'.imps[c], i)
    requires (forall k :: k in s.imps && k != c ==> s'.imps[k] == s.imps[k]) && s'.toExp == s.toExp
    requires forall m :: m in s.toImp && m.Ack? && m.id != i.desc.key.exportId ==> m in s'.toImp
    ensures Evidence(s, s', {i.desc.key.exportId})
  {
    hide I.Inv, I.Unsent;
  }

  lemma TakenAck(s: Sys, s': Sys, c: nat, i: I.Act)
    requires Inv(s) && c in s.imps && i.Receive? && I.Enabled(s.imps[c], i) && CtxOk(s, c, s.imps[c])
    requires var id := i.desc.key.exportId;
      && i.desc.key == KeyOf(id) && ClaimOf(s, id).Acked? && Change(s, s', {id}) && R.Held(s'.exp, id, i.desc.obj)
      && ClaimOf(s', id) == Outcome(s.imps[c], c, i)
    requires s'.imps == s.imps[c := I.Do(s.imps[c], i)] && s'.toExp == s.toExp
    requires forall m :: m in s.toImp && m.Ack? && m.id != i.desc.key.exportId ==> m in s'.toImp
    ensures CtxOk(s', c, s'.imps[c]) && Evidence(s, s', {i.desc.key.exportId})
    ensures ClaimOk(s', i.desc.key.exportId, ClaimOf(s', i.desc.key.exportId))
  {
    hide E.Inv, R.Held, I.Inv, I.Enabled, I.Do;
    MoreAfter(s.imps[c], i);
    CtxMore(s, s', c, s.imps[c], s'.imps[c], i);
    EvidenceMore(s, s', c, i);
    hide Evidence, Change, CtxOk, I.Unsent, I.Refuses;
  }

  lemma {:induction false} DoInv(s: Sys, a: Act)
    requires Inv(s) && Enabled(s, a) && Allowed(s, a)
    ensures Inv(Do(s, a))
  {
    hide Inv, Do, Enabled, Allowed;
    match a
    case ExpStep(e) => ExpStepInv(s, e);
    case ImpStep(_, _, _) => ImpStepInv(s, a);
    case SendImport(_, _, _, _, _, _, _) => SendImportInv(s, a);
    case TakeImport(answered) => TakeImportInv(s, answered);
    case DropImport => DropImportInv(s);
    case TakeUnimport(t, vchan) => TakeUnimportInv(s, t, vchan);
    case TakeAck(t, outcome) => TakeAckInv(s, t, outcome);
    case TakeAckFail(t) => TakeAckFailInv(s, t);
    case DropAck => DropAckInv(s);
  }

  // ---------------------------------------------------------------- runs

  predicate Start(s: Sys) {
    && R.Start(s.exp) && s.toExp == [] && s.toImp == [] && s.claim == map[]
    && forall c :: c in s.imps ==> I.Start(s.imps[c]) && s.imps[c].proto == 1
  }

  predicate Leads(s: Sys, a: Act, s': Sys) { Enabled(s, a) && Allowed(s, a) && s' == Do(s, a) }

  predicate IsRun(ss: seq<Sys>, steps: seq<Act>) {
    && |ss| == |steps| + 1 && Start(ss[0])
    && forall i :: 0 <= i < |steps| ==> Leads(ss[i], steps[i], ss[i + 1])
  }

  lemma StartInv(s: Sys)
    requires Start(s)
    ensures Inv(s)
  {
  }

  lemma {:induction false} RunInv(ss: seq<Sys>, steps: seq<Act>, n: nat)
    requires IsRun(ss, steps) && n < |ss|
    ensures Inv(ss[n])
  {
    hide Inv, Enabled, Do, Allowed, Start;
    if n == 0 {
      StartInv(ss[0]);
    } else {
      RunInv(ss, steps, n - 1);
      assert Leads(ss[n - 1], steps[n - 1], ss[n - 1 + 1]);
      DoInv(ss[n - 1], steps[n - 1]);
    }
  }

  /** The node is in the importer's warehouse, or in the hands of its teardown. */
  predicate InWarehouse(x: I.Ctx, h: nat) { I.InTree(x, h) || x.drain == I.InHand(h) }

  /**
   Cross-VM safety: in every run, from the moment a descriptor is in an importer's warehouse until
   UNIMPORT has been sent for it, the exporter's table still leads from its id to that very
   descriptor, which is live, exported and marked imported; whatever ids were reused meanwhile.
   It covers in particular every node in IMPORTING or IMPORTED.
   */
  lemma {:induction false} CrossVmSafety(ss: seq<Sys>, steps: seq<Act>, n: nat, c: nat, h: nat)
    requires IsRun(ss, steps) && n < |ss| && c in ss[n].imps && h in ss[n].imps[c].heap
    requires !ss[n].imps[c].heap[h].sent || ss[n].imps[c].heap[h].st in {I.Importing, I.Imported}
    ensures var s, d := ss[n], ss[n].imps[c].heap[h].desc;
      && InWarehouse(s.imps[c], h)
      && d.key.exportId in s.exp.idr && s.exp.idr[d.key.exportId] == d.obj
      && d.obj in s.exp.heap && s.exp.heap[d.obj].id == d.key.exportId
      && s.exp.heap[d.obj].imported && s.exp.heap[d.obj].success
  {
    RunInv(ss, steps, n);
    hide IsRun;
    var s := ss[n];
    var x, d := s.imps[c], s.imps[c].heap[h].desc;
    assert CtxOk(s, c, x);
    NodeFacts(x, h);
    assert DescOk(s, d, Inserted(c, h));
    hide I.Inv;
    HeldFacts(s.exp, d.key.exportId, d.obj);
  }

  lemma NodeFacts(x: I.Ctx, h: nat)
    requires I.Inv(x) && x.proto == 1 && h in x.heap && (!x.heap[h].sent || x.heap[h].st in {I.Importing, I.Imported})
    ensures I.Unsent(x, h) && InWarehouse(x, h)
  {
  }

  lemma HeldFacts(e: E.Vm, id: nat, o: nat)
    requires E.Inv(e) && R.Held(e, id, o)
    ensures e.heap[o].id == id && e.heap[o].success
  {
  }

  /**
   So no path of the exporter gets at it: unexport refuses, a context being freed leaves it to the
   reclaim list, and the worker leaves it there.
   */
  lemma {:induction false} ExporterKeepsOff(ss: seq<Sys>, steps: seq<Act>, n: nat, c: nat, h: nat, e: E.Act)
    requires IsRun(ss, steps) && n < |ss| && c in ss[n].imps && h in ss[n].imps[c].heap && !ss[n].imps[c].heap[h].sent
    requires Enabled(ss[n], ExpStep(e)) && E.Allowed(ss[n].exp, e)
    ensures var d := ss[n].imps[c].heap[h].desc; R.Held(E.Do(ss[n].exp, e), d.key.exportId, d.obj)
  {
    CrossVmSafety(ss, steps, n, c, h);
    RunInv(ss, steps, n);
    hide IsRun, E.Do;
    var d := ss[n].imps[c].heap[h].desc;
    R.HeldKept(ss[n].exp, e, d.key.exportId, d.obj);
  }

  // ---------------------------------------------------------------- why one importer per export

  /** Every descriptor in a warehouse whose UNIMPORT is not sent is held by the exporter. */
  predicate Safe(s: Sys) {
    forall c, h :: c in s.imps && h in s.imps[c].heap && I.Unsent(s.imps[c], h) ==>
      R.Held(s.exp, s.imps[c].heap[h].desc.key.exportId, s.imps[c].heap[h].desc.obj)
  }

  /** Some warehouse still has this id. */
  predicate StillOpen(s: Sys, id: nat) {
    exists c, h :: c in s.imps && h in s.imps[c].heap && I.Unsent(s.imps[c], h) && s.imps[c].heap[h].desc.key.exportId == id
  }

  /** Both sides work by themselves, whatever passes between them. */
  predicate Sound(s: Sys) {
    E.Inv(s.exp) && forall c :: c in s.imps ==> I.Inv(s.imps[c]) && s.imps[c].proto == 1
  }

  /** An UNIMPORT clears `remote_imported` under a warehouse, or an ack brings a descriptor that is not held any more. */
  predicate Loses(s: Sys, a: Act)
    requires Enabled(s, a)
  {
    || (a.TakeUnimport? && StillOpen(s, s.toExp[0].id))
    || (a.TakeAck? && a.outcome == I.Valid && var m := s.toImp[0];
          KeyOf(m.id) !in s.imps[m.ictx].whse && !R.Held(s.exp, m.id, m.obj))
  }

  /** `remote_imported` is a flag, no count: these two steps, however ids are shared, are all that ends safety. */
  lemma {:induction false} SafetyLostExactly(s: Sys, a: Act)
    requires Safe(s) && Sound(s) && Enabled(s, a)
    requires a.ExpStep? || a.TakeImport? ==> Allowed(s, a)
    ensures Safe(Do(s, a)) <==> !Loses(s, a)
  {
    hide E.Inv, E.Do, R.Held, E.Enabled, E.Allowed, E.Importable, I.Inv, I.Do, I.Enabled, I.Unsent, I.Refuses, I.Retires, I.Unimports;
    match a
    case ExpStep(e) => ExporterStep(s.exp, e);
    case ImpStep(c, i, _) => SafeLess(s, Do(s, a), c, i);
    case SendImport(c, t, id, _, _, l, r) => SafeLess(s, Do(s, a), c, I.SendImport(t, KeyOf(id), l, r));
    case TakeImport(_) => ExporterStep(s.exp, RecvImport(s));
    case DropImport =>
    case TakeUnimport(t, vchan) => SafeCleared(s, t, vchan);
    case TakeAck(t, outcome) => SafeMore(s, Do(s, a), s.toImp[0].ictx, RecvAck(s, t, outcome));
    case TakeAckFail(t) => var m := s.toImp[0]; SafeLess(s, Do(s, a), m.ictx, I.ReceiveFail(t, KeyOf(m.id), m.vcLocal, m.vcRemote));
    case DropAck =>
  }

  lemma SafeLess(s: Sys, s': Sys, c: nat, i: I.Act)
    requires Safe(s) && Sound(s) && c in s.imps && I.Enabled(s.imps[c], i) && !i.Receive?
    requires s'.exp == s.exp && s'.imps == s.imps[c := I.Do(s.imps[c], i)]
    ensures Safe(s')
  {
    hide E.Inv, R.Held, I.Inv, I.Do, I.Enabled;
    LessAfter(s.imps[c], i);
    hide I.Refuses, I.Retires;
  }

  lemma SafeMore(s: Sys, s': Sys, c: nat, i: I.Act)
    requires Safe(s) && Sound(s) && c in s.imps && I.Enabled(s.imps[c], i) && i.Receive?
    requires s'.exp == s.exp && s'.imps == s.imps[c := I.Do(s.imps[c], i)]
    ensures Safe(s') <==>
      (i.outcome == I.Valid && i.desc.key !in s.imps[c].whse ==> R.Held(s.exp, i.desc.key.exportId, i.desc.obj))
  {
    hide E.Inv, R.Held, I.Inv, I.Do, I.Enabled;
    MoreAfter(s.imps[c], i);
    hide I.Refuses;
    if i.outcome == I.Valid && i.desc.key !in s.imps[c].whse { assert I.Unsent(s'.imps[c], s.imps[c].next); }
  }

  lemma SafeCleared(s: Sys, t: nat, vchan: bool)
    requires Safe(s) && E.Inv(s.exp) && Enabled(s, TakeUnimport(t, vchan))
    ensures Safe(Do(s, TakeUnimport(t, vchan))) <==> !StillOpen(s, s.toExp[0].id)
  {
    var s', id := Do(s, TakeUnimport(t, vchan)), s.toExp[0].id;
    ExporterStep(s.exp, E.RecvUnimport(t, id, vchan));
    UnimportClears(s.exp, t, id, vchan);
    hide E.Inv, E.Do, R.Held, E.Enabled, I.Unsent;
    if StillOpen(s, id) {
      var c, h :| c in s.imps && h in s.imps[c].heap && I.Unsent(s.imps[c], h) && s.imps[c].heap[h].desc.key.exportId == id;
      assert c in s'.imps && !R.Held(s'.exp, id, s'.imps[c].heap[h].desc.obj);
    }
  }

  lemma UnimportClears(e: E.Vm, t: nat, id: nat, vchan: bool)
    requires E.Inv(e) && E.Enabled(e, E.RecvUnimport(t, id, vchan))
    ensures forall o :: !R.Held(E.Do(e, E.RecvUnimport(t, id, vchan)), id, o)
  {
    hide E.DoTeardown, E.CanTeardown, E.DoWork, E.CanWork;
  }

  // Two contexts import descriptor 0, id 1: context 0 turns it away while context 1 keeps it.

  function Exporter(imported: bool): E.Vm {
    R.Snapshot(true, imported, E.Warehouse, E.Nobody, E.Open, map[], E.Idle, false)
  }

  function Shared(): I.Desc { I.Desc(KeyOf(1), 0) }

  function Waits(): I.Pc { I.Waiting(KeyOf(1), 0, 0) }

  function Importer(threads: map<nat, I.Pc>): I.Ctx { I.Ctx(1, map[], map[], 0, [], 0, threads, I.Live, false, false) }

  function Keeper(): I.Ctx {
    I.Ctx(1, map[KeyOf(1) := 0], map[0 := I.Node(Shared(), I.Init, false, I.Thread(1))], 1, [], 1,
          map[0 := Waits(), 1 := I.Posting(I.Ack(KeyOf(1), 0, 0, Some(0)))], I.Live, false, false)
  }

  function Both(e: E.Vm, x: I.Ctx, y: I.Ctx, toExp: seq<ToExporter>, toImp: seq<ToImporter>, serial: nat, claim: map<nat, Claim>): Sys {
    Sys(e, map[0 := x, 1 := y], toExp, toImp, serial, claim)
  }

  function SharingStep(n: nat): Act
    requires n < 12
  {
    match n
    case 0 => ExpStep(E.Alloc(0, 0, 1, 1))
    case 1 => ExpStep(E.List(0))
    case 2 => ExpStep(E.Succeed(0))
    case 3 => SendImport(0, 0, 1, 1, 0, 0, 0)
    case 4 => SendImport(1, 0, 1, 1, 0, 0, 0)
    case 5 => TakeImport(true)
    case 6 => TakeImport(true)
    case 7 => TakeAck(1, I.Invalid)
    case 8 => TakeAck(1, I.Valid)
    case 9 => ImpStep(0, I.Post(1, true), true)
    case 10 => ImpStep(0, I.RejectSend(1), true)
    case _ => TakeUnimport(0, true)
  }

  function Sharing(n: nat): Sys
    requires n <= 12
  {
    var none, one := Importer(map[]), Importer(map[0 := Waits()]);
    var m0, m1 := Import(0, 1, 1, 0, 0, 0, 0), Import(1, 1, 1, 0, 1, 0, 0);
    var a0, a1 := Ack(2, 1, 0, 0, 0, 0), Ack(3, 1, 0, 1, 0, 0);
    match n
    case 0 => Both(E.Vm(map[], 0, map[], map[0 := E.Open, 1 := E.Open], map[], E.Idle, false, false), none, none, [], [], 0, map[])
    case 1 => Both(R.Snapshot(false, false, E.Detached, E.Thread(0), E.Open, map[0 := E.Exporting(0, 0)], E.Idle, false), none, none, [], [], 0, map[])
    case 2 => Both(R.Snapshot(false, false, E.Warehouse, E.Thread(0), E.Open, map[0 := E.Listing(0, 0)], E.Idle, false), none, none, [], [], 0, map[])
    case 3 => Both(Exporter(false), none, none, [], [], 0, map[])
    case 4 => Both(Exporter(false), one, none, [m0], [], 1, map[1 := Requested(0)])
    case 5 => Both(Exporter(false), one, one, [m0, m1], [], 2, map[1 := Requested(1)])
    case 6 => Both(Exporter(true), one, one, [m1], [a0], 3, map[1 := Acked(2, 0)])
    case 7 => Both(Exporter(true), one, one, [], [a0, a1], 4, map[1 := Acked(3, 0)])
    case 8 => Both(Exporter(true), Importer(map[0 := Waits(), 1 := I.Rejecting(Shared(), 0, 0)]), one, [], [a1], 4, map[1 := Refused(0, 1)])
    case 9 => Both(Exporter(true), Importer(map[0 := Waits(), 1 := I.Rejecting(Shared(), 0, 0)]), Keeper(), [], [], 4, map[1 := Inserted(1, 0)])
    case 10 => Both(Exporter(true), Importer(map[0 := Waits(), 1 := I.Refusing(Shared())]), Keeper(), [], [], 4, map[1 := Inserted(1, 0)])
    case 11 => Both(Exporter(true), one, Keeper(), [Unimport(4, 1)], [], 5, map[1 := Unclaimed])
    case _ => Both(Exporter(false), one, Keeper(), [], [], 5, map[1 := Unclaimed])
  }

  predicate Steps(s: Sys, a: Act, s': Sys) { Enabled(s, a) && s' == Do(s, a) }

  /** A run that need not respect the hypotheses. */
  predicate IsFreeRun(ss: seq<Sys>, steps: seq<Act>) {
    && |ss| == |steps| + 1 && Start(ss[0])
    && forall i :: 0 <= i < |steps| ==> Steps(ss[i], steps[i], ss[i + 1])
  }

  lemma AllocStep()
    ensures Steps(Sharing(0), SharingStep(0), Sharing(1))
  {
  }

  lemma ListStep()
    ensures Steps(Sharing(1), SharingStep(1), Sharing(2))
  {
    hide E.DoTeardown, E.CanTeardown, E.DoWork, E.CanWork, I.Do, I.Enabled;
  }

  lemma SucceedStep()
    ensures Steps(Sharing(2), SharingStep(2), Sharing(3))
  {
    hide E.DoTeardown, E.CanTeardown, E.DoWork, E.CanWork, I.Do, I.Enabled;
  }

  lemma RequestOne()
    ensures Steps(Sharing(3), SharingStep(3), Sharing(4))
  {
  }

  lemma RequestTwo()
    ensures Steps(Sharing(4), SharingStep(4), Sharing(5))
  {
  }

  lemma ExporterMarks(before: bool)
    ensures var a := E.RecvImport(0, 1, 1);
      E.Enabled(Exporter(before), a) && E.Do(Exporter(before), a) == Exporter(true) && E.Importable(Exporter(before), 1, 1)
  {
  }

  lemma ExporterClears()
    ensures var a := E.RecvUnimport(0, 1, true);
      E.Enabled(Exporter(true), a) && E.Do(Exporter(true), a) == Exporter(false)
  {
  }

  lemma ImporterReceives(outcome: I.Outcome)
    requires outcome != I.NoMemory
    ensures var x, a := Importer(map[0 := Waits()]), I.Receive(1, Shared(), 0, 0, outcome);
      && I.Enabled(x, a)
      && I.Do(x, a) == if outcome == I.Valid then Keeper() else Importer(map[0 := Waits(), 1 := I.Rejecting(Shared(), 0, 0)])
  {
  }

  lemma ImporterPosts()
    ensures var x, a := Importer(map[0 := Waits(), 1 := I.Rejecting(Shared(), 0, 0)]), I.Post(1, true);
      && I.Enabled(x, a) && I.Retires(x, a) == None && I.Unimports(x, a) == None
      && I.Do(x, a) == Importer(map[0 := Waits(), 1 := I.Refusing(Shared())])
  {
  }

  lemma ImporterRefuses()
    ensures var x, a := Importer(map[0 := Waits(), 1 := I.Refusing(Shared())]), I.RejectSend(1);
      I.Enabled(x, a) && I.Unimports(x, a) == Some(KeyOf(1)) && I.Do(x, a) == Importer(map[0 := Waits()])
  {
  }

  lemma AnswerOne()
    ensures Steps(Sharing(5), SharingStep(5), Sharing(6))
  {
    ExporterMarks(false);
    hide I.Do, I.Enabled, I.Unimports, I.Retires, E.Do, E.Enabled, E.Importable;
  }

  lemma AnswerTwo()
    ensures Steps(Sharing(6), SharingStep(6), Sharing(7))
  {
    ExporterMarks(true);
    hide I.Do, I.Enabled, I.Unimports, I.Retires, E.Do, E.Enabled, E.Importable;
  }

  lemma TakeAckTo(s: Sys, t: nat, outcome: I.Outcome, z: I.Ctx)
    requires s.toImp != [] && s.toImp[0].Ack? && s.toImp[0].ictx in s.imps
    requires var x := s.imps[s.toImp[0].ictx]; I.Enabled(x, RecvAck(s, t, outcome)) && I.Do(x, RecvAck(s, t, outcome)) == z
    ensures
      var m := s.toImp[0];
      Steps(s, TakeAck(t, outcome), s.(imps := s.imps[m.ictx := z], toImp := s.toImp[1..],
        claim := s.claim[m.id := Outcome(s.imps[m.ictx], m.ictx, RecvAck(s, t, outcome))]))
  {
    hide I.Do, I.Enabled, E.Do, E.Enabled;
  }

  lemma ReceiveOne()
    ensures Steps(Sharing(7), SharingStep(7), Sharing(8))
  {
    ImporterReceives(I.Invalid);
    var one, z := Importer(map[0 := Waits()]), Importer(map[0 := Waits(), 1 := I.Rejecting(Shared(), 0, 0)]);
    hide I.Do, I.Enabled, Exporter, Importer, Keeper, Steps;
    TakeAckTo(Sharing(7), 1, I.Invalid, z);
    assert (map[0 := one, 1 := one])[0 := z] == map[0 := z, 1 := one];
  }

  lemma ReceiveTwo()
    ensures Steps(Sharing(8), SharingStep(8), Sharing(9))
  {
    ImporterReceives(I.Valid);
    var one, z := Importer(map[0 := Waits()]), Importer(map[0 := Waits(), 1 := I.Rejecting(Shared(), 0, 0)]);
    assert one.whse == map[] && one.next == 0;
    hide I.Do, I.Enabled, Exporter, Importer, Keeper, Steps;
    TakeAckTo(Sharing(8), 1, I.Valid, Keeper());
    assert (map[0 := z, 1 := one])[1 := Keeper()] == map[0 := z, 1 := Keeper()];
  }

  lemma PostStep()
    ensures Steps(Sharing(9), SharingStep(9), Sharing(10))
  {
    ImporterPosts();
    hide I.Do, I.Enabled, I.Unimports, I.Retires, E.Do, E.Enabled, E.Importable;
  }

  lemma RefuseStep()
    ensures Steps(Sharing(10), SharingStep(10), Sharing(11))
  {
    ImporterRefuses();
    hide I.Do, I.Enabled, I.Unimports, I.Retires, E.Do, E.Enabled, E.Importable;
  }

  lemma ReleaseStep()
    ensures Steps(Sharing(11), SharingStep(11), Sharing(12))
  {
    ExporterClears();
    hide I.Do, I.Enabled, I.Unimports, I.Retires, E.Do, E.Enabled, E.Importable;
  }

  lemma SharingEnds()
    ensures Start(Sharing(0)) && !Safe(Sharing(12))
  {
    assert I.Unsent(Sharing(12).imps[1], 0);
  }

  lemma SharingLeads(n: nat)
    requires n < 12
    ensures Steps(Sharing(n), SharingStep(n), Sharing(n + 1))
  {
    hide Steps, Sharing, SharingStep;
    match n
    case 0 => AllocStep();
    case 1 => ListStep();
    case 2 => SucceedStep();
    case 3 => RequestOne();
    case 4 => RequestTwo();
    case 5 => AnswerOne();
    case 6 => AnswerTwo();
    case 7 => ReceiveOne();
    case 8 => ReceiveTwo();
    case 9 => PostStep();
    case 10 => RefuseStep();
    case _ => ReleaseStep();
  }

  /** With a second importer of the same id, safety fails: context 1 still has what may now be released. */
  lemma TwoImporters()
    ensures exists ss, steps :: IsFreeRun(ss, steps) && !Safe(ss[|steps|])
  {
    var ss := seq(13, i requires 0 <= i < 13 => Sharing(i));
    var steps := seq(12, i requires 0 <= i < 12 => SharingStep(i));
    SharingEnds();
    hide Start, Safe, Steps, Sharing, SharingStep;
    forall i | 0 <= i < |steps| ensures Steps(ss[i], steps[i], ss[i + 1]) {
      SharingLeads(i);
    }
    assert IsFreeRun(ss, steps);
  }
}
