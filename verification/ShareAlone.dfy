/**
 What sharing memory between the two machines amounts to when nothing interferes: an import marks the exporter's
 descriptor and leaves it in the importer's warehouse; an unimport takes both back; a refused import leaves nothing.
 */
module ShareAlone {
  import opened Common
  import opened MemShare

  import I = ImportSide
  import E = ExportSide
  import A = ImportAlone

  predicate Step(s: Sys, a: Act, s': Sys) { Enabled(s, a) && Do(s, a) == s' }

  /** The steps are possible one after the other and lead from `s` to `s'`. */
  predicate Does(s: Sys, acts: seq<Act>, s': Sys)
    decreases |acts|
  {
    if acts == [] then s == s' else Enabled(s, acts[0]) && Does(Do(s, acts[0]), acts[1..], s')
  }

  lemma Then(s: Sys, a: Act, s1: Sys, acts: seq<Act>, s2: Sys)
    requires Step(s, a, s1) && Does(s1, acts, s2)
    ensures Does(s, [a] + acts, s2)
  {
    hide Do, Enabled;
    assert ([a] + acts)[1..] == acts;
  }

  lemma Three(s: Sys, a: Act, s1: Sys, b: Act, s2: Sys, c: Act, s3: Sys, acts: seq<Act>, s4: Sys)
    requires Step(s, a, s1) && Step(s1, b, s2) && Step(s2, c, s3) && Does(s3, acts, s4)
    ensures Does(s, [a, b, c] + acts, s4)
  {
    hide Does, Step;
    Then(s2, c, s3, acts, s4);
    Then(s1, b, s2, [c] + acts, s4);
    Then(s, a, s1, [b] + ([c] + acts), s4);
    assert [a] + ([b] + ([c] + acts)) == [a, b, c] + acts;
  }

  lemma Two(s: Sys, a: Act, s1: Sys, b: Act, s2: Sys)
    requires Step(s, a, s1) && Step(s1, b, s2)
    ensures Does(s, [a, b], s2)
  {
    assert Does(s2, [], s2);
    hide Does, Step;
    Then(s1, b, s2, [], s2);
    Then(s, a, s1, [b] + [], s2);
    assert [a] + ([b] + []) == [a, b];
  }

  // ---------------------------------------------------------------- the steps

  /** A step of the importer that neither sends nor retires anything. */
  lemma Inside(s: Sys, c: nat, i: I.Act, x: I.Ctx)
    requires c in s.imps && A.Step(s.imps[c], i, None, x)
    requires i.Post? || i.TakeAck? || i.Lookup? || i.MapDone? || i.BeginUnimport? || i.Remove? || i.Free?
    ensures Step(s, ImpStep(c, i, true), s.(imps := s.imps[c := x]))
  {
    hide I.Enabled, I.Do;
  }

  /** A step of the importer that sends UNIMPORT. */
  lemma Sending(s: Sys, c: nat, t: nat, h: nat, x: I.Ctx)
    requires c in s.imps && t in s.imps[c].threads && s.imps[c].threads[t] == I.Unmapping(h) && h in s.imps[c].heap
    requires A.Step(s.imps[c], I.SendUnimport(t), Some(KeyOf(s.imps[c].heap[h].desc.key.exportId)), x)
    ensures
      var id := s.imps[c].heap[h].desc.key.exportId;
      Step(s, ImpStep(c, I.SendUnimport(t), true),
           s.(imps := s.imps[c := x], toExp := s.toExp + [Unimport(s.serial, id)], serial := s.serial + 1,
              claim := s.claim[id := Unclaimed]))
  {
    hide I.Enabled, I.Do;
  }

  lemma Requests(s: Sys, c: nat, t: nat, id: nat, pages: nat, ectx: nat, l: nat, r: nat, x: I.Ctx)
    requires c in s.imps && A.Step(s.imps[c], I.SendImport(t, KeyOf(id), l, r), None, x) && s.toExp == []
    ensures
      Step(s, SendImport(c, t, id, pages, ectx, l, r),
           s.(imps := s.imps[c := x], toExp := [Import(s.serial, id, pages, ectx, c, l, r)], serial := s.serial + 1,
              claim := s.claim[id := Requested(s.serial)]))
  {
    hide I.Enabled, I.Do;
  }

  /** The exporter has a descriptor of this size under the id, exported in full, and the context the IMPORT came for is open. */
  predicate Offered(e: E.Vm, id: nat, o: nat, pages: nat, ectx: nat) {
    && id in e.idr && e.idr[id] == o && o in e.heap && e.heap[o].pages == pages && e.heap[o].success
    && ectx in e.ctxs && e.ctxs[ectx] == E.Open
  }

  predicate NotOffered(e: E.Vm, id: nat, pages: nat, ectx: nat) {
    && ectx in e.ctxs && e.ctxs[ectx] == E.Open
    && (id !in e.idr || e.idr[id] !in e.heap || e.heap[e.idr[id]].pages != pages || !e.heap[e.idr[id]].success)
  }

  /** The exporter once a descriptor is marked as imported through context `ectx`. */
  function Marked(e: E.Vm, o: nat, ectx: nat): E.Vm
    requires o in e.heap
  {
    e.(heap := e.heap[o := e.heap[o].(imported := true, ctx := ectx)])
  }

  lemma Answers(s: Sys, n: nat, id: nat, o: nat, pages: nat, ectx: nat, c: nat, l: nat, r: nat)
    requires s.toExp == [Import(n, id, pages, ectx, c, l, r)] && s.toImp == [] && Offered(s.exp, id, o, pages, ectx)
    ensures
      Step(s, TakeImport(true),
           Sys(Marked(s.exp, o, ectx), s.imps, [], [Ack(s.serial, id, o, c, l, r)], s.serial + 1,
               s.claim[id := Acked(s.serial, o)]))
  {
    hide E.CanTeardown, E.DoTeardown, E.CanWork, E.DoWork, I.Enabled, I.Do;
    assert [Import(n, id, pages, ectx, c, l, r)][1..] == [] && [] + [Ack(s.serial, id, o, c, l, r)]
      == [Ack(s.serial, id, o, c, l, r)];
  }

  lemma Refuses(s: Sys, n: nat, id: nat, pages: nat, ectx: nat, c: nat, l: nat, r: nat)
    requires s.toExp == [Import(n, id, pages, ectx, c, l, r)] && s.toImp == [] && NotOffered(s.exp, id, pages, ectx)
    ensures
      Step(s, TakeImport(true), Sys(s.exp, s.imps, [], [AckFail(s.serial, id, c, l, r)], s.serial + 1, s.claim[id := Unclaimed]))
  {
    hide E.CanTeardown, E.DoTeardown, E.CanWork, E.DoWork, I.Enabled, I.Do;
    assert [Import(n, id, pages, ectx, c, l, r)][1..] == [] && [] + [AckFail(s.serial, id, c, l, r)]
      == [AckFail(s.serial, id, c, l, r)];
  }

  lemma Unmarks(s: Sys, n: nat, id: nat, o: nat, u: nat)
    requires s.toExp == [Unimport(n, id)] && u !in s.exp.threads && E.SomeOpen(s.exp)
    requires id in s.exp.idr && s.exp.idr[id] == o && o in s.exp.heap
    ensures
      Step(s, TakeUnimport(u, true), s.(toExp := [], exp := s.exp.(heap := s.exp.heap[o := s.exp.heap[o].(imported := false)])))
  {
    hide E.CanTeardown, E.DoTeardown, E.CanWork, E.DoWork, I.Enabled, I.Do, E.SomeOpen;
    assert [Unimport(n, id)][1..] == [];
  }

  lemma Delivers(s: Sys, n: nat, id: nat, o: nat, c: nat, l: nat, r: nat, u: nat, x: I.Ctx)
    requires s.toImp == [Ack(n, id, o, c, l, r)] && c in s.imps && KeyOf(id) !in s.imps[c].whse
    requires A.Step(s.imps[c], I.Receive(u, I.Desc(KeyOf(id), o), l, r, I.Valid), None, x)
    ensures
      Step(s, TakeAck(u, I.Valid), s.(imps := s.imps[c := x], toImp := [], claim := s.claim[id := Inserted(c, s.imps[c].next)]))
  {
    hide I.Enabled, I.Do, I.Unimports;
    assert [Ack(n, id, o, c, l, r)][1..] == [];
  }

  lemma DeliversNo(s: Sys, n: nat, id: nat, c: nat, l: nat, r: nat, u: nat, x: I.Ctx)
    requires s.toImp == [AckFail(n, id, c, l, r)] && c in s.imps && A.Step(s.imps[c], I.ReceiveFail(u, KeyOf(id), l, r), None, x)
    ensures Step(s, TakeAckFail(u), s.(imps := s.imps[c := x], toImp := []))
  {
    hide I.Enabled, I.Do, I.Unimports;
    assert [AckFail(n, id, c, l, r)][1..] == [];
  }

  // ---------------------------------------------------------------- import

  /** The state of the pair, given what changes. */
  function With(s: Sys, exp: E.Vm, c: nat, x: I.Ctx, toExp: seq<ToExporter>, toImp: seq<ToImporter>, serial: nat, id: nat,
                claim: Claim): Sys {
    Sys(exp, s.imps[c := x], toExp, toImp, serial, s.claim[id := claim])
  }

  lemma Inner(s: Sys, exp: E.Vm, c: nat, x: I.Ctx, serial: nat, id: nat, claim: Claim, i: I.Act, x': I.Ctx)
    requires A.Step(x, i, None, x') && (i.Post? || i.TakeAck? || i.Lookup? || i.MapDone? || i.BeginUnimport? || i.Remove? || i.Free?)
    ensures Step(With(s, exp, c, x, [], [], serial, id, claim), ImpStep(c, i, true), With(s, exp, c, x', [], [], serial, id, claim))
  {
    hide A.Step, Step;
    Inside(With(s, exp, c, x, [], [], serial, id, claim), c, i, x');
    assert s.imps[c := x][c := x'] == s.imps[c := x'];
  }

  /** Nothing is on its way between the machines. */
  predicate Quiet(s: Sys) { s.toExp == [] && s.toImp == [] }

  lemma ImportSent(s: Sys, c: nat, t: nat, u: nat, desc: I.Desc, pages: nat, ectx: nat, l: nat, r: nat)
    requires Quiet(s) && c in s.imps && A.Ready(s.imps[c], t, u, desc, l, r) && desc.key == KeyOf(desc.key.exportId)
    ensures
      var id := desc.key.exportId;
      Step(s, SendImport(c, t, id, pages, ectx, l, r),
           With(s, s.exp, c, A.Stage(s.imps[c], t, u, desc, l, r, 1), [Import(s.serial, id, pages, ectx, c, l, r)], [],
                s.serial + 1,
                id, Requested(s.serial)))
  {
    A.Waits(s.imps[c], t, u, desc, l, r);
    hide A.Step, Step, A.Stage, A.Ready;
    Requests(s, c, t, desc.key.exportId, pages, ectx, l, r, A.Stage(s.imps[c], t, u, desc, l, r, 1));
  }

  lemma ImportAnswered(s: Sys, c: nat, x: I.Ctx, id: nat, o: nat, pages: nat, ectx: nat, l: nat, r: nat)
    requires Offered(s.exp, id, o, pages, ectx)
    ensures
      Step(With(s, s.exp, c, x, [Import(s.serial, id, pages, ectx, c, l, r)], [], s.serial + 1, id, Requested(s.serial)),
           TakeImport(true),
           With(s, Marked(s.exp, o, ectx), c, x, [], [Ack(s.serial + 1, id, o, c, l, r)], s.serial + 2, id, Acked(s.serial + 1, o)))
  {
    hide Step, Offered;
    Answers(With(s, s.exp, c, x, [Import(s.serial, id, pages, ectx, c, l, r)], [], s.serial + 1, id, Requested(s.serial)),
            s.serial, id, o, pages, ectx, c, l, r);
    assert s.claim[id := Requested(s.serial)][id := Acked(s.serial + 1, o)] == s.claim[id := Acked(s.serial + 1, o)];
  }

  lemma ImportDelivered(s: Sys, exp: E.Vm, c: nat, t: nat, u: nat, desc: I.Desc, l: nat, r: nat)
    requires c in s.imps && A.Ready(s.imps[c], t, u, desc, l, r) && desc.key == KeyOf(desc.key.exportId)
      && desc.key !in s.imps[c].whse
    ensures
      var id, o, x := desc.key.exportId, desc.obj, s.imps[c];
      Step(With(s, exp, c, A.Stage(x, t, u, desc, l, r, 1), [], [Ack(s.serial + 1, id, o, c, l, r)], s.serial + 2, id,
                Acked(s.serial + 1, o)),
           TakeAck(u, I.Valid), With(s, exp, c, A.Stage(x, t, u, desc, l, r, 2), [], [], s.serial + 2, id, Inserted(c, x.next)))
  {
    var id, o, x := desc.key.exportId, desc.obj, s.imps[c];
    var x1, x2 := A.Stage(x, t, u, desc, l, r, 1), A.Stage(x, t, u, desc, l, r, 2);
    A.Receives(x, t, u, desc, l, r);
    assert x1.next == x.next && x1.whse == x.whse;
    hide A.Step, Step, A.Stage, A.Ready;
    Delivers(With(s, exp, c, x1, [], [Ack(s.serial + 1, id, o, c, l, r)], s.serial + 2, id, Acked(s.serial + 1, o)),
             s.serial + 1, id, o, c, l, r, u, x2);
    assert s.imps[c := x1][c := x2] == s.imps[c := x2];
    assert s.claim[id := Acked(s.serial + 1, o)][id := Inserted(c, x.next)] == s.claim[id := Inserted(c, x.next)];
  }

  /** The steps inside the importer, from the queued ack to the end of the mapping. */
  lemma ImportFinished(s: Sys, exp: E.Vm, c: nat, t: nat, u: nat, desc: I.Desc, l: nat, r: nat)
    requires c in s.imps && A.Ready(s.imps[c], t, u, desc, l, r)
    ensures
      var id, x := desc.key.exportId, s.imps[c];
      var s2 := With(s, exp, c, A.Stage(x, t, u, desc, l, r, 2), [], [], s.serial + 2, id, Inserted(c, x.next));
      Does(s2, [ImpStep(c, I.Post(u, false), true), ImpStep(c, I.TakeAck(t, |x.acks|, false), true), ImpStep(c, I.Lookup(t), true)]
               + [ImpStep(c, I.MapDone(t, true), true)],
           With(s, exp, c, A.Stage(x, t, u, desc, l, r, 7), [], [], s.serial + 2, id, Inserted(c, x.next)))
  {
    var id, x, n, claim := desc.key.exportId, s.imps[c], s.serial + 2, Inserted(c, s.imps[c].next);
    A.Posts(x, t, u, desc, l, r);
    A.Takes(x, t, u, desc, l, r);
    A.Finds(x, t, u, desc, l, r);
    A.Maps(x, t, u, desc, l, r);
    hide *;
    var x2, x3, x4 := A.Stage(x, t, u, desc, l, r, 2), A.Stage(x, t, u, desc, l, r, 3), A.Stage(x, t, u, desc, l, r, 4);
    var x5, x7 := A.Stage(x, t, u, desc, l, r, 5), A.Stage(x, t, u, desc, l, r, 7);
    Inner(s, exp, c, x2, n, id, claim, I.Post(u, false), x3);
    Inner(s, exp, c, x3, n, id, claim, I.TakeAck(t, |x.acks|, false), x4);
    Inner(s, exp, c, x4, n, id, claim, I.Lookup(t), x5);
    Inner(s, exp, c, x5, n, id, claim, I.MapDone(t, true), x7);
    Single(With(s, exp, c, x5, [], [], n, id, claim), ImpStep(c, I.MapDone(t, true), true),
           With(s, exp, c, x7, [], [], n, id, claim));
    Three(With(s, exp, c, x2, [], [], n, id, claim), ImpStep(c, I.Post(u, false), true),
          With(s, exp, c, x3, [], [], n, id, claim), ImpStep(c, I.TakeAck(t, |x.acks|, false), true),
          With(s, exp, c, x4, [], [], n, id, claim), ImpStep(c, I.Lookup(t), true),
          With(s, exp, c, x5, [], [], n, id, claim), [ImpStep(c, I.MapDone(t, true), true)],
            With(s, exp, c, x7, [], [], n, id, claim));
  }

  lemma Single(s: Sys, a: Act, s1: Sys)
    requires Step(s, a, s1)
    ensures Does(s, [a], s1)
  {
    assert Does(s1, [], s1);
    hide Does, Step;
    Then(s, a, s1, [], s1);
    assert [a] + [] == [a];
  }

  lemma ImportSteps(s: Sys, c: nat, t: nat, u: nat, id: nat, o: nat, pages: nat, ectx: nat, l: nat, r: nat)
    requires Quiet(s) && c in s.imps && Offered(s.exp, id, o, pages, ectx) && o in s.exp.heap
    requires A.Ready(s.imps[c], t, u, I.Desc(KeyOf(id), o), l, r) && KeyOf(id) !in s.imps[c].whse
    ensures
      var x := s.imps[c];
      Does(s, [SendImport(c, t, id, pages, ectx, l, r), TakeImport(true), TakeAck(u, I.Valid)]
              + ([ImpStep(c, I.Post(u, false), true), ImpStep(c, I.TakeAck(t, |x.acks|, false), true),
                  ImpStep(c, I.Lookup(t), true)]
                 + [ImpStep(c, I.MapDone(t, true), true)]),
           With(s, Marked(s.exp, o, ectx), c, A.Stage(x, t, u, I.Desc(KeyOf(id), o), l, r, 7), [], [], s.serial + 2, id,
                Inserted(c, x.next)))
  {
    assert KeyOf(id).exportId == id;
    hide *;
    var x, desc := s.imps[c], I.Desc(KeyOf(id), o);
    ImportSent(s, c, t, u, desc, pages, ectx, l, r);
    ImportAnswered(s, c, A.Stage(x, t, u, desc, l, r, 1), id, o, pages, ectx, l, r);
    var e := Marked(s.exp, o, ectx);
    ImportDelivered(s, e, c, t, u, desc, l, r);
    ImportFinished(s, e, c, t, u, desc, l, r);
    var s1 := With(s, s.exp, c, A.Stage(x, t, u, desc, l, r, 1), [Import(s.serial, id, pages, ectx, c, l, r)], [],
                   s.serial + 1, id, Requested(s.serial));
    var s2 := With(s, e, c, A.Stage(x, t, u, desc, l, r, 1), [], [Ack(s.serial + 1, id, o, c, l, r)], s.serial + 2, id,
                   Acked(s.serial + 1, o));
    var s3 := With(s, e, c, A.Stage(x, t, u, desc, l, r, 2), [], [], s.serial + 2, id, Inserted(c, x.next));
    var s7 := With(s, e, c, A.Stage(x, t, u, desc, l, r, 7), [], [], s.serial + 2, id, Inserted(c, x.next));
    Three(s, SendImport(c, t, id, pages, ectx, l, r), s1, TakeImport(true), s2, TakeAck(u, I.Valid), s3,
          [ImpStep(c, I.Post(u, false), true), ImpStep(c, I.TakeAck(t, |x.acks|, false), true), ImpStep(c, I.Lookup(t), true)]
          + [ImpStep(c, I.MapDone(t, true), true)], s7);
  }

  /** The pair of machines with nothing on its way, given what changes. */
  lemma ImportOutcome(s: Sys, c: nat, t: nat, u: nat, desc: I.Desc, ectx: nat, l: nat, r: nat)
    requires Quiet(s) && c in s.imps && desc.obj in s.exp.heap
    ensures
      var id, o, x := desc.key.exportId, desc.obj, s.imps[c];
      With(s, Marked(s.exp, o, ectx), c, A.Stage(x, t, u, desc, l, r, 7), [], [], s.serial + 2, id, Inserted(c, x.next))
      == s.(exp := s.exp.(heap := s.exp.heap[o := s.exp.heap[o].(imported := true, ctx := ectx)]), serial := s.serial + 2,
            imps := s.imps[c := x.(whse := x.whse[desc.key := x.next], next := x.next + 1, total := x.total + 1,
                                   heap := x.heap[x.next := I.Node(desc, I.Imported, false, I.Nobody)])],
            claim := s.claim[id := Inserted(c, x.next)])
  {
  }

  /**
   Import across the machines: the exporter's descriptor of that id and size is marked as imported, and it is that
   descriptor that ends up imported in the warehouse; nothing is left on the way.
   */
  lemma {:induction false} ImportAcross(s: Sys, c: nat, t: nat, u: nat, id: nat, o: nat, pages: nat, ectx: nat, l: nat, r: nat)
    requires s.toExp == [] && s.toImp == [] && c in s.imps && Offered(s.exp, id, o, pages, ectx)
    requires A.Ready(s.imps[c], t, u, I.Desc(KeyOf(id), o), l, r) && KeyOf(id) !in s.imps[c].whse
    ensures
      var x := s.imps[c];
      Does(s, [SendImport(c, t, id, pages, ectx, l, r), TakeImport(true), TakeAck(u, I.Valid)]
              + ([ImpStep(c, I.Post(u, false), true), ImpStep(c, I.TakeAck(t, |x.acks|, false), true),
                  ImpStep(c, I.Lookup(t), true)]
                 + [ImpStep(c, I.MapDone(t, true), true)]),
           s.(exp := s.exp.(heap := s.exp.heap[o := s.exp.heap[o].(imported := true, ctx := ectx)]), serial := s.serial + 2,
              imps := s.imps[c := x.(whse := x.whse[KeyOf(id) := x.next], next := x.next + 1, total := x.total + 1,
                                     heap := x.heap[x.next := I.Node(I.Desc(KeyOf(id), o), I.Imported, false, I.Nobody)])],
              claim := s.claim[id := Inserted(c, x.next)]))
  {
    assert Quiet(s) && o in s.exp.heap && KeyOf(id).exportId == id;
    hide *;
    ImportSteps(s, c, t, u, id, o, pages, ectx, l, r);
    ImportOutcome(s, c, t, u, I.Desc(KeyOf(id), o), ectx, l, r);
  }

  // ---------------------------------------------------------------- unimport

  /** Context `x` has the memory of this id imported, and thread `t` is free to unimport it. */
  predicate Imported(x: I.Ctx, t: nat, id: nat) {
    && x.drain == I.Live && x.proto == 1 && t !in x.threads && KeyOf(id) in x.whse && x.whse[KeyOf(id)] in x.heap
    && x.heap[x.whse[KeyOf(id)]].desc.key == KeyOf(id) && x.heap[x.whse[KeyOf(id)]].st == I.Imported
  }

  /** The importer after `n` steps of the unimport. */
  function Leaving(x: I.Ctx, t: nat, id: nat, n: nat): I.Ctx
    requires Imported(x, t, id)
  {
    A.Unimporting(A.Begun(x, t, KeyOf(id)), t, x.whse[KeyOf(id)], n)
  }

  lemma Leaves(x: I.Ctx, t: nat, id: nat)
    requires Imported(x, t, id)
    ensures var h, x1 := x.whse[KeyOf(id)], A.Begun(x, t, KeyOf(id));
      && A.Step(x, I.BeginUnimport(t, KeyOf(id)), None, x1)
      && A.Step(x1, I.SendUnimport(t), Some(KeyOf(id)), Leaving(x, t, id, 1))
      && h in x1.heap && x1.heap[h].desc.key == KeyOf(id) && t in x1.threads && x1.threads[t] == I.Unmapping(h)
  {
    var h, x1 := x.whse[KeyOf(id)], A.Begun(x, t, KeyOf(id));
    A.Begins(x, t, KeyOf(id));
    A.Sends(x1, t, h);
    hide A.Step;
  }

  lemma Left(x: I.Ctx, t: nat, id: nat)
    requires Imported(x, t, id)
    ensures A.Step(Leaving(x, t, id, 1), I.Remove(t), None, Leaving(x, t, id, 2))
    ensures A.Step(Leaving(x, t, id, 2), I.Free(t), None, Leaving(x, t, id, 3))
    ensures var key := KeyOf(id);
      Leaving(x, t, id, 3) == x.(whse := x.whse - {key}, heap := x.heap - {x.whse[key]}, total := x.total - 1)
  {
    var h, x1 := x.whse[KeyOf(id)], A.Begun(x, t, KeyOf(id));
    A.Removes(x1, t, h);
    A.Frees(x1, t, h);
    hide A.Step;
    assert x1.heap - {h} == x.heap - {h} && x1.threads - {t} == x.threads;
  }

  lemma UnimportSent(s: Sys, c: nat, t: nat, id: nat)
    requires Quiet(s) && c in s.imps && Imported(s.imps[c], t, id)
    ensures
      var x1 := A.Begun(s.imps[c], t, KeyOf(id));
      && Step(s, ImpStep(c, I.BeginUnimport(t, KeyOf(id)), true), s.(imps := s.imps[c := x1]))
      && Step(s.(imps := s.imps[c := x1]), ImpStep(c, I.SendUnimport(t), true),
              With(s, s.exp, c, Leaving(s.imps[c], t, id, 1), [Unimport(s.serial, id)], [], s.serial + 1, id, Unclaimed))
  {
    var x, h, x1 := s.imps[c], s.imps[c].whse[KeyOf(id)], A.Begun(s.imps[c], t, KeyOf(id));
    Leaves(x, t, id);
    hide A.Step, Step, A.Begun, Leaving, Imported;
    Inside(s, c, I.BeginUnimport(t, KeyOf(id)), x1);
    Sending(s.(imps := s.imps[c := x1]), c, t, h, Leaving(x, t, id, 1));
    assert s.imps[c := x1][c := Leaving(x, t, id, 1)] == s.imps[c := Leaving(x, t, id, 1)];
    assert [] + [Unimport(s.serial, id)] == [Unimport(s.serial, id)];
  }

  lemma UnimportEnds(s: Sys, e: E.Vm, c: nat, t: nat, id: nat)
    requires c in s.imps && Imported(s.imps[c], t, id)
    ensures
      var x, n := s.imps[c], s.serial + 1;
      Does(With(s, e, c, Leaving(x, t, id, 1), [], [], n, id, Unclaimed),
           [ImpStep(c, I.Remove(t), true), ImpStep(c, I.Free(t), true)],
           With(s, e, c, Leaving(x, t, id, 3), [], [], n, id, Unclaimed))
  {
    var x, n := s.imps[c], s.serial + 1;
    Left(x, t, id);
    hide *;
    Inner(s, e, c, Leaving(x, t, id, 1), n, id, Unclaimed, I.Remove(t), Leaving(x, t, id, 2));
    Inner(s, e, c, Leaving(x, t, id, 2), n, id, Unclaimed, I.Free(t), Leaving(x, t, id, 3));
    Two(With(s, e, c, Leaving(x, t, id, 1), [], [], n, id, Unclaimed), ImpStep(c, I.Remove(t), true),
        With(s, e, c, Leaving(x, t, id, 2), [], [], n, id, Unclaimed), ImpStep(c, I.Free(t), true),
        With(s, e, c, Leaving(x, t, id, 3), [], [], n, id, Unclaimed));
  }

  /** The exporter once the mark is taken off. */
  function Unmarked(e: E.Vm, o: nat): E.Vm
    requires o in e.heap
  {
    e.(heap := e.heap[o := e.heap[o].(imported := false)])
  }

  lemma UnimportTaken(s: Sys, c: nat, x: I.Ctx, id: nat, o: nat, u: nat)
    requires Quiet(s) && id in s.exp.idr && s.exp.idr[id] == o && o in s.exp.heap && u !in s.exp.threads && E.SomeOpen(s.exp)
    ensures
      Step(With(s, s.exp, c, x, [Unimport(s.serial, id)], [], s.serial + 1, id, Unclaimed), TakeUnimport(u, true),
           With(s, Unmarked(s.exp, o), c, x, [], [], s.serial + 1, id, Unclaimed))
  {
    hide Step, E.SomeOpen;
    Unmarks(With(s, s.exp, c, x, [Unimport(s.serial, id)], [], s.serial + 1, id, Unclaimed), s.serial, id, o, u);
  }

  lemma UnimportSteps(s: Sys, c: nat, t: nat, u: nat, id: nat, o: nat)
    requires Quiet(s) && c in s.imps && Imported(s.imps[c], t, id)
    requires id in s.exp.idr && s.exp.idr[id] == o && o in s.exp.heap && u !in s.exp.threads && E.SomeOpen(s.exp)
    ensures
      Does(s, [ImpStep(c, I.BeginUnimport(t, KeyOf(id)), true), ImpStep(c, I.SendUnimport(t), true), TakeUnimport(u, true)]
              + [ImpStep(c, I.Remove(t), true), ImpStep(c, I.Free(t), true)],
           With(s, Unmarked(s.exp, o), c, Leaving(s.imps[c], t, id, 3), [], [], s.serial + 1, id, Unclaimed))
  {
    assert KeyOf(id) in s.imps[c].whse && s.imps[c].whse[KeyOf(id)] in s.imps[c].heap;
    hide *;
    var x, e := s.imps[c], Unmarked(s.exp, o);
    UnimportSent(s, c, t, id);
    UnimportTaken(s, c, Leaving(x, t, id, 1), id, o, u);
    UnimportEnds(s, e, c, t, id);
    Three(s, ImpStep(c, I.BeginUnimport(t, KeyOf(id)), true), s.(imps := s.imps[c := A.Begun(x, t, KeyOf(id))]),
          ImpStep(c, I.SendUnimport(t), true),
          With(s, s.exp, c, Leaving(x, t, id, 1), [Unimport(s.serial, id)], [], s.serial + 1, id, Unclaimed),
          TakeUnimport(u, true), With(s, e, c, Leaving(x, t, id, 1), [], [], s.serial + 1, id, Unclaimed),
          [ImpStep(c, I.Remove(t), true), ImpStep(c, I.Free(t), true)],
          With(s, e, c, Leaving(x, t, id, 3), [], [], s.serial + 1, id, Unclaimed));
  }

  /** Unimport across the machines: the warehouse lets go of the descriptor, and the exporter's mark is taken off. */
  lemma {:induction false} UnimportAcross(s: Sys, c: nat, t: nat, u: nat, id: nat, o: nat)
    requires s.toExp == [] && s.toImp == [] && c in s.imps && Imported(s.imps[c], t, id)
    requires id in s.exp.idr && s.exp.idr[id] == o && o in s.exp.heap && u !in s.exp.threads && E.SomeOpen(s.exp)
    ensures
      var x, key := s.imps[c], KeyOf(id);
      Does(s, [ImpStep(c, I.BeginUnimport(t, key), true), ImpStep(c, I.SendUnimport(t), true), TakeUnimport(u, true)]
              + [ImpStep(c, I.Remove(t), true), ImpStep(c, I.Free(t), true)],
           s.(exp := s.exp.(heap := s.exp.heap[o := s.exp.heap[o].(imported := false)]), serial := s.serial + 1,
              imps := s.imps[c := x.(whse := x.whse - {key}, heap := x.heap - {x.whse[key]}, total := x.total - 1)],
              claim := s.claim[id := Unclaimed]))
  {
    Left(s.imps[c], t, id);
    assert Quiet(s) && KeyOf(id) in s.imps[c].whse;
    UnimportOutcome(s, c, Leaving(s.imps[c], t, id, 3), id, o);
    hide *;
    UnimportSteps(s, c, t, u, id, o);
  }

  lemma UnimportOutcome(s: Sys, c: nat, x: I.Ctx, id: nat, o: nat)
    requires Quiet(s) && o in s.exp.heap
    ensures
      With(s, Unmarked(s.exp, o), c, x, [], [], s.serial + 1, id, Unclaimed)
      == s.(exp := s.exp.(heap := s.exp.heap[o := s.exp.heap[o].(imported := false)]), serial := s.serial + 1,
            imps := s.imps[c := x],
            claim := s.claim[id := Unclaimed])
  {
  }

  // ---------------------------------------------------------------- refused

  lemma RefusedSent(s: Sys, c: nat, t: nat, u: nat, desc: I.Desc, pages: nat, ectx: nat, l: nat, r: nat)
    requires Quiet(s) && c in s.imps && A.Ready(s.imps[c], t, u, desc, l, r) && desc.key == KeyOf(desc.key.exportId)
    requires NotOffered(s.exp, desc.key.exportId, pages, ectx)
    ensures
      var id, x0 := desc.key.exportId, A.Refused(s.imps[c], t, u, desc, l, r, 0);
      var s1 := With(s, s.exp, c, x0, [Import(s.serial, id, pages, ectx, c, l, r)], [], s.serial + 1, id, Requested(s.serial));
      && Step(s, SendImport(c, t, id, pages, ectx, l, r), s1)
      && Step(s1, TakeImport(true), With(s, s.exp, c, x0, [], [AckFail(s.serial + 1, id, c, l, r)], s.serial + 2, id, Unclaimed))
  {
    var id, x0 := desc.key.exportId, A.Refused(s.imps[c], t, u, desc, l, r, 0);
    var s1 := With(s, s.exp, c, x0, [Import(s.serial, id, pages, ectx, c, l, r)], [], s.serial + 1, id, Requested(s.serial));
    A.Starts(s.imps[c], t, u, desc, l, r);
    hide A.Step, Step, A.Refused, A.Ready, NotOffered;
    Requests(s, c, t, id, pages, ectx, l, r, x0);
    Refuses(s1, s.serial, id, pages, ectx, c, l, r);
    assert s.claim[id := Requested(s.serial)][id := Unclaimed] == s.claim[id := Unclaimed];
  }

  lemma RefusedDelivered(s: Sys, c: nat, t: nat, u: nat, desc: I.Desc, l: nat, r: nat)
    requires c in s.imps && A.Ready(s.imps[c], t, u, desc, l, r) && desc.key == KeyOf(desc.key.exportId)
    ensures
      var id, x, n := desc.key.exportId, s.imps[c], s.serial + 2;
      var x0, x1 := A.Refused(x, t, u, desc, l, r, 0), A.Refused(x, t, u, desc, l, r, 1);
      Step(With(s, s.exp, c, x0, [], [AckFail(s.serial + 1, id, c, l, r)], n, id, Unclaimed), TakeAckFail(u),
           With(s, s.exp, c, x1, [], [], n, id, Unclaimed))
  {
    var id, x, n := desc.key.exportId, s.imps[c], s.serial + 2;
    var x0, x1 := A.Refused(x, t, u, desc, l, r, 0), A.Refused(x, t, u, desc, l, r, 1);
    A.Fails(x, t, u, desc, l, r);
    hide A.Step, Step, A.Refused, A.Ready;
    DeliversNo(With(s, s.exp, c, x0, [], [AckFail(s.serial + 1, id, c, l, r)], n, id, Unclaimed), s.serial + 1, id, c, l, r, u, x1);
    assert s.imps[c := x0][c := x1] == s.imps[c := x1];
  }

  lemma RefusedEnds(s: Sys, c: nat, t: nat, u: nat, desc: I.Desc, l: nat, r: nat)
    requires c in s.imps && A.Ready(s.imps[c], t, u, desc, l, r)
    ensures
      var id, x, n := desc.key.exportId, s.imps[c], s.serial + 2;
      Does(With(s, s.exp, c, A.Refused(x, t, u, desc, l, r, 1), [], [], n, id, Unclaimed),
           [ImpStep(c, I.Post(u, false), true), ImpStep(c, I.TakeAck(t, |x.acks|, false), true)],
             With(s, s.exp, c, x, [], [], n, id, Unclaimed))
  {
    var id, x, n := desc.key.exportId, s.imps[c], s.serial + 2;
    var x1, x2 := A.Refused(x, t, u, desc, l, r, 1), A.Refused(x, t, u, desc, l, r, 2);
    A.Fails(x, t, u, desc, l, r);
    A.TakesNo(x, t, u, desc, l, r);
    OneStep(x2, I.TakeAck(t, |x.acks|, false), x);
    hide *;
    Inner(s, s.exp, c, x1, n, id, Unclaimed, I.Post(u, false), x2);
    Inner(s, s.exp, c, x2, n, id, Unclaimed, I.TakeAck(t, |x.acks|, false), x);
    Two(With(s, s.exp, c, x1, [], [], n, id, Unclaimed), ImpStep(c, I.Post(u, false), true),
        With(s, s.exp, c, x2, [], [], n, id, Unclaimed), ImpStep(c, I.TakeAck(t, |x.acks|, false), true),
        With(s, s.exp, c, x, [], [], n, id, Unclaimed));
  }

  lemma OneStep(x: I.Ctx, i: I.Act, x': I.Ctx)
    requires A.Does(x, [i], [], x')
    ensures A.Step(x, i, None, x')
  {
    hide I.Do, I.Enabled, I.Unimports;
    assert [i][1..] == [];
  }

  lemma RefusedSteps(s: Sys, c: nat, t: nat, u: nat, desc: I.Desc, pages: nat, ectx: nat, l: nat, r: nat)
    requires Quiet(s) && c in s.imps && A.Ready(s.imps[c], t, u, desc, l, r) && desc.key == KeyOf(desc.key.exportId)
    requires NotOffered(s.exp, desc.key.exportId, pages, ectx)
    ensures
      var id, x := desc.key.exportId, s.imps[c];
      Does(s, [SendImport(c, t, id, pages, ectx, l, r), TakeImport(true), TakeAckFail(u)]
              + [ImpStep(c, I.Post(u, false), true), ImpStep(c, I.TakeAck(t, |x.acks|, false), true)],
           With(s, s.exp, c, x, [], [], s.serial + 2, id, Unclaimed))
  {
    hide *;
    var id, x, n := desc.key.exportId, s.imps[c], s.serial + 2;
    var x0, x1 := A.Refused(x, t, u, desc, l, r, 0), A.Refused(x, t, u, desc, l, r, 1);
    RefusedSent(s, c, t, u, desc, pages, ectx, l, r);
    RefusedDelivered(s, c, t, u, desc, l, r);
    RefusedEnds(s, c, t, u, desc, l, r);
    Three(s, SendImport(c, t, id, pages, ectx, l, r),
          With(s, s.exp, c, x0, [Import(s.serial, id, pages, ectx, c, l, r)], [], s.serial + 1, id, Requested(s.serial)),
          TakeImport(true), With(s, s.exp, c, x0, [], [AckFail(s.serial + 1, id, c, l, r)], n, id, Unclaimed),
          TakeAckFail(u), With(s, s.exp, c, x1, [], [], n, id, Unclaimed),
          [ImpStep(c, I.Post(u, false), true), ImpStep(c, I.TakeAck(t, |x.acks|, false), true)],
            With(s, s.exp, c, x, [], [], n, id, Unclaimed));
  }

  /** An import of something that is not exported, or not in that size, or not in full, fails; neither machine is changed by it. */
  lemma {:induction false} RefusedAcross(s: Sys, c: nat, t: nat, u: nat, id: nat, o: nat, pages: nat, ectx: nat, l: nat, r: nat)
    requires s.toExp == [] && s.toImp == [] && c in s.imps && NotOffered(s.exp, id, pages, ectx)
    requires A.Ready(s.imps[c], t, u, I.Desc(KeyOf(id), o), l, r)
    ensures
      Does(s, [SendImport(c, t, id, pages, ectx, l, r), TakeImport(true), TakeAckFail(u)]
              + [ImpStep(c, I.Post(u, false), true), ImpStep(c, I.TakeAck(t, |s.imps[c].acks|, false), true)],
           s.(serial := s.serial + 2, claim := s.claim[id := Unclaimed]))
  {
    assert s.imps[c := s.imps[c]] == s.imps && KeyOf(id).exportId == id && Quiet(s);
    assert With(s, s.exp, c, s.imps[c], [], [], s.serial + 2, id, Unclaimed)
      == s.(serial := s.serial + 2, claim := s.claim[id := Unclaimed]);
    hide *;
    RefusedSteps(s, c, t, u, I.Desc(KeyOf(id), o), pages, ectx, l, r);
  }
}
