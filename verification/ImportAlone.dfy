/**
 What the importer's operations amount to when nothing interferes: each theorem follows one operation from its
 first step to its last and says in which state it ends and which UNIMPORTs it has sent.
 */
module ImportAlone {
  import opened Common
  import opened ImportSide

  const NONE: seq<Key> := []

  /** One step, and the key it sends UNIMPORT for, if any. */
  predicate Step(s: Ctx, a: Act, told: Option<Key>, s': Ctx) { Enabled(s, a) && Unimports(s, a) == told && Do(s, a) == s' }

  /** The steps are possible one after the other, lead from `s` to `s'` and send exactly these UNIMPORTs. */
  predicate Does(s: Ctx, acts: seq<Act>, told: seq<Key>, s': Ctx)
    decreases |acts|
  {
    if acts == [] then told == [] && s == s'
    else
      && Enabled(s, acts[0])
      && match Unimports(s, acts[0])
         case None => Does(Do(s, acts[0]), acts[1..], told, s')
         case Some(key) => told != [] && told[0] == key && Does(Do(s, acts[0]), acts[1..], told[1..], s')
  }

  lemma Then(s: Ctx, a: Act, s1: Ctx, acts: seq<Act>, told: seq<Key>, s2: Ctx)
    requires Step(s, a, None, s1) && Does(s1, acts, told, s2)
    ensures Does(s, [a] + acts, told, s2)
  {
    hide Do, Enabled, Unimports;
    assert ([a] + acts)[1..] == acts;
  }

  lemma Tells(s: Ctx, a: Act, key: Key, s1: Ctx, acts: seq<Act>, told: seq<Key>, s2: Ctx)
    requires Step(s, a, Some(key), s1) && Does(s1, acts, told, s2)
    ensures Does(s, [a] + acts, [key] + told, s2)
  {
    hide Do, Enabled, Unimports;
    assert ([a] + acts)[1..] == acts && ([key] + told)[1..] == told;
  }

  lemma {:induction false} Joined(s: Ctx, acts: seq<Act>, told: seq<Key>, s1: Ctx, more: seq<Act>, tell: seq<Key>, s2: Ctx)
    requires Does(s, acts, told, s1) && Does(s1, more, tell, s2)
    ensures Does(s, acts + more, told + tell, s2)
    decreases |acts|
  {
    hide Do, Enabled, Unimports;
    if acts == [] {
      assert acts + more == more && told + tell == tell;
    } else {
      var a, m := acts[0], Unimports(s, acts[0]);
      var rest := if m.None? then told else told[1..];
      Joined(Do(s, a), acts[1..], rest, s1, more, tell, s2);
      assert (acts + more)[1..] == acts[1..] + more && (acts + more)[0] == a;
      if m.Some? { assert (told + tell)[1..] == rest + tell && (told + tell)[0] == m.value; }
    }
  }

  lemma One(s: Ctx, a: Act, s1: Ctx)
    requires Step(s, a, None, s1)
    ensures Does(s, [a], [], s1)
  {
    assert Does(s1, [], [], s1);
    hide Does, Step;
    Then(s, a, s1, [], [], s1);
    assert [a] + [] == [a];
  }

  lemma Two(s: Ctx, a: Act, s1: Ctx, b: Act, s2: Ctx)
    requires Step(s, a, None, s1) && Step(s1, b, None, s2)
    ensures Does(s, [a, b], [], s2)
  {
    hide Does, Step;
    One(s1, b, s2);
    Then(s, a, s1, [b], [], s2);
    assert [a] + [b] == [a, b];
  }

  lemma Three(s: Ctx, a: Act, s1: Ctx, b: Act, s2: Ctx, c: Act, s3: Ctx, acts: seq<Act>, told: seq<Key>, s4: Ctx)
    requires Step(s, a, None, s1) && Step(s1, b, None, s2) && Step(s2, c, None, s3) && Does(s3, acts, told, s4)
    ensures Does(s, [a, b, c] + acts, told, s4)
  {
    hide Does, Step;
    Then(s2, c, s3, acts, told, s4);
    Then(s1, b, s2, [c] + acts, told, s4);
    Then(s, a, s1, [b] + ([c] + acts), told, s4);
    assert [a] + ([b] + ([c] + acts)) == [a, b, c] + acts;
  }

  /** No ack is queued that this import would take. */
  predicate NoAckFor(s: Ctx, key: Key, l: nat, r: nat) {
    forall a :: a in s.acks ==> !(a.key == key && a.vcLocal == l && a.vcRemote == r)
  }

  // ---------------------------------------------------------------- unimport

  /** The states of an unimport of the node `h`, after `n` steps. */
  function Unimporting(s: Ctx, t: nat, h: nat, n: nat): Ctx
    requires h in s.heap
  {
    var node, key := s.heap[h], s.heap[h].desc.key;
    var told := if s.proto == 1 then s.heap[h := node.(sent := true)] else s.heap;
    match n
    case 0 => s
    case 1 => s.(heap := told, threads := s.threads[t := Removing(h)])
    case 2 => s.(heap := told, threads := s.threads[t := Freeing(h)], whse := s.whse - {key}, total := s.total - 1)
    case _ => s.(heap := s.heap - {h}, threads := s.threads - {t}, whse := s.whse - {key}, total := s.total - 1)
  }

  /** UNIMPORT is due. */
  predicate Due(s: Ctx, t: nat, h: nat) {
    && t in s.threads && (s.threads[t] == Unmapping(h) || (s.threads[t] == RollingBack(h) && s.proto == 1))
    && h in s.heap && s.heap[h].desc.key in s.whse && s.whse[s.heap[h].desc.key] == h
  }

  lemma Sends(s: Ctx, t: nat, h: nat)
    requires Due(s, t, h)
    ensures s.proto == 1 ==> Step(s, SendUnimport(t), Some(s.heap[h].desc.key), Unimporting(s, t, h, 1))
    ensures s.proto != 1 ==> Step(s, SkipSend(t), None, Unimporting(s, t, h, 1))
  {
    hide DoImport, CanImport, DoReceive, CanReceive, DoDrain, CanDrain;
  }

  lemma Removes(s: Ctx, t: nat, h: nat)
    requires Due(s, t, h)
    ensures Step(Unimporting(s, t, h, 1), Remove(t), None, Unimporting(s, t, h, 2))
  {
    hide DoImport, CanImport, DoReceive, CanReceive, DoDrain, CanDrain;
    assert s.threads[t := Removing(h)][t := Freeing(h)] == s.threads[t := Freeing(h)];
  }

  lemma Frees(s: Ctx, t: nat, h: nat)
    requires Due(s, t, h)
    ensures Step(Unimporting(s, t, h, 2), Free(t), None, Unimporting(s, t, h, 3))
  {
    hide DoImport, CanImport, DoReceive, CanReceive, DoDrain, CanDrain;
    assert s.threads[t := Freeing(h)] - {t} == s.threads - {t};
    assert s.heap[h := s.heap[h].(sent := true)] - {h} == s.heap - {h};
  }

  /** From where UNIMPORT is due to the end: it is sent in protocol 1, and the node is out of the tree and freed. */
  lemma LetsGo(s: Ctx, t: nat, h: nat)
    requires Due(s, t, h)
    ensures
      var key := s.heap[h].desc.key;
      Does(s, [if s.proto == 1 then SendUnimport(t) else SkipSend(t), Remove(t), Free(t)], if s.proto == 1 then [key] else [],
           s.(whse := s.whse - {key}, heap := s.heap - {h}, total := s.total - 1, threads := s.threads - {t}))
  {
    hide Do, Enabled, Unimports;
    var s1, s2, s3 := Unimporting(s, t, h, 1), Unimporting(s, t, h, 2), Unimporting(s, t, h, 3);
    var key := s.heap[h].desc.key;
    assert s3 == s.(whse := s.whse - {key}, heap := s.heap - {h}, total := s.total - 1, threads := s.threads - {t});
    Sends(s, t, h);
    Removes(s, t, h);
    Frees(s, t, h);
    hide Step, Unimporting, Does, Due;
    Two(s1, Remove(t), s2, Free(t), s3);
    if s.proto == 1 {
      Tells(s, SendUnimport(t), key, s1, [Remove(t), Free(t)], NONE, s3);
      assert [SendUnimport(t)] + [Remove(t), Free(t)] == [SendUnimport(t), Remove(t), Free(t)] && [key] + NONE == [key];
    } else {
      Then(s, SkipSend(t), s1, [Remove(t), Free(t)], NONE, s3);
      assert [SkipSend(t)] + [Remove(t), Free(t)] == [SkipSend(t), Remove(t), Free(t)];
    }
  }

  /** An unimport has found its node. */
  function Begun(s: Ctx, t: nat, key: Key): Ctx
    requires key in s.whse && s.whse[key] in s.heap
  {
    var h := s.whse[key];
    s.(heap := s.heap[h := s.heap[h].(st := NodeState.Unimporting, owner := Thread(t))], threads := s.threads[t := Unmapping(h)])
  }

  lemma Begins(s: Ctx, t: nat, key: Key)
    requires s.drain == Live && t !in s.threads && key in s.whse && s.whse[key] in s.heap && s.heap[s.whse[key]].st == Imported
    ensures Step(s, BeginUnimport(t, key), None, Begun(s, t, key))
  {
    hide DoImport, CanImport, DoReceive, CanReceive, DoDrain, CanDrain;
  }

  /** Unimport of an imported key takes it out of the warehouse, frees it and, in protocol 1, tells the exporter. */
  lemma {:induction false} UnimportAlone(s: Ctx, t: nat, key: Key)
    requires s.drain == Live && t !in s.threads && key in s.whse
    requires s.whse[key] in s.heap && s.heap[s.whse[key]].desc.key == key && s.heap[s.whse[key]].st == Imported
    ensures
      Does(s, [BeginUnimport(t, key), if s.proto == 1 then SendUnimport(t) else SkipSend(t), Remove(t), Free(t)],
           if s.proto == 1 then [key] else [], s.(whse := s.whse - {key}, heap := s.heap - {s.whse[key]}, total := s.total - 1))
  {
    var h, s1 := s.whse[key], Begun(s, t, key);
    var a := if s.proto == 1 then SendUnimport(t) else SkipSend(t);
    var s4 := s.(whse := s.whse - {key}, heap := s.heap - {h}, total := s.total - 1);
    assert s1.heap - {h} == s.heap - {h} && s1.threads - {t} == s.threads;
    assert s1.(whse := s1.whse - {key}, heap := s1.heap - {h}, total := s1.total - 1, threads := s1.threads - {t}) == s4;
    Begins(s, t, key);
    LetsGo(s1, t, h);
    hide Step, Does;
    Then(s, BeginUnimport(t, key), s1, [a, Remove(t), Free(t)], if s.proto == 1 then [key] else [], s4);
    assert [BeginUnimport(t, key)] + [a, Remove(t), Free(t)] == [BeginUnimport(t, key), a, Remove(t), Free(t)];
  }

  lemma StaysMapped(s: Ctx, t: nat, key: Key)
    requires t !in s.threads && key in s.whse && s.whse[key] in s.heap
    requires s.heap[s.whse[key]].st == Imported && s.heap[s.whse[key]].owner == Nobody
    ensures Step(Begun(s, t, key), UnmapFailed(t), None, s)
  {
    hide DoImport, CanImport, DoReceive, CanReceive, DoDrain, CanDrain;
    var h, s1 := s.whse[key], Begun(s, t, key);
    assert s1.threads - {t} == s.threads && s1.heap[h := s1.heap[h].(st := Imported, owner := Nobody)] == s.heap;
  }

  lemma NotFound(s: Ctx, t: nat, key: Key)
    requires s.drain == Live && t !in s.threads && (key !in s.whse || (s.whse[key] in s.heap && s.heap[s.whse[key]].st != Imported))
    ensures Step(s, BeginUnimport(t, key), None, s)
  {
    hide DoImport, CanImport, DoReceive, CanReceive, DoDrain, CanDrain;
  }

  /** An unimport whose unmapping fails, or whose key is not imported, changes nothing. */
  lemma {:induction false} UnimportFails(s: Ctx, t: nat, key: Key)
    requires s.drain == Live && t !in s.threads && (key in s.whse ==> s.whse[key] in s.heap)
    ensures key in s.whse && s.heap[s.whse[key]].st == Imported && s.heap[s.whse[key]].owner == Nobody ==>
      Does(s, [BeginUnimport(t, key), UnmapFailed(t)], [], s)
    ensures key !in s.whse || s.heap[s.whse[key]].st != Imported ==> Does(s, [BeginUnimport(t, key)], [], s)
  {
    hide Does, Step;
    if key in s.whse && s.heap[s.whse[key]].st == Imported {
      if s.heap[s.whse[key]].owner == Nobody {
        Begins(s, t, key);
        StaysMapped(s, t, key);
        Two(s, BeginUnimport(t, key), Begun(s, t, key), UnmapFailed(t), s);
      }
    } else {
      NotFound(s, t, key);
      One(s, BeginUnimport(t, key), s);
    }
  }

  // ---------------------------------------------------------------- import

  /** The states of an import by thread `t` whose descriptor thread `u` receives, after `n` steps. */
  function Stage(s: Ctx, t: nat, u: nat, desc: Desc, l: nat, r: nat, n: nat): Ctx {
    var h, ack, waits := s.next, Ack(desc.key, l, r, Some(s.next)), s.threads[t := Waiting(desc.key, l, r)];
    var got := s.(whse := s.whse[desc.key := h], next := h + 1, total := s.total + 1);
    match n
    case 0 => s
    case 1 => s.(threads := waits)
    case 2 => got.(heap := s.heap[h := Node(desc, Init, false, Thread(u))], threads := waits[u := Posting(ack)])
    case 3 => got.(heap := s.heap[h := Node(desc, Init, false, Queue)], threads := waits, acks := s.acks + [ack])
    case 4 => got.(heap := s.heap[h := Node(desc, Init, false, Thread(t))], threads := s.threads[t := Looking(desc.key, Some(h))])
    case 5 => got.(heap := s.heap[h := Node(desc, Importing, false, Thread(t))], threads := s.threads[t := Mapping(h)])
    case 6 => got.(heap := s.heap[h := Node(desc, Init, false, Thread(t))], threads := s.threads[t := RollingBack(h)])
    case _ => got.(heap := s.heap[h := Node(desc, Imported, false, Nobody)])
  }

  /** An import may start, and a descriptor be received. */
  predicate Ready(s: Ctx, t: nat, u: nat, desc: Desc, l: nat, r: nat) {
    && s.drain == Live && s.proto == 1 && t != u && t !in s.threads && u !in s.threads && NoAckFor(s, desc.key, l, r)
  }

  lemma Waits(s: Ctx, t: nat, u: nat, desc: Desc, l: nat, r: nat)
    requires s.drain == Live && s.proto == 1 && t !in s.threads
    ensures Step(s, SendImport(t, desc.key, l, r), None, Stage(s, t, u, desc, l, r, 1))
  {
    hide DoUnimport, CanUnimport, DoReceive, CanReceive, DoDrain, CanDrain;
  }

  lemma Receives(s: Ctx, t: nat, u: nat, desc: Desc, l: nat, r: nat)
    requires Ready(s, t, u, desc, l, r) && desc.key !in s.whse
    ensures Step(Stage(s, t, u, desc, l, r, 1), Receive(u, desc, l, r, Valid), None, Stage(s, t, u, desc, l, r, 2))
  {
    hide DoImport, CanImport, DoUnimport, CanUnimport, DoDrain, CanDrain, NoAckFor;
  }

  lemma Posts(s: Ctx, t: nat, u: nat, desc: Desc, l: nat, r: nat)
    requires Ready(s, t, u, desc, l, r)
    ensures Step(Stage(s, t, u, desc, l, r, 2), Post(u, false), None, Stage(s, t, u, desc, l, r, 3))
  {
    hide DoImport, CanImport, DoUnimport, CanUnimport, DoDrain, CanDrain, NoAckFor;
    var h, waits, ack := s.next, s.threads[t := Waiting(desc.key, l, r)], Ack(desc.key, l, r, Some(s.next));
    assert waits[u := Posting(ack)] - {u} == waits;
    assert s.heap[h := Node(desc, Init, false, Thread(u))][h := Node(desc, Init, false, Queue)]
      == s.heap[h := Node(desc, Init, false, Queue)];
  }

  /** The ack just queued is the first one that fits. */
  lemma FirstFit(s: Ctx, ack: Ack)
    requires NoAckFor(s, ack.key, ack.vcLocal, ack.vcRemote)
    ensures
      var q := s.acks + [ack];
      var w := Waiting(ack.key, ack.vcLocal, ack.vcRemote);
      Matches(q[|s.acks|], w) && Without(q, |s.acks|) == s.acks && forall j :: 0 <= j < |s.acks| ==> !Matches(q[j], w)
  {
    forall j | 0 <= j < |s.acks| ensures !Matches((s.acks + [ack])[j], Waiting(ack.key, ack.vcLocal, ack.vcRemote)) {
      assert s.acks[j] in s.acks;
    }
  }

  lemma Takes(s: Ctx, t: nat, u: nat, desc: Desc, l: nat, r: nat)
    requires Ready(s, t, u, desc, l, r)
    ensures Step(Stage(s, t, u, desc, l, r, 3), TakeAck(t, |s.acks|, false), None, Stage(s, t, u, desc, l, r, 4))
  {
    hide DoUnimport, CanUnimport, DoReceive, CanReceive, DoDrain, CanDrain;
    var h := s.next;
    FirstFit(s, Ack(desc.key, l, r, Some(h)));
    hide NoAckFor, Without, Matches;
    assert s.threads[t := Waiting(desc.key, l, r)][t := Looking(desc.key, Some(h))] == s.threads[t := Looking(desc.key, Some(h))];
    assert s.heap[h := Node(desc, Init, false, Queue)][h := Node(desc, Init, false, Thread(t))]
      == s.heap[h := Node(desc, Init, false, Thread(t))];
  }

  lemma Finds(s: Ctx, t: nat, u: nat, desc: Desc, l: nat, r: nat)
    ensures Step(Stage(s, t, u, desc, l, r, 4), Lookup(t), None, Stage(s, t, u, desc, l, r, 5))
  {
    hide DoUnimport, CanUnimport, DoReceive, CanReceive, DoDrain, CanDrain;
    var h := s.next;
    assert s.threads[t := Looking(desc.key, Some(h))][t := Mapping(h)] == s.threads[t := Mapping(h)];
    assert s.heap[h := Node(desc, Init, false, Thread(t))][h := Node(desc, Importing, false, Thread(t))]
        == s.heap[h := Node(desc, Importing, false, Thread(t))];
  }

  lemma Maps(s: Ctx, t: nat, u: nat, desc: Desc, l: nat, r: nat)
    requires s.proto == 1 && t !in s.threads
    ensures Step(Stage(s, t, u, desc, l, r, 5), MapDone(t, true), None, Stage(s, t, u, desc, l, r, 7))
    ensures Step(Stage(s, t, u, desc, l, r, 5), MapDone(t, false), None, Stage(s, t, u, desc, l, r, 6))
  {
    hide DoUnimport, CanUnimport, DoReceive, CanReceive, DoDrain, CanDrain;
    var h := s.next;
    var heap := s.heap[h := Node(desc, Importing, false, Thread(t))];
    assert s.threads[t := Mapping(h)] - {t} == s.threads;
    assert s.threads[t := Mapping(h)][t := RollingBack(h)] == s.threads[t := RollingBack(h)];
    assert heap[h := Node(desc, Init, false, Thread(t))] == s.heap[h := Node(desc, Init, false, Thread(t))];
    assert heap[h := Node(desc, Imported, false, Nobody)] == s.heap[h := Node(desc, Imported, false, Nobody)];
  }

  /** The steps of an import up to the search. */
  function Search(s: Ctx, t: nat, u: nat, desc: Desc, l: nat, r: nat): seq<Act> {
    [SendImport(t, desc.key, l, r), Receive(u, desc, l, r, Valid), Post(u, false), TakeAck(t, |s.acks|, false), Lookup(t)]
  }

  lemma Received(s: Ctx, t: nat, u: nat, desc: Desc, l: nat, r: nat)
    requires Ready(s, t, u, desc, l, r) && desc.key !in s.whse
    ensures Does(s, Search(s, t, u, desc, l, r), [], Stage(s, t, u, desc, l, r, 5))
  {
    var a1, a2, a3, a4, a5 :=
      SendImport(t, desc.key, l, r), Receive(u, desc, l, r, Valid), Post(u, false), TakeAck(t, |s.acks|, false), Lookup(t);
    var s1, s2, s3, s4, s5 := Stage(s, t, u, desc, l, r, 1), Stage(s, t, u, desc, l, r, 2), Stage(s, t, u, desc, l, r, 3),
                              Stage(s, t, u, desc, l, r, 4), Stage(s, t, u, desc, l, r, 5);
    hide Stage, Step, Does;
    Waits(s, t, u, desc, l, r);
    Receives(s, t, u, desc, l, r);
    Posts(s, t, u, desc, l, r);
    Takes(s, t, u, desc, l, r);
    Finds(s, t, u, desc, l, r);
    assert [a1, a2, a3] + [a4, a5] == Search(s, t, u, desc, l, r);
    hide *;
    Two(s3, a4, s4, a5, s5);
    Three(s, a1, s1, a2, s2, a3, s3, [a4, a5], NONE, s5);
  }

  /** Import: the descriptor ends up in the warehouse, IMPORTED and nobody's; nothing else is left of it. */
  lemma {:induction false} ImportAlone(s: Ctx, t: nat, u: nat, desc: Desc, l: nat, r: nat)
    requires s.drain == Live && s.proto == 1 && t != u && t !in s.threads && u !in s.threads && NoAckFor(s, desc.key, l, r)
    requires desc.key !in s.whse
    ensures
      Does(s, Search(s, t, u, desc, l, r) + [MapDone(t, true)], [],
           s.(whse := s.whse[desc.key := s.next], heap := s.heap[s.next := Node(desc, Imported, false, Nobody)],
              next := s.next + 1, total := s.total + 1))
  {
    var s5, s6 := Stage(s, t, u, desc, l, r, 5), Stage(s, t, u, desc, l, r, 7);
    assert s6 == s.(whse := s.whse[desc.key := s.next], heap := s.heap[s.next := Node(desc, Imported, false, Nobody)],
                    next := s.next + 1, total := s.total + 1);
    Received(s, t, u, desc, l, r);
    Maps(s, t, u, desc, l, r);
    hide Step, Does, Stage;
    One(s5, MapDone(t, true), s6);
    Joined(s, Search(s, t, u, desc, l, r), [], s5, [MapDone(t, true)], [], s6);
    assert NONE + NONE == NONE;
  }

  /** If the mapping fails the import is undone: the warehouse is as before, and the exporter is told once. */
  lemma {:induction false} MappingFails(s: Ctx, t: nat, u: nat, desc: Desc, l: nat, r: nat)
    requires s.drain == Live && s.proto == 1 && t != u && t !in s.threads && u !in s.threads && NoAckFor(s, desc.key, l, r)
    requires desc.key !in s.whse && s.next !in s.heap
    ensures
      Does(s, Search(s, t, u, desc, l, r) + [MapDone(t, false), SendUnimport(t), Remove(t), Free(t)], [desc.key],
           s.(next := s.next + 1))
  {
    var h, s5, s6, s9 := s.next, Stage(s, t, u, desc, l, r, 5), Stage(s, t, u, desc, l, r, 6), s.(next := s.next + 1);
    Received(s, t, u, desc, l, r);
    Maps(s, t, u, desc, l, r);
    RolledBack(s, t, u, desc, l, r);
    hide Step, Does, Stage;
    Then(s5, MapDone(t, false), s6, [SendUnimport(t), Remove(t), Free(t)], [desc.key], s9);
    assert [MapDone(t, false)] + [SendUnimport(t), Remove(t), Free(t)] == [MapDone(t, false), SendUnimport(t), Remove(t), Free(t)];
    Joined(s, Search(s, t, u, desc, l, r), [], s5, [MapDone(t, false), SendUnimport(t), Remove(t), Free(t)], [desc.key], s9);
    assert [] + [desc.key] == [desc.key];
  }

  lemma RolledBack(s: Ctx, t: nat, u: nat, desc: Desc, l: nat, r: nat)
    requires s.proto == 1 && t !in s.threads && desc.key !in s.whse && s.next !in s.heap
    ensures Does(Stage(s, t, u, desc, l, r, 6), [SendUnimport(t), Remove(t), Free(t)], [desc.key], s.(next := s.next + 1))
  {
    var h, s6, s9 := s.next, Stage(s, t, u, desc, l, r, 6), s.(next := s.next + 1);
    assert s6.whse - {desc.key} == s.whse && s6.heap - {h} == s.heap && s6.threads - {t} == s.threads;
    assert s6.(whse := s6.whse - {desc.key}, heap := s6.heap - {h}, total := s6.total - 1, threads := s6.threads - {t}) == s9;
    hide Does;
    LetsGo(s6, t, h);
  }

  // ---------------------------------------------------------------- imports that fail

  /** The states of an import that is refused, after `n` steps. */
  function Refused(s: Ctx, t: nat, u: nat, desc: Desc, l: nat, r: nat, n: nat): Ctx {
    var waits, ack := s.threads[t := Waiting(desc.key, l, r)], Ack(desc.key, l, r, None);
    match n
    case 0 => s.(threads := waits)
    case 1 => s.(threads := waits[u := Posting(ack)])
    case 2 => s.(threads := waits, acks := s.acks + [ack])
    case 3 => s.(threads := waits[u := Rejecting(desc, l, r)])
    case _ => s.(threads := waits[u := Refusing(desc)], acks := s.acks + [ack])
  }

  lemma Starts(s: Ctx, t: nat, u: nat, desc: Desc, l: nat, r: nat)
    requires s.drain == Live && s.proto == 1 && t !in s.threads
    ensures Step(s, SendImport(t, desc.key, l, r), None, Refused(s, t, u, desc, l, r, 0))
  {
    hide DoUnimport, CanUnimport, DoReceive, CanReceive, DoDrain, CanDrain;
  }

  lemma Fails(s: Ctx, t: nat, u: nat, desc: Desc, l: nat, r: nat)
    requires Ready(s, t, u, desc, l, r)
    ensures Step(Refused(s, t, u, desc, l, r, 0), ReceiveFail(u, desc.key, l, r), None, Refused(s, t, u, desc, l, r, 1))
    ensures desc.key in s.whse ==>
      Step(Refused(s, t, u, desc, l, r, 0), Receive(u, desc, l, r, Valid), None, Refused(s, t, u, desc, l, r, 1))
    ensures Step(Refused(s, t, u, desc, l, r, 1), Post(u, false), None, Refused(s, t, u, desc, l, r, 2))
  {
    hide DoImport, CanImport, DoUnimport, CanUnimport, DoDrain, CanDrain, NoAckFor;
    var waits := s.threads[t := Waiting(desc.key, l, r)];
    assert waits[u := Posting(Ack(desc.key, l, r, None))] - {u} == waits;
  }

  lemma Rejects(s: Ctx, t: nat, u: nat, desc: Desc, l: nat, r: nat)
    requires Ready(s, t, u, desc, l, r)
    ensures Step(Refused(s, t, u, desc, l, r, 0), Receive(u, desc, l, r, Invalid), None, Refused(s, t, u, desc, l, r, 3))
    ensures Step(Refused(s, t, u, desc, l, r, 3), Post(u, false), None, Refused(s, t, u, desc, l, r, 4))
  {
    hide DoImport, CanImport, DoUnimport, CanUnimport, DoDrain, CanDrain, NoAckFor;
    var waits: map<nat, Pc> := s.threads[t := Waiting(desc.key, l, r)];
    assert waits[u := Rejecting(desc, l, r)][u := Refusing(desc)] == waits[u := Refusing(desc)];
  }

  lemma SendsBack(s: Ctx, t: nat, u: nat, desc: Desc, l: nat, r: nat)
    requires Ready(s, t, u, desc, l, r)
    ensures Step(Refused(s, t, u, desc, l, r, 4), RejectSend(u), Some(desc.key), Refused(s, t, u, desc, l, r, 2))
  {
    hide DoImport, CanImport, DoUnimport, CanUnimport, DoDrain, CanDrain, NoAckFor;
    var waits := s.threads[t := Waiting(desc.key, l, r)];
    assert waits[u := Refusing(desc)] - {u} == waits;
  }

  lemma TakesNo(s: Ctx, t: nat, u: nat, desc: Desc, l: nat, r: nat)
    requires Ready(s, t, u, desc, l, r)
    ensures Does(Refused(s, t, u, desc, l, r, 2), [TakeAck(t, |s.acks|, false)], [], s)
  {
    hide DoUnimport, CanUnimport, DoReceive, CanReceive, DoDrain, CanDrain, Does;
    FirstFit(s, Ack(desc.key, l, r, None));
    hide NoAckFor, Without, Matches;
    assert s.threads[t := Waiting(desc.key, l, r)] - {t} == s.threads;
    assert Step(Refused(s, t, u, desc, l, r, 2), TakeAck(t, |s.acks|, false), None, s);
    hide Step, Refused;
    One(Refused(s, t, u, desc, l, r, 2), TakeAck(t, |s.acks|, false), s);
  }

  /** The exporter refuses the import, or the descriptor's key is taken: the import fails and leaves nothing behind. */
  lemma {:induction false} RefusedAlone(s: Ctx, t: nat, u: nat, desc: Desc, l: nat, r: nat)
    requires s.drain == Live && s.proto == 1 && t != u && t !in s.threads && u !in s.threads && NoAckFor(s, desc.key, l, r)
    ensures Does(s, [SendImport(t, desc.key, l, r), ReceiveFail(u, desc.key, l, r), Post(u, false),
                     TakeAck(t, |s.acks|, false)], [], s)
    ensures desc.key in s.whse ==>
      Does(s, [SendImport(t, desc.key, l, r), Receive(u, desc, l, r, Valid), Post(u, false), TakeAck(t, |s.acks|, false)], [], s)
  {
    var a1, a3, a4 := SendImport(t, desc.key, l, r), Post(u, false), TakeAck(t, |s.acks|, false);
    var s1, s2, s3 := Refused(s, t, u, desc, l, r, 0), Refused(s, t, u, desc, l, r, 1), Refused(s, t, u, desc, l, r, 2);
    Starts(s, t, u, desc, l, r);
    Fails(s, t, u, desc, l, r);
    TakesNo(s, t, u, desc, l, r);
    hide Step, Refused, Does, NoAckFor;
    forall a2 | Step(s1, a2, None, s2) ensures Does(s, [a1, a2, a3, a4], NONE, s) {
      Three(s, a1, s1, a2, s2, a3, s3, [a4], NONE, s);
      assert [a1, a2, a3] + [a4] == [a1, a2, a3, a4];
    }
  }

  /** A descriptor that fails a check: the import fails, leaves nothing behind, and the exporter is told once. */
  lemma {:induction false} InvalidAlone(s: Ctx, t: nat, u: nat, desc: Desc, l: nat, r: nat)
    requires s.drain == Live && s.proto == 1 && t != u && t !in s.threads && u !in s.threads && NoAckFor(s, desc.key, l, r)
    ensures Does(s, [SendImport(t, desc.key, l, r), Receive(u, desc, l, r, Invalid), Post(u, false), RejectSend(u),
                     TakeAck(t, |s.acks|, false)],
                 [desc.key], s)
  {
    var a1, a2, a3, a4, a5 :=
      SendImport(t, desc.key, l, r), Receive(u, desc, l, r, Invalid), Post(u, false), RejectSend(u), TakeAck(t, |s.acks|, false);
    var s1, s2, s3, s4 := Refused(s, t, u, desc, l, r, 0), Refused(s, t, u, desc, l, r, 3), Refused(s, t, u, desc, l, r, 4),
                          Refused(s, t, u, desc, l, r, 2);
    Starts(s, t, u, desc, l, r);
    Rejects(s, t, u, desc, l, r);
    SendsBack(s, t, u, desc, l, r);
    TakesNo(s, t, u, desc, l, r);
    hide Step, Refused, Does, NoAckFor;
    Tells(s3, a4, desc.key, s4, [a5], NONE, s);
    assert [a4] + [a5] == [a4, a5] && [desc.key] + NONE == [desc.key];
    Three(s, a1, s1, a2, s2, a3, s3, [a4, a5], [desc.key], s);
    assert [a1, a2, a3] + [a4, a5] == [a1, a2, a3, a4, a5];
  }

  /** An import that is interrupted while it waits leaves nothing behind. */
  lemma {:induction false} InterruptedAlone(s: Ctx, t: nat, key: Key, l: nat, r: nat)
    requires s.drain == Live && s.proto == 1 && t !in s.threads
    ensures Does(s, [SendImport(t, key, l, r), GiveUp(t)], [], s)
  {
    var s1 := s.(threads := s.threads[t := Waiting(key, l, r)]);
    assert s1.threads - {t} == s.threads;
    assert Step(s, SendImport(t, key, l, r), None, s1) && Step(s1, GiveUp(t), None, s) by {
      hide DoUnimport, CanUnimport, DoReceive, CanReceive, DoDrain, CanDrain;
    }
    hide Does, Step;
    Two(s, SendImport(t, key, l, r), s1, GiveUp(t), s);
  }

  /** Which ack a waiting import takes: the oldest one of its key and of both ends of its virtual channel. */
  lemma {:induction false} WaitExactly(s: Ctx, t: nat, i: nat, closed: bool)
    requires t in s.threads && s.threads[t].Waiting?
    ensures
      var w := s.threads[t];
      Enabled(s, TakeAck(t, i, closed)) <==>
        && i < |s.acks| && s.acks[i].key == w.key && s.acks[i].vcLocal == w.vcLocal && s.acks[i].vcRemote == w.vcRemote
        && forall j :: 0 <= j < i ==>
             !(s.acks[j].key == w.key && s.acks[j].vcLocal == w.vcLocal && s.acks[j].vcRemote == w.vcRemote)
  {
    hide CanUnimport, CanReceive, CanDrain;
  }

  /** Any ack may age out; the node of a positive one then stays in the warehouse, in INIT, and nobody will import it. */
  lemma {:induction false} AgedAlone(s: Ctx, q: seq<Ack>, ack: Ack, rest: seq<Ack>)
    requires s.drain == Live && s.acks == q + [ack] + rest && (ack.token.Some? ==> ack.token.value in s.heap)
    ensures
      var heap := if ack.token.None? then s.heap else s.heap[ack.token.value := s.heap[ack.token.value].(owner := Nobody)];
      Does(s, [AgeOut(|q|)], [], s.(acks := q + rest, heap := heap))
  {
    assert s.acks[|q|] == ack && Without(s.acks, |q|) == q + rest;
    var heap := if ack.token.None? then s.heap else s.heap[ack.token.value := s.heap[ack.token.value].(owner := Nobody)];
    var s1 := s.(acks := q + rest, heap := heap);
    assert Step(s, AgeOut(|q|), None, s1) by { hide CanUnimport, DoUnimport, CanReceive, DoReceive, CanDrain, DoDrain, Without; }
    hide *;
    One(s, AgeOut(|q|), s1);
  }

  // ---------------------------------------------------------------- protocol 0

  /** The states of a protocol 0 import, after `n` steps; 5 is one that was mapped, 6 one that was not. */
  function OldStage(s: Ctx, t: nat, u: nat, desc: Desc, n: nat): Ctx {
    var h := s.next;
    var node := Node(desc, if n == 4 then Importing else if n == 5 then Imported else Init, false,
                     if n == 4 then Thread(t) else Nobody);
    s.(whse := s.whse[desc.key := h], heap := s.heap[h := node], next := h + 1, total := s.total + 1,
       threads := if n == 1 then s.threads[u := Acking(h)] else if n == 3 then s.threads[t := Looking(desc.key, None)]
                  else if n == 4 then s.threads[t := Mapping(h)] else s.threads)
  }

  lemma OldReceives(s: Ctx, t: nat, u: nat, desc: Desc, l: nat, r: nat)
    requires s.drain == Live && s.proto == 0 && u !in s.threads && desc.key !in s.whse
    ensures Step(s, Receive(u, desc, l, r, Valid), None, OldStage(s, t, u, desc, 1))
    ensures Step(OldStage(s, t, u, desc, 1), AckExport(u), None, OldStage(s, t, u, desc, 2))
  {
    hide DoImport, CanImport, DoUnimport, CanUnimport, DoDrain, CanDrain;
    assert OldStage(s, t, u, desc, 1).threads - {u} == s.threads;
  }

  lemma OldFinds(s: Ctx, t: nat, u: nat, desc: Desc)
    requires s.drain == Live && s.proto == 0 && t !in s.threads
    ensures Step(OldStage(s, t, u, desc, 2), StartOld(t, desc.key), None, OldStage(s, t, u, desc, 3))
    ensures Step(OldStage(s, t, u, desc, 3), Lookup(t), None, OldStage(s, t, u, desc, 4))
  {
    hide DoUnimport, CanUnimport, DoReceive, CanReceive, DoDrain, CanDrain;
    var h, s3, s4 := s.next, OldStage(s, t, u, desc, 3), OldStage(s, t, u, desc, 4);
    assert s3.threads[t := Mapping(h)] == s4.threads && s3.heap[h := s4.heap[h]] == s4.heap;
  }

  lemma OldMaps(s: Ctx, t: nat, u: nat, desc: Desc, ok: bool)
    requires s.proto == 0 && t !in s.threads
    ensures Step(OldStage(s, t, u, desc, 4), MapDone(t, ok), None, OldStage(s, t, u, desc, if ok then 5 else 6))
  {
    hide DoUnimport, CanUnimport, DoReceive, CanReceive, DoDrain, CanDrain;
    var h, s4, s5 := s.next, OldStage(s, t, u, desc, 4), OldStage(s, t, u, desc, if ok then 5 else 6);
    assert s4.threads - {t} == s.threads && s4.heap[h := s5.heap[h]] == s5.heap;
  }

  lemma OldSteps(s: Ctx, t: nat, u: nat, desc: Desc, l: nat, r: nat, ok: bool, n: nat)
    requires s.drain == Live && s.proto == 0 && t !in s.threads && u !in s.threads && desc.key !in s.whse
    requires n == if ok then 5 else 6
    ensures Does(s, [Receive(u, desc, l, r, Valid), AckExport(u), StartOld(t, desc.key)] + [Lookup(t), MapDone(t, ok)], [],
                 OldStage(s, t, u, desc, n))
  {
    hide *;
    var s1, s2, s3, s4, s5 := OldStage(s, t, u, desc, 1), OldStage(s, t, u, desc, 2), OldStage(s, t, u, desc, 3),
                              OldStage(s, t, u, desc, 4), OldStage(s, t, u, desc, n);
    OldReceives(s, t, u, desc, l, r);
    OldFinds(s, t, u, desc);
    OldMaps(s, t, u, desc, ok);
    Two(s3, Lookup(t), s4, MapDone(t, ok), s5);
    Three(s, Receive(u, desc, l, r, Valid), s1, AckExport(u), s2, StartOld(t, desc.key), s3, [Lookup(t), MapDone(t, ok)], [], s5);
  }

  /**
   Protocol 0: the descriptor is received and acked first, and imported later.  If the mapping fails the node stays in
   the warehouse, in INIT again, and the exporter is not told.
   */
  lemma {:induction false} OldImportAlone(s: Ctx, t: nat, u: nat, desc: Desc, l: nat, r: nat, ok: bool)
    requires s.drain == Live && s.proto == 0 && t !in s.threads && u !in s.threads && desc.key !in s.whse
    ensures
      Does(s, [Receive(u, desc, l, r, Valid), AckExport(u), StartOld(t, desc.key)] + [Lookup(t), MapDone(t, ok)], [],
           s.(whse := s.whse[desc.key := s.next], next := s.next + 1, total := s.total + 1,
              heap := s.heap[s.next := Node(desc, if ok then Imported else Init, false, Nobody)]))
  {
    assert OldStage(s, t, u, desc, if ok then 5 else 6)
        == s.(whse := s.whse[desc.key := s.next], next := s.next + 1, total := s.total + 1,
              heap := s.heap[s.next := Node(desc, if ok then Imported else Init, false, Nobody)]);
    hide *;
    OldSteps(s, t, u, desc, l, r, ok, if ok then 5 else 6);
  }

  // ---------------------------------------------------------------- teardown

  /** Every node in the tree is on the heap and under its own key. */
  predicate Kept(s: Ctx) { forall k :: k in s.whse ==> s.whse[k] in s.heap && s.heap[s.whse[k]].desc.key == k }

  predicate Apart(keys: seq<Key>) { forall i, j :: 0 <= i < j < |keys| ==> keys[i] != keys[j] }

  /** Each node is taken out, unmapped and freed. */
  function Pops(keys: seq<Key>): seq<Act> {
    if keys == [] then [] else [Pop(keys[0]), PopSend(true)] + Pops(keys[1..])
  }

  function Handles(s: Ctx): set<nat> { set k | k in s.whse :: s.whse[k] }

  lemma PopsOne(s: Ctx, key: Key)
    requires s.drain == Draining && Kept(s) && key in s.whse
    ensures
      var h := s.whse[key];
      var s2 := s.(whse := s.whse - {key}, heap := s.heap - {h}, total := s.total - 1);
      Does(s, [Pop(key), PopSend(true)], if s.proto == 1 then [key] else [], s2)
      && Kept(s2) && s2.whse.Keys == s.whse.Keys - {key} && h !in Handles(s2) && Handles(s) == Handles(s2) + {h}
  {
    hide DoImport, CanImport, DoUnimport, CanUnimport, DoReceive, CanReceive;
    var h := s.whse[key];
    var s1 := s.(whse := s.whse - {key}, total := s.total - 1, drain := InHand(h));
    var s2 := s.(whse := s.whse - {key}, heap := s.heap - {h}, total := s.total - 1);
    assert Step(s, Pop(key), None, s1);
    assert Step(s1, PopSend(true), if s.proto == 1 then Some(key) else None, s2);
    forall k | k in s2.whse ensures s2.whse[k] != h { assert s.heap[s.whse[k]].desc.key == k; }
    assert Handles(s) == Handles(s2) + {h} by {
      forall x | x in Handles(s) ensures x in Handles(s2) + {h} {
        var k :| k in s.whse && s.whse[k] == x;
        if k != key { assert k in s2.whse && s2.whse[k] == x; }
      }
    }
    PoppedOne(s, Pop(key), s1, PopSend(true), key, s2);
  }

  lemma PoppedOne(s: Ctx, a: Act, s1: Ctx, b: Act, key: Key, s2: Ctx)
    requires Step(s, a, None, s1) && Step(s1, b, if s.proto == 1 then Some(key) else None, s2)
    ensures Does(s, [a, b], if s.proto == 1 then [key] else [], s2)
  {
    assert Does(s2, [], [], s2);
    hide Step, Does;
    if s.proto == 1 {
      Tells(s1, b, key, s2, [], [], s2);
      Then(s, a, s1, [b] + [], [key] + [], s2);
      assert [a] + ([b] + []) == [a, b] && [key] + [] == [key];
    } else {
      Two(s, a, s1, b, s2);
    }
  }

  lemma {:induction false} Drained(s: Ctx, keys: seq<Key>)
    requires s.drain == Draining && Kept(s) && Apart(keys) && forall k :: k in keys <==> k in s.whse
    ensures Does(s, Pops(keys), if s.proto == 1 then keys else [],
                 s.(whse := map[], heap := s.heap - Handles(s), total := s.total - |keys|))
    decreases |keys|
  {
    if keys == [] {
      assert s.whse == map[] && s.heap - Handles(s) == s.heap;
      assert Does(s, [], [], s);
    } else {
      var key, rest := keys[0], keys[1..];
      var s2, s3 := s.(whse := s.whse - {key}, heap := s.heap - {s.whse[key]}, total := s.total - 1),
                    s.(whse := map[], heap := s.heap - Handles(s), total := s.total - |keys|);
      PopsOne(s, key);
      Rest(keys);
      Drained(s2, rest);
      assert s2.(whse := map[], heap := s2.heap - Handles(s2), total := s2.total - |rest|) == s3 by {
        assert s2.heap - Handles(s2) == s.heap - Handles(s) by { hide Handles; }
      }
      hide Does, Kept, Apart, Handles;
      DrainedOn(s, key, s2, rest, s3);
      assert [key] + rest == keys;
    }
  }

  lemma DrainedOn(s: Ctx, key: Key, s2: Ctx, rest: seq<Key>, s3: Ctx)
    requires Does(s, [Pop(key), PopSend(true)], if s.proto == 1 then [key] else [], s2) && s2.proto == s.proto
    requires Does(s2, Pops(rest), if s.proto == 1 then rest else [], s3)
    ensures Does(s, Pops([key] + rest), if s.proto == 1 then [key] + rest else [], s3)
  {
    hide Does;
    assert ([key] + rest)[1..] == rest && NONE + NONE == NONE;
    Joined(s, [Pop(key), PopSend(true)], if s.proto == 1 then [key] else [], s2, Pops(rest), if s.proto == 1 then rest else [], s3);
  }

  lemma Rest(keys: seq<Key>)
    requires keys != [] && Apart(keys)
    ensures Apart(keys[1..]) && forall k :: k in keys[1..] <==> k in keys && k != keys[0]
  {
    assert keys == [keys[0]] + keys[1..];
    forall k | k in keys[1..] ensures k != keys[0] {
      var i :| 0 <= i < |keys[1..]| && keys[1..][i] == k;
      assert keys[0] != keys[i + 1];
    }
  }

  lemma BeginsAndEnds(s: Ctx, s2: Ctx)
    requires s.drain == Live && s.threads == map[] && s2.drain == Draining && s2.whse == map[]
    ensures Step(s, BeginDrain, None, s.(drain := Draining)) && Step(s2, EndDrain, None, s2.(acks := [], drain := Dead))
  {
    hide DoImport, CanImport, DoUnimport, CanUnimport, DoReceive, CanReceive;
  }

  /**
   Closing an idle context empties its warehouse, in any order: every node is freed, every queued ack dropped, and
   in protocol 1 the exporter of every key is told once.
   */
  lemma {:induction false} TeardownAlone(s: Ctx, keys: seq<Key>)
    requires s.drain == Live && s.threads == map[] && Kept(s) && Apart(keys) && forall k :: k in keys <==> k in s.whse
    ensures Does(s, [BeginDrain] + Pops(keys) + [EndDrain], if s.proto == 1 then keys else [],
                 s.(whse := map[], heap := s.heap - Handles(s), total := s.total - |keys|, acks := [], drain := Dead))
  {
    var told := if s.proto == 1 then keys else [];
    var s1 := s.(drain := Draining);
    var s2 := s1.(whse := map[], heap := s.heap - Handles(s), total := s.total - |keys|);
    var s3 := s2.(acks := [], drain := Dead);
    assert Handles(s1) == Handles(s);
    BeginsAndEnds(s, s2);
    hide Handles;
    Drained(s1, keys);
    hide Does, Step, Kept, Apart;
    Then(s, BeginDrain, s1, Pops(keys), told, s2);
    One(s2, EndDrain, s3);
    Joined(s, [BeginDrain] + Pops(keys), told, s2, [EndDrain], [], s3);
    assert told + [] == told;
  }
}
