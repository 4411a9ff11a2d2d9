/**
 One importing context: its warehouse of received descriptors, its queue of import acks and
 any number of threads in `hab_mem_import`, `hab_mem_unimport` and the message receive path.
 Every critical section, and every access outside a lock, is one step.
 */
module ImportSide {
  import opened Common

  datatype Key = Key(exportId: nat, pchan: nat)

  /** A descriptor as the exporter sent it: `obj` names the exporter's own descriptor. */
  datatype Desc = Desc(key: Key, obj: nat)

  /** `enum exp_desc_state` */
  datatype NodeState = Init | Importing | Imported | Unimporting

  /** Who may still act on a node.  Not in the source: a history variable of the proof. */
  datatype Owner = Nobody | Thread(t: nat) | Queue

  /** A warehouse node.  `sent`, another history variable: UNIMPORT has been sent for it. */
  datatype Node = Node(desc: Desc, st: NodeState, sent: bool, owner: Owner)

  /** `struct hab_import_ack`.  `imp_whse_added` is set iff there is a `token`, the inserted node. */
  datatype Ack = Ack(key: Key, vcLocal: nat, vcRemote: nat, token: Option<nat>)

  /** Where a thread is.  Threads outside the driver are not recorded. */
  datatype Pc =
    | Waiting(key: Key, vcLocal: nat, vcRemote: nat)  // IMPORT is sent, hab_import_ack_wait
    | Looking(key: Key, token: Option<nat>)           // past the wait, before the tree search
    | Mapping(h: nat)                                 // node is IMPORTING
    | RollingBack(h: nat)                             // map failed, node is INIT again
    | Unmapping(h: nat)                               // node is UNIMPORTING
    | Removing(h: nat)                                // UNIMPORT sent, node still in the tree
    | Freeing(h: nat)                                 // node out of the tree
    | Posting(ack: Ack)                               // receive: node inserted, ack not queued yet
    | Rejecting(desc: Desc, vcLocal: nat, vcRemote: nat) // receive: descriptor failed a check
    | Refusing(desc: Desc)                            // receive: negative ack queued, UNIMPORT not sent
    | Acking(h: nat)                                  // protocol 0 receive: node inserted, export ack not sent

  /** Teardown in `hab_ctx_free`. */
  datatype Drain = Live | Draining | InHand(h: nat) | Dead

  datatype Ctx = Ctx(
    proto: nat, whse: map<Key, nat>, heap: map<nat, Node>, next: nat, acks: seq<Ack>, total: int,
    threads: map<nat, Pc>, drain: Drain,
    fault: bool,  // a freed node was touched, or a node erased from a tree it is not in
    stale: bool   // the export ack of protocol 0 was made from a freed node
  )

  datatype Act =
    | SendImport(t: nat, key: Key, vcLocal: nat, vcRemote: nat)
    | StartOld(t: nat, key: Key)
    | TakeAck(t: nat, i: nat, closed: bool)
    | GiveUp(t: nat)
    | AgeOut(i: nat)
    | Lookup(t: nat)
    | MapDone(t: nat, ok: bool)
    | BeginUnimport(t: nat, key: Key)
    | UnmapFailed(t: nat)
    | SendUnimport(t: nat)
    | SkipSend(t: nat)
    | Remove(t: nat)
    | Free(t: nat)
    | Receive(t: nat, desc: Desc, vcLocal: nat, vcRemote: nat, outcome: Outcome)
    | ReceiveFail(t: nat, key: Key, vcLocal: nat, vcRemote: nat)
    | Post(t: nat, nomem: bool)
    | RejectSend(t: nat)
    | AckExport(t: nat)
    | BeginDrain
    | Pop(key: Key)
    | PopSend(unmapped: bool)
    | EndDrain

  /** What the checks of a received descriptor end in. */
  datatype Outcome = NoMemory | Invalid | Valid

  predicate Matches(a: Ack, w: Pc) {
    w.Waiting? && a.key == w.key && a.vcLocal == w.vcLocal && a.vcRemote == w.vcRemote
  }

  predicate ByImport(a: Act) {
    a.SendImport? || a.StartOld? || a.TakeAck? || a.GiveUp? || a.AgeOut? || a.Lookup? || a.MapDone?
  }

  predicate ByUnimport(a: Act) {
    a.BeginUnimport? || a.UnmapFailed? || a.SendUnimport? || a.SkipSend? || a.Remove? || a.Free?
  }

  predicate ByReceive(a: Act) { a.Receive? || a.ReceiveFail? || a.Post? || a.RejectSend? || a.AckExport? }

  predicate ByDrain(a: Act) { a.BeginDrain? || a.Pop? || a.PopSend? || a.EndDrain? }

  predicate CanImport(s: Ctx, a: Act) {
    match a
    case SendImport(t, _, _, _) => s.drain == Live && s.proto == 1 && t !in s.threads
    case StartOld(t, _) => s.drain == Live && s.proto == 0 && t !in s.threads
    case TakeAck(t, i, _) =>
      && t in s.threads && i < |s.acks| && Matches(s.acks[i], s.threads[t])
      && forall j :: 0 <= j < i ==> !Matches(s.acks[j], s.threads[t])
    case GiveUp(t) => t in s.threads && s.threads[t].Waiting?
    case AgeOut(i) => s.drain == Live && i < |s.acks|
    case Lookup(t) => t in s.threads && s.threads[t].Looking?
    case MapDone(t, _) => t in s.threads && s.threads[t].Mapping?
    case _ => false
  }

  predicate CanUnimport(s: Ctx, a: Act) {
    match a
    case BeginUnimport(t, _) => s.drain == Live && t !in s.threads
    case UnmapFailed(t) => t in s.threads && s.threads[t].Unmapping?
    case SendUnimport(t) => s.proto == 1 && t in s.threads && (s.threads[t].Unmapping? || s.threads[t].RollingBack?)
    case SkipSend(t) => s.proto != 1 && t in s.threads && s.threads[t].Unmapping?
    case Remove(t) => t in s.threads && s.threads[t].Removing?
    case Free(t) => t in s.threads && s.threads[t].Freeing?
    case _ => false
  }

  predicate CanReceive(s: Ctx, a: Act) {
    match a
    case Receive(t, _, _, _, _) => s.drain == Live && t !in s.threads
    case ReceiveFail(t, _, _, _) => s.drain == Live && s.proto == 1 && t !in s.threads
    case Post(t, _) => t in s.threads && (s.threads[t].Posting? || s.threads[t].Rejecting?)
    case RejectSend(t) => t in s.threads && s.threads[t].Refusing?
    case AckExport(t) => t in s.threads && s.threads[t].Acking?
    case _ => false
  }

  predicate CanDrain(s: Ctx, a: Act) {
    match a
    case BeginDrain => s.drain == Live && s.threads == map[]
    case Pop(key) => s.drain == Draining && key in s.whse
    case PopSend(_) => s.drain.InHand?
    case EndDrain => s.drain == Draining && s.whse == map[]
    case _ => false
  }

  predicate Enabled(s: Ctx, a: Act) {
    if ByImport(a) then CanImport(s, a)
    else if ByUnimport(a) then CanUnimport(s, a)
    else if ByReceive(a) then CanReceive(s, a)
    else CanDrain(s, a)
  }

  function Leave(s: Ctx, t: nat): Ctx { s.(threads := s.threads - {t}) }

  function Goto(s: Ctx, t: nat, pc: Pc): Ctx { s.(threads := s.threads[t := pc]) }

  /** An access to a node that has been freed is a fault. */
  function SetNode(s: Ctx, h: nat, st: NodeState, owner: Owner): (r: Ctx)
    ensures r == s.(heap := r.heap, fault := r.fault) && r.heap.Keys == s.heap.Keys
  {
    if h in s.heap then s.(heap := s.heap[h := s.heap[h].(st := st, owner := owner)]) else s.(fault := true)
  }

  function MarkSent(s: Ctx, h: nat): (r: Ctx)
    ensures r == s.(heap := r.heap, fault := r.fault) && r.heap.Keys == s.heap.Keys
  {
    if h in s.heap then s.(heap := s.heap[h := s.heap[h].(sent := true)]) else s.(fault := true)
  }

  /** `rb_erase` and the counter. */
  function Erase(s: Ctx, h: nat): (r: Ctx)
    ensures r == s.(whse := r.whse, total := r.total, fault := r.fault)
  {
    if h in s.heap && s.heap[h].desc.key in s.whse && s.whse[s.heap[h].desc.key] == h
    then s.(whse := s.whse - {s.heap[h].desc.key}, total := s.total - 1)
    else s.(fault := true)
  }

  /** `kfree` */
  function Release(s: Ctx, h: nat): (r: Ctx)
    ensures r == s.(heap := r.heap, fault := r.fault) && r.heap.Keys <= s.heap.Keys
  {
    if h in s.heap then s.(heap := s.heap - {h}) else s.(fault := true)
  }

  /** `hab_export_enqueue` with the new node `s.next`. */
  function Insert(s: Ctx, desc: Desc, owner: Owner): Ctx {
    s.(whse := s.whse[desc.key := s.next], heap := s.heap[s.next := Node(desc, Init, false, owner)],
       next := s.next + 1, total := s.total + 1)
  }

  function Without(q: seq<Ack>, i: nat): seq<Ack>
    requires i < |q|
  {
    q[..i] + q[i + 1..]
  }

  function Own(s: Ctx, token: Option<nat>, owner: Owner): (r: Ctx)
    ensures r == s.(heap := r.heap) && r.heap.Keys == s.heap.Keys
  {
    if token.Some? && token.value in s.heap
    then s.(heap := s.heap[token.value := s.heap[token.value].(owner := owner)]) else s
  }

  /** `hab_mem_import` */
  function DoImport(s: Ctx, a: Act): Ctx
    requires ByImport(a) && Enabled(s, a)
  {
    match a
    case SendImport(t, key, l, r) => Goto(s, t, Waiting(key, l, r))
    case StartOld(t, key) => Goto(s, t, Looking(key, None))
    case TakeAck(t, i, closed) =>
      var ack := s.acks[i];
      var s1 := s.(acks := Without(s.acks, i));
      if closed || ack.token == None then Leave(Own(s1, ack.token, Nobody), t)
      else Goto(Own(s1, ack.token, Thread(t)), t, Looking(ack.key, ack.token))
    case GiveUp(t) => Leave(s, t)
    case AgeOut(i) => Own(s.(acks := Without(s.acks, i)), s.acks[i].token, Nobody)
    case Lookup(t) =>
      var key := s.threads[t].key;
      if key !in s.whse then Leave(s, t)
      else if s.whse[key] !in s.heap then s.(fault := true)
      else if s.heap[s.whse[key]].st != Init then Leave(s, t)
      else Goto(SetNode(s, s.whse[key], Importing, Thread(t)), t, Mapping(s.whse[key]))
    case MapDone(t, ok) =>
      var h := s.threads[t].h;
      if ok then Leave(SetNode(s, h, Imported, Nobody), t)
      else if s.proto == 1 then Goto(SetNode(s, h, Init, Thread(t)), t, RollingBack(h))
      else Leave(SetNode(s, h, Init, Nobody), t)
  }

  /** `hab_mem_unimport`, and the rollback of an import */
  function DoUnimport(s: Ctx, a: Act): Ctx
    requires ByUnimport(a) && Enabled(s, a)
  {
    match a
    case BeginUnimport(t, key) =>
      if key !in s.whse then s
      else if s.whse[key] !in s.heap then s.(fault := true)
      else if s.heap[s.whse[key]].st != Imported then s
      else Goto(SetNode(s, s.whse[key], Unimporting, Thread(t)), t, Unmapping(s.whse[key]))
    case UnmapFailed(t) => Leave(SetNode(s, s.threads[t].h, Imported, Nobody), t)
    case SendUnimport(t) => Goto(MarkSent(s, s.threads[t].h), t, Removing(s.threads[t].h))
    case SkipSend(t) => Goto(s, t, Removing(s.threads[t].h))
    case Remove(t) => Goto(Erase(s, s.threads[t].h), t, Freeing(s.threads[t].h))
    case Free(t) => Leave(Release(s, s.threads[t].h), t)
  }

  /** the receive path */
  function DoReceive(s: Ctx, a: Act): Ctx
    requires ByReceive(a) && Enabled(s, a)
  {
    match a
    case Receive(t, desc, l, r, outcome) =>
      if outcome == NoMemory then s
      else if outcome == Invalid then if s.proto == 1 then Goto(s, t, Rejecting(desc, l, r)) else s
      else if s.proto == 1 then
        if desc.key in s.whse then Goto(s, t, Posting(Ack(desc.key, l, r, None)))
        else Goto(Insert(s, desc, Thread(t)), t, Posting(Ack(desc.key, l, r, Some(s.next))))
      else if desc.key in s.whse then s
      else Goto(Insert(s, desc, Nobody), t, Acking(s.next))
    case ReceiveFail(t, key, l, r) => Goto(s, t, Posting(Ack(key, l, r, None)))
    case Post(t, nomem) =>
      if s.threads[t].Posting? then
        var ack := s.threads[t].ack;
        Leave(Own(s, ack.token, Queue).(acks := s.acks + [ack]), t)
      else
        var pc := s.threads[t];
        var q := if nomem then [] else [Ack(pc.desc.key, pc.vcLocal, pc.vcRemote, None)];
        Goto(s.(acks := s.acks + q), t, Refusing(pc.desc))
    case RejectSend(t) => Leave(s, t)
    case AckExport(t) => Leave(if s.threads[t].h in s.heap then s else s.(stale := true), t)
  }

  /** teardown in `hab_ctx_free` */
  function DoDrain(s: Ctx, a: Act): Ctx
    requires ByDrain(a) && Enabled(s, a)
  {
    match a
    case BeginDrain => s.(drain := Draining)
    case Pop(key) => Erase(s, s.whse[key]).(drain := InHand(s.whse[key]))
    case PopSend(_) => Release(s, s.drain.h).(drain := Draining)
    case EndDrain => s.(acks := [], drain := Dead)
  }

  function Do(s: Ctx, a: Act): Ctx
    requires Enabled(s, a)
  {
    if ByImport(a) then DoImport(s, a)
    else if ByUnimport(a) then DoUnimport(s, a)
    else if ByReceive(a) then DoReceive(s, a)
    else DoDrain(s, a)
  }

  /** UNIMPORT is sent for this key by the step. */
  function Unimports(s: Ctx, a: Act): Option<Key>
    requires Enabled(s, a)
  {
    match a
    case SendUnimport(t) => if s.threads[t].h in s.heap then Some(s.heap[s.threads[t].h].desc.key) else None
    case RejectSend(t) => Some(s.threads[t].desc.key)
    case PopSend(unmapped) =>
      if unmapped && s.proto == 1 && s.drain.h in s.heap then Some(s.heap[s.drain.h].desc.key) else None
    case _ => None
  }

  // ---------------------------------------------------------------- the invariant

  /** The node a thread may act on next, by lookup or directly. */
  function Claim(pc: Pc): Option<nat> {
    match pc
    case Looking(_, token) => token
    case Mapping(h) => Some(h)
    case RollingBack(h) => Some(h)
    case Unmapping(h) => Some(h)
    case Removing(h) => Some(h)
    case Freeing(h) => Some(h)
    case Posting(ack) => ack.token
    case _ => None
  }

  predicate InTree(s: Ctx, h: nat) {
    h in s.heap && s.heap[h].desc.key in s.whse && s.whse[s.heap[h].desc.key] == h
  }

  /** What is known of thread `t`. */
  predicate ThreadInv(s: Ctx, t: nat, pc: Pc) {
    && (Claim(pc).Some? ==> Claim(pc).value in s.heap && s.heap[Claim(pc).value].owner == Thread(t))
    && match pc
       case Looking(key, token) =>
         && (s.proto == 1 ==> token.Some?)
         && (token.Some? ==> InTree(s, token.value) && s.heap[token.value].desc.key == key
                             && s.heap[token.value].st == Init && !s.heap[token.value].sent)
       case Mapping(h) => InTree(s, h) && s.heap[h].st == Importing && !s.heap[h].sent
       case RollingBack(h) => s.proto == 1 && InTree(s, h) && s.heap[h].st == Init && !s.heap[h].sent
       case Unmapping(h) => InTree(s, h) && s.heap[h].st == Unimporting && !s.heap[h].sent
       case Removing(h) => InTree(s, h) && s.heap[h].st in {Init, Unimporting} && (s.proto == 1 ==> s.heap[h].sent)
       case Freeing(h) => !InTree(s, h) && s.heap[h].st in {Init, Unimporting} && (s.proto == 1 ==> s.heap[h].sent)
       case Posting(ack) => TokenInv(s, ack)
       case Acking(h) => s.proto != 1 && h < s.next
       case _ => true
  }

  /** A positive ack stands for a node that is in the tree and in INIT. */
  predicate TokenInv(s: Ctx, a: Ack) {
    a.token.Some? ==>
      && s.proto == 1 && InTree(s, a.token.value)
      && s.heap[a.token.value].desc.key == a.key && s.heap[a.token.value].st == Init && !s.heap[a.token.value].sent
  }

  /** What is known of a node. */
  predicate NodeInv(s: Ctx, h: nat, n: Node) {
    && h < s.next
    && (n.st in {Importing, Unimporting} || n.sent ==> n.owner.Thread?)
    && (n.st == Imported || (n.st == Init && s.proto != 1) ==> n.owner == Nobody)
    && (n.owner.Thread? ==> n.owner.t in s.threads && Claim(s.threads[n.owner.t]) == Some(h))
    && (n.st in {Importing, Imported} || s.proto != 1 ==> !n.sent)
    && (!n.sent && s.proto == 1 ==> InTree(s, h) || s.drain == InHand(h))
  }

  predicate TreeInv(s: Ctx) {
    && (forall k :: k in s.whse ==> s.whse[k] in s.heap && s.heap[s.whse[k]].desc.key == k)
    && s.total == |s.whse|
  }

  /** The queue means something while the context lives; teardown only discards it. */
  predicate QueueInv(s: Ctx) {
    s.drain == Live ==>
      && (forall i :: 0 <= i < |s.acks| ==> TokenInv(s, s.acks[i]))
      && (forall i :: 0 <= i < |s.acks| && s.acks[i].token.Some? ==> s.heap[s.acks[i].token.value].owner == Queue)
      && (forall i, j :: 0 <= i < j < |s.acks| && s.acks[i].token.Some? ==> s.acks[i].token != s.acks[j].token)
  }

  predicate DrainInv(s: Ctx) {
    && (s.drain != Live ==> s.threads == map[])
    && (s.drain.InHand? ==> s.drain.h in s.heap && !InTree(s, s.drain.h))
  }

  predicate Inv(s: Ctx) {
    && !s.fault && s.proto in {0, 1}
    && TreeInv(s) && QueueInv(s) && DrainInv(s)
    && (forall t :: t in s.threads ==> ThreadInv(s, t, s.threads[t]))
    && (forall h :: h in s.heap ==> NodeInv(s, h, s.heap[h]))
  }

  /** `s'` differs from `s` in thread `t0` and node `h0` only, and nobody else has a claim on `h0`. */
  ghost predicate Agree(s: Ctx, s': Ctx, t0: nat, h0: nat) {
    && s'.proto == s.proto && !s'.fault && s'.next >= s.next && s'.drain == s.drain
    && s'.threads - {t0} == s.threads - {t0}
    && s'.heap - {h0} == s.heap - {h0}
    && (forall h :: h in s.heap && h != h0 ==> (InTree(s', h) <==> InTree(s, h)))
    && (t0 in s.threads ==> Claim(s.threads[t0]) in {None, Some(h0)})
    && (h0 in s.heap ==> s.heap[h0].owner in {Nobody, Queue, Thread(t0)})
  }

  lemma Others(s: Ctx, s': Ctx, t0: nat, h0: nat)
    requires Inv(s) && Agree(s, s', t0, h0)
    ensures forall t :: t in s'.threads && t != t0 ==> ThreadInv(s', t, s'.threads[t])
    ensures forall h :: h in s'.heap && h != h0 ==> NodeInv(s', h, s'.heap[h])
  {
    hide TreeInv, QueueInv, DrainInv;
    forall t | t in s'.threads && t != t0
      ensures ThreadInv(s', t, s'.threads[t])
    {
      assert t in s'.threads - {t0};
      assert t in s.threads && s.threads[t] == s'.threads[t] && ThreadInv(s, t, s.threads[t]);
      OtherThread(s, s', t0, h0, t);
    }
    forall h | h in s'.heap && h != h0
      ensures NodeInv(s', h, s'.heap[h])
    {
      assert h in s'.heap - {h0};
      assert h in s.heap && s.heap[h] == s'.heap[h] && NodeInv(s, h, s.heap[h]);
      OtherNode(s, s', t0, h0, h);
    }
  }

  lemma OtherThread(s: Ctx, s': Ctx, t0: nat, h0: nat, t: nat)
    requires Agree(s, s', t0, h0) && t != t0 && t in s.threads && t in s'.threads && s.threads[t] == s'.threads[t]
    requires ThreadInv(s, t, s.threads[t])
    ensures ThreadInv(s', t, s'.threads[t])
  {
    var c := Claim(s.threads[t]);
    if c.Some? {
      assert c.value != h0;
      assert c.value in s.heap - {h0};
      assert c.value in s'.heap && s'.heap[c.value] == s.heap[c.value];
    }
  }

  lemma OtherNode(s: Ctx, s': Ctx, t0: nat, h0: nat, h: nat)
    requires Agree(s, s', t0, h0) && h != h0 && h in s.heap && h in s'.heap && s.heap[h] == s'.heap[h]
    requires NodeInv(s, h, s.heap[h])
    ensures NodeInv(s', h, s'.heap[h])
  {
    var n := s.heap[h];
    if n.owner.Thread? {
      assert n.owner.t != t0;
      assert n.owner.t in s.threads - {t0};
      assert n.owner.t in s'.threads && s'.threads[n.owner.t] == s.threads[n.owner.t];
    }
  }

  /** The queue is unchanged and holds no token for `h0`. */
  lemma SameQueue(s: Ctx, s': Ctx, t0: nat, h0: nat)
    requires Inv(s) && Agree(s, s', t0, h0) && s'.acks == s.acks && s.drain == Live
    requires h0 in s.heap ==> s.heap[h0].owner != Queue
    ensures QueueInv(s')
  {
    hide ThreadInv, NodeInv;
    forall i | 0 <= i < |s.acks| && s.acks[i].token.Some?
      ensures TokenInv(s', s.acks[i]) && s'.heap[s.acks[i].token.value].owner == Queue
    {
      var h := s.acks[i].token.value;
      assert TokenInv(s, s.acks[i]) && s.heap[h].owner == Queue;
      assert h in s.heap - {h0};
      assert h in s'.heap && s'.heap[h] == s.heap[h];
    }
  }

  lemma Assemble(s: Ctx, s': Ctx, t: nat, h: nat)
    requires Inv(s) && Agree(s, s', t, h) && s.drain == Live && TreeInv(s') && QueueInv(s')
    requires t in s'.threads ==> ThreadInv(s', t, s'.threads[t])
    requires h in s'.heap ==> NodeInv(s', h, s'.heap[h])
    ensures Inv(s')
  {
    Others(s, s', t, h);
    hide TreeInv, QueueInv, ThreadInv, NodeInv, InTree;
  }

  /** The same for a step that leaves the queue alone, on a node that is not the queue's. */
  lemma AssembleSame(s: Ctx, s': Ctx, t: nat, h: nat)
    requires Inv(s) && Agree(s, s', t, h) && s.drain == Live && TreeInv(s') && s'.acks == s.acks
    requires h in s.heap ==> s.heap[h].owner != Queue
    requires t in s'.threads ==> ThreadInv(s', t, s'.threads[t])
    requires h in s'.heap ==> NodeInv(s', h, s'.heap[h])
    ensures Inv(s')
  {
    hide TreeInv, QueueInv, ThreadInv, NodeInv, InTree, Agree;
    SameQueue(s, s', t, h);
    Assemble(s, s', t, h);
  }

  /** A step of a thread that claims no node before or after it. */
  lemma PlainInv(s: Ctx, s': Ctx, t: nat)
    requires Inv(s) && s' == s.(threads := s'.threads, stale := s'.stale) && s'.threads - {t} == s.threads - {t} && s.drain == Live
    requires t in s.threads ==> Claim(s.threads[t]) == None
    requires t in s'.threads ==> Claim(s'.threads[t]) == None && !s'.threads[t].Acking? && (s'.threads[t].Looking? ==> s.proto != 1)
    ensures Inv(s')
  {
    hide QueueInv;
    FreshNode(s);
    Others(s, s', t, s.next);
    SameQueue(s, s', t, s.next);
  }

  lemma FreshNode(s: Ctx)
    requires Inv(s)
    ensures s.next !in s.heap
  {
  }

  lemma ThreadsMeanLive(s: Ctx)
    requires Inv(s) && s.threads != map[]
    ensures s.drain == Live
  {
  }

  function Stepped(s: Ctx, t: nat, h: nat, n: Node, next: Option<Pc>): Ctx {
    s.(heap := s.heap[h := n], threads := if next.None? then s.threads - {t} else s.threads[t := next.value])
  }

  /** A step of thread `t` on node `h` that leaves tree and queue alone. */
  lemma NodeStep(s: Ctx, t: nat, h: nat, n: Node, next: Option<Pc>)
    requires Inv(s) && s.drain == Live && h in s.heap && s.heap[h].owner in {Nobody, Thread(t)} && n.desc == s.heap[h].desc
    requires t in s.threads ==> Claim(s.threads[t]) in {None, Some(h)}
    requires next.Some? ==> ThreadInv(Stepped(s, t, h, n, next), t, next.value)
    requires NodeInv(Stepped(s, t, h, n, next), h, n)
    ensures Inv(Stepped(s, t, h, n, next))
  {
    hide ThreadInv, NodeInv, QueueInv, TreeInv, InTree, Claim, Agree;
    var s' := Stepped(s, t, h, n, next);
    Update(s.heap, h, n);
    if next.Some? { Update(s.threads, t, next.value); }
    OwnTree(s, s', h);
    NodeAgree(s, s', t, h);
    AssembleSame(s, s', t, h);
  }

  lemma Update<V>(m: map<nat, V>, k: nat, v: V)
    ensures m[k := v] - {k} == m - {k} && (m - {k}) - {k} == m - {k}
  {
  }

  lemma NodeAgree(s: Ctx, s': Ctx, t: nat, h: nat)
    requires !s'.fault && s'.next >= s.next && s'.proto == s.proto && s'.drain == s.drain
    requires s'.threads - {t} == s.threads - {t} && s'.heap - {h} == s.heap - {h}
    requires forall x :: x in s.heap && x != h ==> (InTree(s', x) <==> InTree(s, x))
    requires t in s.threads ==> Claim(s.threads[t]) in {None, Some(h)}
    requires h in s.heap ==> s.heap[h].owner in {Nobody, Queue, Thread(t)}
    ensures Agree(s, s', t, h)
  {
  }

  lemma LookupInv(s: Ctx, t: nat)
    requires Inv(s) && Enabled(s, Lookup(t))
    ensures Inv(Do(s, Lookup(t)))
  {
    ThreadsMeanLive(s);
    LookupEffect(s, t);
    hide Do;
    var key := s.threads[t].key;
    if key in s.whse && s.heap[s.whse[key]].st == Init {
      LookupFinds(s, t);
    } else {
      LookupLeaves(s, Do(s, Lookup(t)), t);
    }
  }

  lemma LookupEffect(s: Ctx, t: nat)
    requires TreeInv(s) && Enabled(s, Lookup(t))
    ensures var s', key := Do(s, Lookup(t)), s.threads[t].key;
      || (s' == s.(threads := s.threads - {t}) && (key !in s.whse || s.heap[s.whse[key]].st != Init))
      || (key in s.whse && s.whse[key] in s.heap && s.heap[s.whse[key]].st == Init
          && s' == Stepped(s, t, s.whse[key], s.heap[s.whse[key]].(st := Importing, owner := Thread(t)), Some(Mapping(s.whse[key]))))
  {
    hide DoUnimport, CanUnimport, DoReceive, CanReceive, DoDrain, CanDrain;
  }

  lemma LookupLeaves(s: Ctx, s': Ctx, t: nat)
    requires Inv(s) && s.drain == Live && Enabled(s, Lookup(t)) && s' == s.(threads := s.threads - {t})
    requires var key := s.threads[t].key; key !in s.whse || s.whse[key] !in s.heap || s.heap[s.whse[key]].st != Init
    ensures Inv(s')
  {
    hide TreeInv, QueueInv, DrainInv, NodeInv;
    assert ThreadInv(s, t, s.threads[t]);
    assert s.threads[t].token == None;
    hide ThreadInv;
    PlainInv(s, s', t);
  }

  lemma LookupFinds(s: Ctx, t: nat)
    requires Inv(s) && s.drain == Live && Enabled(s, Lookup(t))
    requires var key := s.threads[t].key; key in s.whse && s.whse[key] in s.heap && s.heap[s.whse[key]].st == Init
    ensures var h := s.whse[s.threads[t].key];
      Inv(Stepped(s, t, h, s.heap[h].(st := Importing, owner := Thread(t)), Some(Mapping(h))))
  {
    hide QueueInv;
    var h := s.whse[s.threads[t].key];
    assert ThreadInv(s, t, s.threads[t]) && NodeInv(s, h, s.heap[h]);
    NodeStep(s, t, h, s.heap[h].(st := Importing, owner := Thread(t)), Some(Mapping(h)));
  }

  lemma MapDoneInv(s: Ctx, t: nat, ok: bool)
    requires Inv(s) && Enabled(s, MapDone(t, ok))
    ensures Inv(Do(s, MapDone(t, ok)))
  {
    hide DoUnimport, CanUnimport, DoReceive, CanReceive, DoDrain, CanDrain;
    hide QueueInv, TreeInv;
    ThreadsMeanLive(s);
    var h := s.threads[t].h;
    assert ThreadInv(s, t, s.threads[t]) && NodeInv(s, h, s.heap[h]);
    if ok {
      NodeStep(s, t, h, s.heap[h].(st := Imported, owner := Nobody), None);
    } else if s.proto == 1 {
      NodeStep(s, t, h, s.heap[h].(st := Init, owner := Thread(t)), Some(RollingBack(h)));
    } else {
      NodeStep(s, t, h, s.heap[h].(st := Init, owner := Nobody), None);
    }
  }

  lemma UnmapFailedInv(s: Ctx, t: nat)
    requires Inv(s) && Enabled(s, UnmapFailed(t))
    ensures Inv(Do(s, UnmapFailed(t)))
  {
    hide DoImport, CanImport, DoReceive, CanReceive, DoDrain, CanDrain;
    hide QueueInv, TreeInv;
    ThreadsMeanLive(s);
    var h := s.threads[t].h;
    assert ThreadInv(s, t, s.threads[t]) && NodeInv(s, h, s.heap[h]);
    NodeStep(s, t, h, s.heap[h].(st := Imported, owner := Nobody), None);
  }

  lemma SendUnimportInv(s: Ctx, t: nat)
    requires Inv(s) && Enabled(s, SendUnimport(t))
    ensures Inv(Do(s, SendUnimport(t)))
  {
    hide DoImport, CanImport, DoReceive, CanReceive, DoDrain, CanDrain;
    hide QueueInv, TreeInv;
    ThreadsMeanLive(s);
    var h := s.threads[t].h;
    assert ThreadInv(s, t, s.threads[t]) && NodeInv(s, h, s.heap[h]);
    NodeStep(s, t, h, s.heap[h].(sent := true), Some(Removing(h)));
  }

  lemma SkipSendInv(s: Ctx, t: nat)
    requires Inv(s) && Enabled(s, SkipSend(t))
    ensures Inv(Do(s, SkipSend(t)))
  {
    hide DoImport, CanImport, DoReceive, CanReceive, DoDrain, CanDrain;
    hide QueueInv, TreeInv;
    ThreadsMeanLive(s);
    var h := s.threads[t].h;
    assert ThreadInv(s, t, s.threads[t]) && NodeInv(s, h, s.heap[h]);
    assert s.heap[h := s.heap[h]] == s.heap;
    NodeStep(s, t, h, s.heap[h], Some(Removing(h)));
  }

  lemma BeginUnimportInv(s: Ctx, t: nat, key: Key)
    requires Inv(s) && Enabled(s, BeginUnimport(t, key))
    ensures Inv(Do(s, BeginUnimport(t, key)))
  {
    hide DoImport, CanImport, DoReceive, CanReceive, DoDrain, CanDrain;
    hide QueueInv;
    if key in s.whse && s.heap[s.whse[key]].st == Imported {
      var h := s.whse[key];
      assert NodeInv(s, h, s.heap[h]);
      NodeStep(s, t, h, s.heap[h].(st := Unimporting, owner := Thread(t)), Some(Unmapping(h)));
    }
  }

  lemma RemoveInv(s: Ctx, t: nat)
    requires Inv(s) && Enabled(s, Remove(t))
    ensures Inv(Do(s, Remove(t)))
  {
    hide TreeInv, QueueInv, ThreadInv, NodeInv, InTree, Agree, Do, Claim;
    var s', h := Do(s, Remove(t)), s.threads[t].h;
    ThreadsMeanLive(s);
    RemoveStep(s, t);
    Update(s.threads, t, Freeing(h));
    NodeAgree(s, s', t, h);
    AssembleSame(s, s', t, h);
  }

  lemma RemoveStep(s: Ctx, t: nat)
    requires Inv(s) && Enabled(s, Remove(t))
    ensures var s', h := Do(s, Remove(t)), s.threads[t].h;
      && h in s.heap && s.heap[h].owner == Thread(t) && Claim(s.threads[t]) == Some(h)
      && s' == s.(whse := s.whse - {s.heap[h].desc.key}, total := s.total - 1, threads := s.threads[t := Freeing(h)])
      && TreeInv(s') && ThreadInv(s', t, Freeing(h)) && NodeInv(s', h, s'.heap[h])
      && forall x :: x in s.heap && x != h ==> (InTree(s', x) <==> InTree(s, x))
  {
    hide DoImport, CanImport, DoReceive, CanReceive, DoDrain, CanDrain, QueueInv, DrainInv, TreeInv, Erase;
    var s', h := Do(s, Remove(t)), s.threads[t].h;
    assert ThreadInv(s, t, s.threads[t]) && NodeInv(s, h, s.heap[h]);
    assert s' == Goto(Erase(s, h), t, Freeing(h));
    assert TreeInv(s);
    hide Do, Enabled, Inv;
    RemovedTree(s, s', t, h);
    hide InTree;
  }

  lemma RemovedTree(s: Ctx, s': Ctx, t: nat, h: nat)
    requires TreeInv(s) && InTree(s, h) && s' == Goto(Erase(s, h), t, Freeing(h))
    ensures s' == s.(whse := s.whse - {s.heap[h].desc.key}, total := s.total - 1, threads := s.threads[t := Freeing(h)])
    ensures TreeInv(s') && !InTree(s', h) && forall x :: x in s.heap && x != h ==> (InTree(s', x) <==> InTree(s, x))
  {
    EraseTree(s, s.heap[h].desc.key);
    hide Erase;
  }

  lemma SameTree(s: Ctx, s': Ctx)
    requires TreeInv(s) && s'.whse == s.whse && s'.heap == s.heap && s'.total == s.total
    ensures TreeInv(s')
  {
  }

  lemma FreeInv(s: Ctx, t: nat)
    requires Inv(s) && Enabled(s, Free(t))
    ensures Inv(Do(s, Free(t)))
  {
    hide DoImport, CanImport, DoReceive, CanReceive, DoDrain, CanDrain;
    ThreadsMeanLive(s);
    var s', h := Do(s, Free(t)), s.threads[t].h;
    FreedTree(s, s', t, h);
    hide QueueInv, TreeInv, InTree, ThreadInv, NodeInv, Agree;
    Freed(s, s', t, h);
    AssembleSame(s, s', t, h);
  }

  lemma Freed(s: Ctx, s': Ctx, t: nat, h: nat)
    requires t in s.threads && s.threads[t] == Freeing(h) && h in s.heap && s.heap[h].owner == Thread(t) && !s.fault
    requires s' == s.(heap := s.heap - {h}, threads := s.threads - {t})
    requires forall x :: x in s.heap && x != h ==> (InTree(s', x) <==> InTree(s, x))
    ensures Agree(s, s', t, h)
  {
  }

  lemma FreedTree(s: Ctx, s': Ctx, t: nat, h: nat)
    requires Inv(s) && t in s.threads && s.threads[t] == Freeing(h)
    requires s'.whse == s.whse && s'.total == s.total && s'.heap == s.heap - {h}
    ensures h in s.heap && s.heap[h].owner == Thread(t)
    ensures TreeInv(s') && forall x :: x in s.heap && x != h ==> (InTree(s', x) <==> InTree(s, x))
  {
  }

  lemma InsertTree(s: Ctx, s': Ctx, desc: Desc, owner: Owner)
    requires Inv(s) && desc.key !in s.whse && s'.total == s.total + 1
    requires s'.whse == s.whse[desc.key := s.next] && s'.heap == s.heap[s.next := Node(desc, Init, false, owner)]
    ensures s.next !in s.heap && TreeInv(s') && InTree(s', s.next)
    ensures forall h :: h in s.heap ==> (InTree(s', h) <==> InTree(s, h))
  {
    FreshNode(s);
    GrownTree(s, s', s.next, Node(desc, Init, false, owner));
  }

  lemma GrownTree(s: Ctx, s': Ctx, h: nat, n: Node)
    requires TreeInv(s) && h !in s.heap && n.desc.key !in s.whse && s'.total == s.total + 1
    requires s'.whse == s.whse[n.desc.key := h] && s'.heap == s.heap[h := n]
    ensures TreeInv(s') && InTree(s', h) && forall x :: x in s.heap ==> (InTree(s', x) <==> InTree(s, x))
  {
  }

  /** A received descriptor becomes node `s.next`, claimed by its receiver or by nobody. */
  lemma InsertInv(s: Ctx, s': Ctx, t: nat, desc: Desc)
    requires Inv(s) && s.drain == Live && t !in s.threads && desc.key !in s.whse
    requires s' == Insert(s, desc, if s.proto == 1 then Thread(t) else Nobody).(threads := s'.threads)
    requires s'.threads - {t} == s.threads && t in s'.threads && Received(s, s'.threads[t], desc)
    ensures Inv(s')
  {
    hide QueueInv, TreeInv, ThreadInv, NodeInv, Agree, Claim;
    var owner := if s.proto == 1 then Thread(t) else Nobody;
    InsertTree(s, s', desc, owner);
    hide InTree;
    Added(s.heap, s.next, Node(desc, Init, false, owner));
    assert s.threads - {t} == s.threads;
    NodeAgree(s, s', t, s.next);
    InsertDone(s, s', t, desc);
    AssembleSame(s, s', t, s.next);
  }

  lemma Added<V>(m: map<nat, V>, k: nat, v: V)
    requires k !in m
    ensures m[k := v] - {k} == m - {k}
  {
  }

  /** Where the receiver stands that has just inserted node `s.next`. */
  predicate Received(s: Ctx, pc: Pc, desc: Desc) {
    if s.proto == 1 then pc.Posting? && pc.ack.token == Some(s.next) && pc.ack.key == desc.key else pc == Acking(s.next)
  }

  lemma InsertDone(s: Ctx, s': Ctx, t: nat, desc: Desc)
    requires s.next !in s.heap && s.drain == Live && s'.next > s.next && s'.proto == s.proto && s.proto in {0, 1}
    requires InTree(s', s.next) && s'.heap[s.next].desc == desc && s'.heap[s.next].st == Init && !s'.heap[s.next].sent
    requires s'.heap[s.next].owner == if s.proto == 1 then Thread(t) else Nobody
    requires t in s'.threads && Received(s, s'.threads[t], desc)
    ensures t in s'.threads ==> ThreadInv(s', t, s'.threads[t])
    ensures NodeInv(s', s.next, s'.heap[s.next])
  {
  }

  lemma ReceiveInv(s: Ctx, a: Act)
    requires Inv(s) && Enabled(s, a) && a.Receive?
    ensures Inv(Do(s, a))
  {
    hide TreeInv, QueueInv, DrainInv, ThreadInv, NodeInv;
    var s' := Do(s, a);
    if a.outcome == Valid && a.desc.key !in s.whse {
      InsertInv(s, s', a.t, a.desc);
    } else if s' != s {
      PlainInv(s, s', a.t);
    }
  }

  lemma TakeAckInv(s: Ctx, t: nat, i: nat, closed: bool)
    requires Inv(s) && Enabled(s, TakeAck(t, i, closed))
    ensures Inv(Do(s, TakeAck(t, i, closed)))
  {
    hide Inv;
    ThreadsMeanLive(s);
    if s.acks[i].token.Some? {
      TakeToken(s, t, i, closed);
    } else {
      TakeNegative(s, Do(s, TakeAck(t, i, closed)), t, i);
    }
  }

  lemma TakeNegative(s: Ctx, s': Ctx, t: nat, i: nat)
    requires Inv(s) && s.drain == Live && i < |s.acks| && s.acks[i].token == None && t in s.threads && s.threads[t].Waiting?
    requires s' == s.(acks := Without(s.acks, i), threads := s.threads - {t})
    ensures Inv(s')
  {
    TakenToken(s, i, s.next);
    hide QueueInv, TreeInv, ThreadInv, NodeInv, InTree;
    SameTree(s, s');
    SameInTree(s, s');
    NodeAgree(s, s', t, s.next);
    hide Agree;
    ShorterQueue(s, s', t, s.next, i);
    Assemble(s, s', t, s.next);
  }

  lemma TakeToken(s: Ctx, t: nat, i: nat, closed: bool)
    requires Inv(s) && Enabled(s, TakeAck(t, i, closed)) && s.drain == Live && s.acks[i].token.Some?
    ensures Inv(Do(s, TakeAck(t, i, closed)))
  {
    hide DoUnimport, CanUnimport, DoReceive, CanReceive, DoDrain, CanDrain, ThreadInv, NodeInv, QueueInv, TreeInv, Without;
    var s', h := Do(s, TakeAck(t, i, closed)), s.acks[i].token.value;
    TakenToken(s, i, h);
    var owner := if closed then Nobody else Thread(t);
    assert s' == s.(acks := Without(s.acks, i), heap := s.heap[h := s.heap[h].(owner := owner)],
                    threads := if closed then s.threads - {t} else s.threads[t := Looking(s.acks[i].key, Some(h))]);
    assert t in s.threads && s.threads[t].Waiting? && s.acks[i].key == s.threads[t].key;
    hide Do, Enabled;
    TokenStep(s, s', t, h, i);
  }

  /** The ack of `h` goes to the thread that waits for it, or, the thread having given up, to nobody. */
  lemma TokenStep(s: Ctx, s': Ctx, t: nat, h: nat, i: nat)
    requires Inv(s) && s.drain == Live && i < |s.acks| && s.acks[i].token == Some(h) && h in s.heap && TokenInv(s, s.acks[i])
    requires s.heap[h].owner == Queue && NodeInv(s, h, s.heap[h]) && t in s.threads && s.threads[t].Waiting?
    requires || s' == s.(acks := Without(s.acks, i), heap := s.heap[h := s.heap[h].(owner := Nobody)], threads := s.threads - {t})
             || s' == s.(acks := Without(s.acks, i), heap := s.heap[h := s.heap[h].(owner := Thread(t))],
                         threads := s.threads[t := Looking(s.acks[i].key, Some(h))])
    ensures Inv(s')
  {
    hide QueueInv, TreeInv, DrainInv, Without;
    assert ThreadInv(s, t, s.threads[t]);
    OwnTree(s, s', h);
    ShorterQueue(s, s', t, h, i);
    Assemble(s, s', t, h);
  }

  lemma TakenToken(s: Ctx, i: nat, h: nat)
    requires Inv(s) && s.drain == Live && i < |s.acks| && h == if s.acks[i].token.Some? then s.acks[i].token.value else s.next
    ensures TokenInv(s, s.acks[i]) && (s.acks[i].token.Some? <==> h in s.heap)
    ensures h in s.heap ==> s.heap[h].owner == Queue && NodeInv(s, h, s.heap[h])
  {
  }

  lemma AgeOutInv(s: Ctx, i: nat)
    requires Inv(s) && Enabled(s, AgeOut(i))
    ensures Inv(Do(s, AgeOut(i)))
  {
    var s', ack, t := Do(s, AgeOut(i)), s.acks[i], FreshThread(s);
    var h := if ack.token.Some? then ack.token.value else s.next;
    TakenToken(s, i, h);
    hide QueueInv, TreeInv;
    if h in s.heap { OwnTree(s, s', h); } else { SameTree(s, s'); }
    ShorterQueue(s, s', t, h, i);
    Assemble(s, s', t, h);
  }

  /** A thread id that is not in use. */
  ghost function FreshThread(s: Ctx): (t: nat)
    ensures t !in s.threads
  {
    UnusedExists(s.threads.Keys);
    var t: nat :| t !in s.threads;
    t
  }

  lemma {:induction false} Bounded(ids: set<nat>) returns (b: nat)
    ensures forall t :: t in ids ==> t < b
  {
    if ids == {} {
      b := 0;
    } else {
      var t :| t in ids;
      var b0 := Bounded(ids - {t});
      b := if t < b0 then b0 else t + 1;
      assert forall x :: x in ids ==> x == t || x in ids - {t};
    }
  }

  lemma UnusedExists(ids: set<nat>)
    ensures exists t: nat :: t !in ids
  {
    var b := Bounded(ids);
    assert b !in ids;
  }

  lemma ShorterQueue(s: Ctx, s': Ctx, t: nat, h: nat, i: nat)
    requires Inv(s) && Agree(s, s', t, h) && s.drain == Live && i < |s.acks| && s'.acks == Without(s.acks, i)
    requires s.acks[i].token == if h in s.heap then Some(h) else None
    ensures QueueInv(s')
  {
    hide ThreadInv, NodeInv;
    var q := s'.acks;
    assert forall j :: 0 <= j < |q| ==> q[j] == s.acks[if j < i then j else j + 1];
    forall j | 0 <= j < |q| && q[j].token.Some?
      ensures TokenInv(s', q[j]) && s'.heap[q[j].token.value].owner == Queue
    {
      var x := q[j].token.value;
      assert TokenInv(s, q[j]) && s.heap[x].owner == Queue;
      assert x != h && x in s.heap - {h};
      assert x in s'.heap && s'.heap[x] == s.heap[x];
    }
  }

  lemma PostInv(s: Ctx, t: nat, nomem: bool)
    requires Inv(s) && Enabled(s, Post(t, nomem))
    ensures Inv(Do(s, Post(t, nomem)))
  {
    hide Inv, Do;
    ThreadsMeanLive(s);
    if s.threads[t].Posting? && s.threads[t].ack.token.Some? {
      PostToken(s, t, nomem, s.threads[t].ack);
    } else {
      PostPlain(s, t, nomem);
    }
  }

  lemma PostPlain(s: Ctx, t: nat, nomem: bool)
    requires Inv(s) && Enabled(s, Post(t, nomem)) && s.drain == Live
    requires s.threads[t].Posting? ==> s.threads[t].ack.token == None
    ensures Inv(Do(s, Post(t, nomem)))
  {
    hide DoImport, CanImport, DoUnimport, CanUnimport, DoDrain, CanDrain;
    hide QueueInv, TreeInv, ThreadInv, NodeInv, InTree;
    var s' := Do(s, Post(t, nomem));
    FreshNode(s);
    PostEffect(s, t, nomem);
    SameTree(s, s');
    SameInTree(s, s');
    hide Enabled, Do;
    NodeAgree(s, s', t, s.next);
    hide Agree;
    LongerQueue(s, s', t, s.next);
    assert t in s'.threads ==> ThreadInv(s', t, s'.threads[t]) by { RefusingIsFine(s', t); }
    Assemble(s, s', t, s.next);
  }

  lemma PostEffect(s: Ctx, t: nat, nomem: bool)
    requires Enabled(s, Post(t, nomem)) && (s.threads[t].Posting? ==> s.threads[t].ack.token == None)
    ensures var s' := Do(s, Post(t, nomem));
      && s' == s.(threads := s'.threads, acks := s'.acks) && s'.threads - {t} == s.threads - {t}
      && (t in s'.threads ==> s'.threads[t].Refusing?) && Claim(s.threads[t]) == None
      && (s'.acks == s.acks || exists a: Ack :: a.token == None && s'.acks == s.acks + [a])
  {
    hide DoImport, CanImport, DoUnimport, CanUnimport, DoDrain, CanDrain;
  }

  lemma SameInTree(s: Ctx, s': Ctx)
    requires s'.whse == s.whse && s'.heap == s.heap
    ensures forall x :: InTree(s', x) <==> InTree(s, x)
  {
  }

  lemma RefusingIsFine(s: Ctx, t: nat)
    ensures t in s.threads && s.threads[t].Refusing? ==> ThreadInv(s, t, s.threads[t])
  {
  }

  lemma PostToken(s: Ctx, t: nat, nomem: bool, ack: Ack)
    requires Inv(s) && s.drain == Live && t in s.threads && s.threads[t] == Posting(ack) && ack.token.Some?
    ensures Inv(Do(s, Post(t, nomem)))
  {
    hide DoImport, CanImport, DoUnimport, CanUnimport, DoDrain, CanDrain;
    hide QueueInv, TreeInv;
    var s', h := Do(s, Post(t, nomem)), ack.token.value;
    assert ThreadInv(s, t, s.threads[t]) && NodeInv(s, h, s.heap[h]);
    OwnTree(s, s', h);
    LongerQueue(s, s', t, h);
    Assemble(s, s', t, h);
  }

  /** Changing the owner of a node keeps the tree. */
  lemma OwnTree(s: Ctx, s': Ctx, h: nat)
    requires TreeInv(s) && h in s.heap && s'.whse == s.whse && s'.total == s.total
    requires s'.heap.Keys == s.heap.Keys && s'.heap - {h} == s.heap - {h} && s'.heap[h].desc == s.heap[h].desc
    ensures TreeInv(s') && forall x :: InTree(s', x) <==> InTree(s, x)
  {
    forall x | x in s.heap ensures s'.heap[x].desc == s.heap[x].desc {
      assert x != h ==> x in s.heap - {h};
    }
  }

  lemma LongerQueue(s: Ctx, s': Ctx, t: nat, h: nat)
    requires Inv(s) && Agree(s, s', t, h) && s.drain == Live && (h in s.heap ==> s.heap[h].owner == Thread(t))
    requires |s.acks| <= |s'.acks| <= |s.acks| + 1 && s'.acks[..|s.acks|] == s.acks
    requires |s'.acks| > |s.acks| ==> var a := s'.acks[|s.acks|];
               TokenInv(s', a) && (a.token.Some? ==> a.token.value == h && s'.heap[h].owner == Queue)
    ensures QueueInv(s')
  {
    hide ThreadInv, NodeInv;
    assert forall i :: 0 <= i < |s.acks| ==> s'.acks[i] == s.acks[i];
    forall i | 0 <= i < |s.acks| && s.acks[i].token.Some?
      ensures TokenInv(s', s.acks[i]) && s.acks[i].token.value != h && s'.heap[s.acks[i].token.value].owner == Queue
    {
      var x := s.acks[i].token.value;
      assert TokenInv(s, s.acks[i]) && s.heap[x].owner == Queue;
      assert x in s.heap - {h};
      assert x in s'.heap && s'.heap[x] == s.heap[x];
    }
  }

  lemma BeginDrainInv(s: Ctx)
    requires Inv(s) && Enabled(s, BeginDrain)
    ensures Inv(Do(s, BeginDrain))
  {
    hide DoImport, CanImport, DoUnimport, CanUnimport, DoReceive, CanReceive;
    var s' := Do(s, BeginDrain);
    forall h | h in s'.heap ensures NodeInv(s', h, s'.heap[h]) { assert NodeInv(s, h, s.heap[h]); }
  }

  lemma PopInv(s: Ctx, key: Key)
    requires Inv(s) && Enabled(s, Pop(key))
    ensures Inv(Do(s, Pop(key)))
  {
    hide DoImport, CanImport, DoUnimport, CanUnimport, DoReceive, CanReceive;
    hide TreeInv, ThreadInv;
    var s', h := Do(s, Pop(key)), s.whse[key];
    EraseTree(s, key);
    SameTree(Erase(s, h), s');
    forall x | x in s'.heap ensures NodeInv(s', x, s'.heap[x]) { assert NodeInv(s, x, s.heap[x]); }
  }

  lemma EraseTree(s: Ctx, key: Key)
    requires TreeInv(s) && key in s.whse
    ensures var s' := Erase(s, s.whse[key]);
      && s' == s.(whse := s.whse - {key}, total := s.total - 1)
      && TreeInv(s') && s.whse[key] in s.heap && s.heap[s.whse[key]].desc.key == key
  {
  }

  lemma PopSendInv(s: Ctx, unmapped: bool)
    requires Inv(s) && Enabled(s, PopSend(unmapped))
    ensures Inv(Do(s, PopSend(unmapped)))
  {
    hide DoImport, CanImport, DoUnimport, CanUnimport, DoReceive, CanReceive;
    var s', h := Do(s, PopSend(unmapped)), s.drain.h;
    assert s' == s.(heap := s.heap - {h}, drain := Draining) && s.threads == map[];
    hide Do, Enabled, ThreadInv;
    PoppedTree(s, s', h);
    hide TreeInv, InTree;
    assert QueueInv(s') && DrainInv(s');
    hide QueueInv, DrainInv;
    forall x | x in s'.heap ensures NodeInv(s', x, s'.heap[x]) { assert NodeInv(s, x, s.heap[x]); }
  }

  /** The node in hand is not in the tree. */
  lemma PoppedTree(s: Ctx, s': Ctx, h: nat)
    requires TreeInv(s) && h in s.heap && !InTree(s, h) && s'.whse == s.whse && s'.total == s.total && s'.heap == s.heap - {h}
    ensures TreeInv(s') && forall x :: x in s'.heap ==> (InTree(s', x) <==> InTree(s, x))
  {
  }

  lemma EndDrainInv(s: Ctx)
    requires Inv(s) && Enabled(s, EndDrain)
    ensures Inv(Do(s, EndDrain))
  {
    hide DoImport, CanImport, DoUnimport, CanUnimport, DoReceive, CanReceive;
  }

  lemma {:induction false} DoInv(s: Ctx, a: Act)
    requires Inv(s) && Enabled(s, a)
    ensures Inv(Do(s, a))
  {
    hide TreeInv, QueueInv, DrainInv, ThreadInv, NodeInv;
    match a
    case Lookup(t) => LookupInv(s, t);
    case MapDone(t, ok) => MapDoneInv(s, t, ok);
    case UnmapFailed(t) => UnmapFailedInv(s, t);
    case SendUnimport(t) => SendUnimportInv(s, t);
    case SkipSend(t) => SkipSendInv(s, t);
    case BeginUnimport(t, key) => BeginUnimportInv(s, t, key);
    case Remove(t) => RemoveInv(s, t);
    case Free(t) => FreeInv(s, t);
    case Receive(_, _, _, _, _) => ReceiveInv(s, a);
    case TakeAck(t, i, closed) => TakeAckInv(s, t, i, closed);
    case AgeOut(i) => AgeOutInv(s, i);
    case Post(t, nomem) => PostInv(s, t, nomem);
    case SendImport(t, _, _, _) => PlainInv(s, Do(s, a), t);
    case StartOld(t, _) => PlainInv(s, Do(s, a), t);
    case GiveUp(t) => ThreadsMeanLive(s); PlainInv(s, Do(s, a), t);
    case ReceiveFail(t, _, _, _) => PlainInv(s, Do(s, a), t);
    case RejectSend(t) => ThreadsMeanLive(s); PlainInv(s, Do(s, a), t);
    case AckExport(t) => ThreadsMeanLive(s); PlainInv(s, Do(s, a), t);
    case BeginDrain => BeginDrainInv(s);
    case Pop(key) => PopInv(s, key);
    case PopSend(unmapped) => PopSendInv(s, unmapped);
    case EndDrain => EndDrainInv(s);
  }

  // ---------------------------------------------------------------- what every step leaves alone

  /** The thread that takes the step, if it is a thread's. */
  predicate IsBy(a: Act, t: nat) {
    !a.AgeOut? && !a.BeginDrain? && !a.Pop? && !a.PopSend? && !a.EndDrain? && a.t == t
  }

  /** Handles are new, other threads stay where they are, and only an export ack can be stale. */
  ghost predicate Framed(s: Ctx, a: Act, s': Ctx)
    requires Enabled(s, a)
  {
    && s'.proto == s.proto && s.next <= s'.next && (!a.Receive? ==> s'.next == s.next)
    && (forall h :: h in s'.heap ==> h in s.heap || s.next <= h)
    && (forall t :: !IsBy(a, t) ==> (t in s'.threads <==> t in s.threads) && (t in s.threads ==> s'.threads[t] == s.threads[t]))
    && s'.stale == (s.stale || (a.AckExport? && s.threads[a.t].h !in s.heap))
  }

  lemma Frame(s: Ctx, a: Act)
    requires Enabled(s, a)
    ensures Framed(s, a, Do(s, a))
  {
    hide DoImport, CanImport, DoUnimport, CanUnimport, DoReceive, CanReceive, DoDrain, CanDrain, Framed;
    if ByImport(a) { ImportFrame(s, a); }
    else if ByUnimport(a) { UnimportFrame(s, a); }
    else if ByReceive(a) { ReceiveFrame(s, a); }
    else { DrainFrame(s, a); }
  }

  lemma ImportFrame(s: Ctx, a: Act)
    requires ByImport(a) && Enabled(s, a)
    ensures Framed(s, a, DoImport(s, a))
  {
    hide Framed, DoImport, CanImport, Enabled;
    if a.TakeAck? || a.AgeOut? { AckFrame(s, a); } else { SearchFrame(s, a); }
  }

  lemma AckFrame(s: Ctx, a: Act)
    requires (a.TakeAck? || a.AgeOut?) && Enabled(s, a)
    ensures Framed(s, a, DoImport(s, a))
  {
    hide Own, Without, Matches;
  }

  lemma SearchFrame(s: Ctx, a: Act)
    requires ByImport(a) && !a.TakeAck? && !a.AgeOut? && Enabled(s, a)
    ensures Framed(s, a, DoImport(s, a))
  {
    hide SetNode;
  }

  lemma UnimportFrame(s: Ctx, a: Act)
    requires ByUnimport(a) && Enabled(s, a)
    ensures Framed(s, a, DoUnimport(s, a))
  {
    hide SetNode, MarkSent, Erase, Release, Own, Without, Matches;
  }

  lemma ReceiveFrame(s: Ctx, a: Act)
    requires ByReceive(a) && Enabled(s, a)
    ensures Framed(s, a, DoReceive(s, a))
  {
    hide Own;
    if a.Receive? {
      DescFrame(s, a);
      hide DoReceive, CanReceive, Framed;
    }
  }

  lemma DescFrame(s: Ctx, a: Act)
    requires a.Receive? && Enabled(s, a)
    ensures Framed(s, a, DoReceive(s, a))
  {
  }

  lemma DrainFrame(s: Ctx, a: Act)
    requires ByDrain(a) && Enabled(s, a)
    ensures Framed(s, a, DoDrain(s, a))
  {
    hide SetNode, MarkSent, Erase, Release, Own, Without, Matches;
  }

  /** No step brings a handle back: a node freed once is freed for good. */
  lemma StaysFree(s: Ctx, a: Act, h: nat)
    requires Enabled(s, a) && h < s.next
    ensures h < Do(s, a).next && (h !in s.heap ==> h !in Do(s, a).heap)
  {
    Frame(s, a);
    hide Do, Enabled;
  }

  lemma ProtoKept(s: Ctx, a: Act)
    requires Enabled(s, a)
    ensures Do(s, a).proto == s.proto
  {
    Frame(s, a);
    hide Do, Enabled;
  }

  /** Only the export ack of protocol 0 can be stale, and exactly if its node is freed by then. */
  lemma StaleOnly(s: Ctx, a: Act)
    requires Inv(s) && Enabled(s, a)
    ensures a.AckExport? ==> s.proto != 1
    ensures Do(s, a).stale == (s.stale || (a.AckExport? && s.threads[a.t].h !in s.heap))
  {
    Frame(s, a);
    hide Do, TreeInv, QueueInv, DrainInv, NodeInv;
    if a.AckExport? { assert ThreadInv(s, a.t, s.threads[a.t]); }
    hide Enabled, ThreadInv;
  }

  // ---------------------------------------------------------------- runs

  predicate Start(s: Ctx) {
    && s.proto in {0, 1} && s.whse == map[] && s.heap == map[] && s.acks == [] && s.total == 0
    && s.threads == map[] && s.drain == Live && !s.fault && !s.stale
  }

  /** `steps` takes a new context through the states `ss`. */
  predicate IsRun(ss: seq<Ctx>, steps: seq<Act>) {
    && |ss| == |steps| + 1 && Start(ss[0])
    && forall i :: 0 <= i < |steps| ==> Leads(ss[i], steps[i], ss[i + 1])
  }

  predicate Leads(s: Ctx, a: Act, s': Ctx) { Enabled(s, a) && s' == Do(s, a) }

  lemma RunStep(ss: seq<Ctx>, steps: seq<Act>, i: nat)
    requires IsRun(ss, steps) && i < |steps|
    ensures |ss| == |steps| + 1 && Enabled(ss[i], steps[i]) && ss[i + 1] == Do(ss[i], steps[i])
  {
    hide Enabled, Do, Start;
    assert Leads(ss[i], steps[i], ss[i + 1]);
  }

  lemma StartInv(s: Ctx)
    requires Start(s)
    ensures Inv(s)
  {
  }

  lemma {:induction false} RunInv(ss: seq<Ctx>, steps: seq<Act>, n: nat)
    requires IsRun(ss, steps) && n < |ss|
    ensures Inv(ss[n])
  {
    hide Inv, Enabled, Do, Start, Leads;
    if n == 0 {
      StartInv(ss[0]);
    } else {
      RunInv(ss, steps, n - 1);
      RunStep(ss, steps, n - 1);
      DoInv(ss[n - 1], steps[n - 1]);
    }
  }

  /** In IMPORTING or UNIMPORTING a node is in the hands of this thread. */
  predicate Holds(s: Ctx, t: nat, h: nat) {
    t in s.threads &&
    match s.threads[t]
    case Mapping(x) => x == h
    case Unmapping(x) => x == h
    case RollingBack(x) => x == h
    case Removing(x) => x == h
    case Freeing(x) => x == h
    case _ => false
  }

  lemma {:induction false} NoStaleAck(ss: seq<Ctx>, steps: seq<Act>, n: nat)
    requires IsRun(ss, steps) && n < |ss|
    ensures ss[n].proto == ss[0].proto && (ss[0].proto == 1 ==> !ss[n].stale)
  {
    hide Start, Leads;
    if n > 0 {
      NoStaleAck(ss, steps, n - 1);
      StaleAt(ss, steps, n - 1);
    } else {
      assert Start(ss[0]);
      FreshStart(ss[0]);
    }
  }

  lemma FreshStart(s: Ctx)
    requires Start(s)
    ensures !s.stale
  {
  }

  lemma StaleAt(ss: seq<Ctx>, steps: seq<Act>, i: nat)
    requires IsRun(ss, steps) && i < |steps|
    ensures ss[i + 1].proto == ss[i].proto && (ss[i].proto == 1 ==> ss[i + 1].stale == ss[i].stale)
  {
    RunInv(ss, steps, i);
    RunStep(ss, steps, i);
    hide IsRun, Inv, Enabled, Do;
    ProtoKept(ss[i], steps[i]);
    StaleOnly(ss[i], steps[i]);
  }

  /**
   In every run, whatever the number of importing, unimporting and receiving threads: no node is
   erased twice, and no freed node touched, but for the export ack that a receiver of protocol 0
   makes from the node after inserting it (module ExportAck says when that goes wrong); a thread
   holds only live nodes; two threads never hold the same one; a node in IMPORTING or UNIMPORTING
   has its holder, and is IMPORTING just while that holder maps it; the counter is the tree's size.
   */
  lemma {:induction false} ExclusiveOwnership(ss: seq<Ctx>, steps: seq<Act>, n: nat)
    requires IsRun(ss, steps) && n < |ss|
    ensures !ss[n].fault && (ss[n].proto == 1 ==> !ss[n].stale) && ss[n].total == |ss[n].whse|
    ensures forall t, h :: Holds(ss[n], t, h) ==> h in ss[n].heap
    ensures forall t, u, h :: Holds(ss[n], t, h) && Holds(ss[n], u, h) ==> t == u
    ensures forall h :: h in ss[n].heap && ss[n].heap[h].st in {Importing, Unimporting} ==> exists t :: Holds(ss[n], t, h)
    ensures forall h :: h in ss[n].heap ==> (ss[n].heap[h].st == Importing <==> exists t :: t in ss[n].threads && ss[n].threads[t] == Mapping(h))
  {
    RunInv(ss, steps, n);
    NoStaleAck(ss, steps, n);
    hide IsRun;
    var s := ss[n];
    forall t, h | Holds(s, t, h) ensures h in s.heap && s.heap[h].owner == Thread(t) {
      assert ThreadInv(s, t, s.threads[t]);
    }
    forall h | h in s.heap && s.heap[h].st in {Importing, Unimporting}
      ensures exists t :: Holds(s, t, h)
      ensures s.heap[h].st == Importing ==> exists t :: t in s.threads && s.threads[t] == Mapping(h)
    {
      HasHolder(s, h);
    }
    forall h, t | h in s.heap && t in s.threads && s.threads[t] == Mapping(h) ensures s.heap[h].st == Importing {
      assert ThreadInv(s, t, s.threads[t]);
    }
  }

  lemma HasHolder(s: Ctx, h: nat)
    requires Inv(s) && h in s.heap && s.heap[h].st in {Importing, Unimporting}
    ensures exists t :: Holds(s, t, h) && (s.heap[h].st == Importing ==> s.threads[t] == Mapping(h))
  {
  }

  /** Every node is freed at most once: after the step that frees it, it is never live again. */
  lemma {:induction false} FreedOnce(ss: seq<Ctx>, steps: seq<Act>, h: nat, i: nat, j: nat)
    requires IsRun(ss, steps) && i < j < |ss| && h in ss[i].heap && h !in ss[i + 1].heap
    ensures h !in ss[j].heap
    decreases j
  {
    RunStep(ss, steps, i);
    RunInv(ss, steps, i);
    hide Enabled, Do, Inv, Leads, Start;
    assert h < ss[i].next by { KnownHandle(ss[i], h); }
    FreeFor(ss, steps, h, i, j);
  }

  lemma KnownHandle(s: Ctx, h: nat)
    requires Inv(s) && h in s.heap
    ensures h < s.next
  {
  }

  lemma {:induction false} FreeFor(ss: seq<Ctx>, steps: seq<Act>, h: nat, i: nat, j: nat)
    requires IsRun(ss, steps) && i < j < |ss| && h < ss[i].next && h !in ss[i + 1].heap
    ensures h < ss[j].next && h !in ss[j].heap
    decreases j
  {
    hide Start, Leads;
    FreeAt(ss, steps, h, i);
    if j > i + 1 {
      FreeFor(ss, steps, h, i, j - 1);
      FreeAt(ss, steps, h, j - 1);
    }
  }

  lemma FreeAt(ss: seq<Ctx>, steps: seq<Act>, h: nat, i: nat)
    requires IsRun(ss, steps) && i < |steps| && h < ss[i].next
    ensures h < ss[i + 1].next && (h !in ss[i].heap ==> h !in ss[i + 1].heap)
  {
    RunStep(ss, steps, i);
    RunInv(ss, steps, i);
    hide IsRun, Inv, Enabled, Do;
    StaysFree(ss[i], steps[i], h);
  }

  /**
   Protocol 1: a thread that consumed a positive ack and passed the wait finds its node in the
   tree and in INIT, so neither failure branch after the search is ever taken.
   */
  lemma {:induction false} LookupSucceeds(ss: seq<Ctx>, steps: seq<Act>, n: nat, t: nat)
    requires IsRun(ss, steps) && n < |steps| && ss[n].proto == 1 && steps[n] == Lookup(t)
    ensures t in ss[n].threads && var s, pc := ss[n], ss[n].threads[t];
      && pc.Looking? && pc.token.Some? && pc.key in s.whse && s.whse[pc.key] == pc.token.value
      && pc.token.value in s.heap && s.heap[pc.token.value].st == Init
      && ss[n + 1].threads == s.threads[t := Mapping(pc.token.value)]
  {
    RunInv(ss, steps, n);
    RunStep(ss, steps, n);
    hide IsRun, TreeInv, QueueInv, DrainInv, NodeInv;
    assert Enabled(ss[n], steps[n]);
    assert ThreadInv(ss[n], t, ss[n].threads[t]);
  }

  /** How far the ack for node `h` has got: not received, being queued, queued, gone. */
  function AckStage(s: Ctx, h: nat): nat {
    if h >= s.next then 0
    else if h in s.heap && s.heap[h].owner.Thread? && s.heap[h].owner.t in s.threads && s.threads[s.heap[h].owner.t].Posting? then 1
    else if h in s.heap && s.heap[h].owner == Queue then 2
    else 3
  }

  /** The step queues, or takes off the queue, the positive ack for node `h`. */
  predicate Queues(s: Ctx, a: Act, h: nat) {
    Enabled(s, a) && a.Post? && s.threads[a.t].Posting? && s.threads[a.t].ack.token == Some(h)
  }

  predicate Consumes(s: Ctx, a: Act, h: nat) {
    Enabled(s, a) && (a.TakeAck? || a.AgeOut?) && s.acks[a.i].token == Some(h)
  }

  lemma PostStage(s: Ctx, a: Act, h: nat)
    requires Inv(s) && Enabled(s, a) && a.Post? && h < s.next
    ensures AckStage(s, h) <= AckStage(Do(s, a), h)
    ensures AckStage(s, h) != 2 && AckStage(Do(s, a), h) == 2 ==> Queues(s, a, h)
    ensures Queues(s, a, h) ==> AckStage(s, h) == 1 && AckStage(Do(s, a), h) == 2
    ensures AckStage(s, h) == 1 && AckStage(Do(s, a), h) != 1 ==> Queues(s, a, h)
  {
    hide DoImport, CanImport, DoUnimport, CanUnimport, DoDrain, CanDrain;
    if Queues(s, a, h) {
      hide TreeInv, DrainInv, QueueInv, NodeInv;
      assert ThreadInv(s, a.t, s.threads[a.t]);
    } else {
      PostOther(s, a, h);
    }
  }

  /** A step of thread `t` that does not queue the ack of `h` nor take it off the queue. */
  lemma SameStage(s: Ctx, s': Ctx, t: nat, h: nat)
    requires s'.next == s.next && h < s.next && (h in s.heap ==> NodeInv(s, h, s.heap[h]))
    requires forall u :: u != t ==> (u in s'.threads <==> u in s.threads) && (u in s.threads ==> s'.threads[u] == s.threads[u])
    requires t in s.threads && s.threads[t].Posting? ==> Claim(s.threads[t]) != Some(h)
    requires t in s'.threads ==> !s'.threads[t].Posting?
    requires h in s'.heap ==> h in s.heap
    requires h in s'.heap && s'.heap[h].owner != s.heap[h].owner ==> {s.heap[h].owner, s'.heap[h].owner} <= {Nobody, Thread(t)}
    requires h in s.heap && h !in s'.heap ==> s.heap[h].owner in {Nobody, Thread(t)}
    ensures AckStage(s', h) == AckStage(s, h)
  {
    hide InTree;
  }

  lemma PostOther(s: Ctx, a: Act, h: nat)
    requires Inv(s) && Enabled(s, a) && a.Post? && h < s.next && !Queues(s, a, h)
    ensures AckStage(Do(s, a), h) == AckStage(s, h)
  {
    PostLeaves(s, a, h);
    Frame(s, a);
    if h in s.heap { assert NodeInv(s, h, s.heap[h]); }
    hide Inv, NodeInv, Do, AckStage;
    SameStage(s, Do(s, a), a.t, h);
  }

  lemma PostLeaves(s: Ctx, a: Act, h: nat)
    requires Enabled(s, a) && a.Post? && !Queues(s, a, h)
    ensures var s' := Do(s, a);
      && (h in s'.heap <==> h in s.heap) && (h in s.heap ==> s'.heap[h] == s.heap[h])
      && (a.t in s'.threads ==> s'.threads[a.t].Refusing?)
  {
    hide DoImport, CanImport, DoUnimport, CanUnimport, DoDrain, CanDrain;
  }

  lemma ReceiveStage(s: Ctx, a: Act, h: nat)
    requires Inv(s) && Enabled(s, a) && (a.Receive? || a.ReceiveFail?) && h < s.next
    ensures AckStage(s, h) <= AckStage(Do(s, a), h)
    ensures AckStage(s, h) != 2 && AckStage(Do(s, a), h) == 2 ==> Queues(s, a, h)
    ensures AckStage(s, h) == 1 ==> AckStage(Do(s, a), h) == 1
  {
    hide DoImport, CanImport, DoUnimport, CanUnimport, DoDrain, CanDrain;
    hide TreeInv, DrainInv, QueueInv, ThreadInv;
    if h in s.heap { assert NodeInv(s, h, s.heap[h]); }
  }

  lemma TakeStage(s: Ctx, a: Act, h: nat)
    requires Inv(s) && Enabled(s, a) && (a.TakeAck? || a.AgeOut?) && h < s.next
    ensures AckStage(s, h) <= AckStage(Do(s, a), h)
    ensures AckStage(s, h) != 2 && AckStage(Do(s, a), h) == 2 ==> Queues(s, a, h)
    ensures Consumes(s, a, h) ==> AckStage(s, h) == 2 && AckStage(Do(s, a), h) == 3
    ensures AckStage(s, h) == 1 ==> AckStage(Do(s, a), h) == 1
  {
    hide TreeInv, ThreadInv, NodeInv;
    if a.TakeAck? { ThreadsMeanLive(s); }
    TakenToken(s, a.i, if s.acks[a.i].token.Some? then s.acks[a.i].token.value else s.next);
    if Consumes(s, a, h) {
      hide Inv;
    } else {
      TakeOther(s, a, h);
    }
  }

  lemma TakeOther(s: Ctx, a: Act, h: nat)
    requires Inv(s) && Enabled(s, a) && (a.TakeAck? || a.AgeOut?) && h < s.next && !Consumes(s, a, h)
    ensures AckStage(Do(s, a), h) == AckStage(s, h)
  {
    hide Inv, DoUnimport, CanUnimport, DoReceive, CanReceive, DoDrain, CanDrain, Without;
  }

  lemma LookupStage(s: Ctx, t: nat, h: nat)
    requires Inv(s) && Enabled(s, Lookup(t)) && h < s.next
    ensures AckStage(Do(s, Lookup(t)), h) == AckStage(s, h)
  {
    hide Do, AckStage, TreeInv, QueueInv, DrainInv, ThreadInv;
    LookupEffect(s, t);
    Frame(s, Lookup(t));
    LookupTakes(s, t);
    if h in s.heap { assert NodeInv(s, h, s.heap[h]); }
    hide Inv, NodeInv;
    SameStage(s, Do(s, Lookup(t)), t, h);
  }

  /** A node in INIT that a search finds is nobody's, or the searching thread's by its ack. */
  lemma LookupTakes(s: Ctx, t: nat)
    requires Inv(s) && Enabled(s, Lookup(t))
    ensures var key := s.threads[t].key;
      key in s.whse && s.whse[key] in s.heap && s.heap[s.whse[key]].st == Init ==> s.heap[s.whse[key]].owner in {Nobody, Thread(t)}
  {
    hide QueueInv, DrainInv;
    var key := s.threads[t].key;
    assert ThreadInv(s, t, s.threads[t]);
    if key in s.whse && s.whse[key] in s.heap { assert NodeInv(s, s.whse[key], s.heap[s.whse[key]]); }
  }

  lemma BeginStage(s: Ctx, t: nat, key: Key, h: nat)
    requires Inv(s) && Enabled(s, BeginUnimport(t, key)) && h < s.next
    ensures AckStage(s, h) <= AckStage(Do(s, BeginUnimport(t, key)), h)
    ensures AckStage(Do(s, BeginUnimport(t, key)), h) == 2 ==> AckStage(s, h) == 2
    ensures AckStage(s, h) == 1 ==> AckStage(Do(s, BeginUnimport(t, key)), h) == 1
  {
    hide DoImport, CanImport, DoReceive, CanReceive, DoDrain, CanDrain;
    hide DrainInv, QueueInv, ThreadInv;
    if h in s.heap { assert NodeInv(s, h, s.heap[h]); }
    hide NodeInv;
  }

  lemma HolderStage(s: Ctx, a: Act, h: nat)
    requires Inv(s) && Enabled(s, a) && h < s.next
    requires a.MapDone? || a.UnmapFailed? || a.SendUnimport? || a.SkipSend? || a.Remove? || a.Free?
    ensures AckStage(Do(s, a), h) == AckStage(s, h)
  {
    hide Do, AckStage, TreeInv, QueueInv, DrainInv, ThreadInv;
    HolderLeaves(s, a, h);
    Frame(s, a);
    if h in s.heap { assert NodeInv(s, h, s.heap[h]); }
    hide Inv, NodeInv;
    SameStage(s, Do(s, a), a.t, h);
  }

  lemma HolderLeaves(s: Ctx, a: Act, h: nat)
    requires Inv(s) && Enabled(s, a)
    requires a.MapDone? || a.UnmapFailed? || a.SendUnimport? || a.SkipSend? || a.Remove? || a.Free?
    ensures var s' := Do(s, a);
      && (a.t in s'.threads ==> !s'.threads[a.t].Posting?)
      && (h in s'.heap ==> h in s.heap && (s'.heap[h].owner == s.heap[h].owner || (s.heap[h].owner == Thread(a.t) && s'.heap[h].owner in {Nobody, Thread(a.t)})))
      && (h in s.heap && h !in s'.heap ==> s.heap[h].owner == Thread(a.t))
  {
    hide DoReceive, CanReceive, DoDrain, CanDrain, TreeInv, QueueInv, DrainInv, NodeInv;
    assert ThreadInv(s, a.t, s.threads[a.t]);
    hide ThreadInv, Erase;
  }

  lemma StageStep(s: Ctx, a: Act, h: nat)
    requires Inv(s) && Enabled(s, a)
    ensures AckStage(s, h) <= AckStage(Do(s, a), h)
    ensures AckStage(s, h) != 2 && AckStage(Do(s, a), h) == 2 ==> Queues(s, a, h)
    ensures Queues(s, a, h) ==> AckStage(s, h) == 1 && AckStage(Do(s, a), h) == 2
    ensures Consumes(s, a, h) ==> AckStage(s, h) == 2 && AckStage(Do(s, a), h) == 3
    ensures AckStage(s, h) == 1 && AckStage(Do(s, a), h) != 1 ==> Queues(s, a, h)
  {
    if h < s.next {
      if a.Post? { PostStage(s, a, h); }
      else if a.Receive? || a.ReceiveFail? { ReceiveStage(s, a, h); }
      else if a.TakeAck? || a.AgeOut? { TakeStage(s, a, h); }
      else if a.Lookup? { LookupStage(s, a.t, h); }
      else if a.BeginUnimport? { BeginStage(s, a.t, a.key, h); }
      else if a.MapDone? || a.UnmapFailed? || a.SendUnimport? || a.SkipSend? || a.Remove? || a.Free? { HolderStage(s, a, h); }
      else { RestStage(s, a, h); }
    } else {
      NoToken(s, a, h);
    }
  }

  lemma RestStage(s: Ctx, a: Act, h: nat)
    requires Inv(s) && Enabled(s, a) && h < s.next
    requires a.SendImport? || a.StartOld? || a.GiveUp? || a.RejectSend? || a.AckExport? || a.BeginDrain? || a.Pop? || a.PopSend? || a.EndDrain?
    ensures AckStage(s, h) <= AckStage(Do(s, a), h)
    ensures AckStage(s, h) != 2 && AckStage(Do(s, a), h) == 2 ==> Queues(s, a, h)
    ensures AckStage(s, h) == 1 ==> AckStage(Do(s, a), h) == 1
  {
    Frame(s, a);
    if ByDrain(a) {
      DrainStage(s, a, h);
    } else {
      PlainLeaves(s, a);
      if h in s.heap { assert NodeInv(s, h, s.heap[h]); }
      hide Inv, NodeInv, Do, AckStage;
      SameStage(s, Do(s, a), a.t, h);
    }
  }

  lemma PlainLeaves(s: Ctx, a: Act)
    requires Enabled(s, a) && (a.SendImport? || a.StartOld? || a.GiveUp? || a.RejectSend? || a.AckExport?)
    ensures var s' := Do(s, a); s'.heap == s.heap && (a.t in s'.threads ==> !s'.threads[a.t].Posting?)
    ensures a.t in s.threads ==> !s.threads[a.t].Posting?
  {
    hide DoUnimport, CanUnimport, DoDrain, CanDrain;
  }

  lemma DrainStage(s: Ctx, a: Act, h: nat)
    requires Inv(s) && Enabled(s, a) && ByDrain(a) && h < s.next
    ensures AckStage(s, h) <= AckStage(Do(s, a), h)
    ensures AckStage(s, h) != 2 && AckStage(Do(s, a), h) == 2 ==> Queues(s, a, h)
    ensures AckStage(s, h) == 1 ==> AckStage(Do(s, a), h) == 1
  {
    hide TreeInv, QueueInv, ThreadInv, NodeInv, DoImport, CanImport, DoUnimport, CanUnimport, DoReceive, CanReceive, Erase;
  }

  lemma NoToken(s: Ctx, a: Act, h: nat)
    requires Inv(s) && Enabled(s, a) && h >= s.next
    ensures !Queues(s, a, h) && (s.drain == Live ==> !Consumes(s, a, h)) && AckStage(Do(s, a), h) != 2
  {
    hide TreeInv, DrainInv, QueueInv;
    FreshNode(s);
    if a.Post? { assert ThreadInv(s, a.t, s.threads[a.t]); }
    if (a.TakeAck? || a.AgeOut?) && s.acks[a.i].token.Some? {
      if a.TakeAck? { ThreadsMeanLive(s); }
      TakenToken(s, a.i, s.acks[a.i].token.value);
    }
    forall x | x in s.heap ensures x < s.next { KnownHandle(s, x); }
  }

  lemma StageOf(ss: seq<Ctx>, steps: seq<Act>, h: nat, i: nat)
    requires IsRun(ss, steps) && i < |steps|
    ensures AckStage(ss[i], h) <= AckStage(ss[i + 1], h)
    ensures Queues(ss[i], steps[i], h) ==> AckStage(ss[i], h) == 1 && AckStage(ss[i + 1], h) == 2
    ensures Consumes(ss[i], steps[i], h) ==> AckStage(ss[i], h) == 2 && AckStage(ss[i + 1], h) == 3
    ensures AckStage(ss[i], h) != 2 && AckStage(ss[i + 1], h) == 2 ==> Queues(ss[i], steps[i], h)
    ensures AckStage(ss[i], h) == 1 && AckStage(ss[i + 1], h) != 1 ==> Queues(ss[i], steps[i], h)
  {
    RunStep(ss, steps, i);
    RunInv(ss, steps, i);
    hide IsRun, Enabled, Do, Inv, AckStage, Queues, Consumes;
    StageStep(ss[i], steps[i], h);
  }

  lemma {:induction false} StageUp(ss: seq<Ctx>, steps: seq<Act>, h: nat, i: nat, j: nat)
    requires IsRun(ss, steps) && i <= j < |ss|
    ensures AckStage(ss[i], h) <= AckStage(ss[j], h)
    decreases j
  {
    hide AckStage, Start, Leads;
    if i < j {
      StageUp(ss, steps, h, i, j - 1);
      StageOf(ss, steps, h, j - 1);
    }
  }

  /** A node's positive ack is queued at most once and taken off the queue at most once. */
  lemma {:induction false} AcksAreSingleUse(ss: seq<Ctx>, steps: seq<Act>, h: nat, i: nat, j: nat)
    requires IsRun(ss, steps) && i < j < |steps|
    ensures !(Queues(ss[i], steps[i], h) && Queues(ss[j], steps[j], h))
    ensures !(Consumes(ss[i], steps[i], h) && Consumes(ss[j], steps[j], h))
  {
    hide AckStage, Start, Leads, Queues, Consumes;
    StageOf(ss, steps, h, i);
    StageOf(ss, steps, h, j);
    StageUp(ss, steps, h, i + 1, j);
  }

  /** A consumed positive ack was queued by the receive path that inserted its node. */
  lemma {:induction false} ConsumedWasQueued(ss: seq<Ctx>, steps: seq<Act>, h: nat, j: nat)
    requires IsRun(ss, steps) && j < |steps| && Consumes(ss[j], steps[j], h)
    ensures exists i :: 0 <= i < j && Queues(ss[i], steps[i], h)
  {
    hide AckStage, Start, Leads, Queues, Consumes;
    StageOf(ss, steps, h, j);
    WasQueued(ss, steps, h, j);
  }

  lemma {:induction false} WasQueued(ss: seq<Ctx>, steps: seq<Act>, h: nat, j: nat)
    requires IsRun(ss, steps) && j < |ss|
    ensures AckStage(ss[j], h) == 2 ==> exists i :: 0 <= i < j && Queues(ss[i], steps[i], h)
  {
    NoneQueued(ss[0], h);
    hide AckStage, Start, Leads, Queues;
    if j > 0 {
      StageOf(ss, steps, h, j - 1);
      WasQueued(ss, steps, h, j - 1);
    }
  }

  lemma NoneQueued(s: Ctx, h: nat)
    ensures Start(s) ==> AckStage(s, h) != 2
  {
  }

  /** The step puts node `h` into the tree. */
  predicate Inserts(s: Ctx, a: Act, h: nat) { Enabled(s, a) && h >= s.next && h < Do(s, a).next }

  lemma InsertedStage(s: Ctx, a: Act, h: nat)
    requires Inv(s) && Inserts(s, a, h) && s.proto == 1
    ensures AckStage(Do(s, a), h) == 1 && InTree(Do(s, a), h)
  {
    hide Inv, DoImport, CanImport, DoUnimport, CanUnimport, DoDrain, CanDrain;
    Frame(s, a);
    hide Framed;
  }

  lemma InsertedAt(ss: seq<Ctx>, steps: seq<Act>, h: nat, i: nat)
    requires IsRun(ss, steps) && i < |steps| && ss[i].proto == 1 && Inserts(ss[i], steps[i], h)
    ensures AckStage(ss[i + 1], h) == 1
  {
    RunStep(ss, steps, i);
    RunInv(ss, steps, i);
    hide IsRun, Inv, Enabled, Do, Inserts;
    InsertedStage(ss[i], steps[i], h);
  }

  /**
   Protocol 1: for every node inserted, the receiver is still about to queue its positive ack or has
   queued it.  With the lemma above: exactly one positive ack for each insertion.
   */
  lemma {:induction false} InsertionIsAcked(ss: seq<Ctx>, steps: seq<Act>, h: nat, i: nat, j: nat)
    requires IsRun(ss, steps) && i < j < |ss| && ss[i].proto == 1 && Inserts(ss[i], steps[i], h)
    ensures AckStage(ss[j], h) == 1 || exists k :: i < k < j && Queues(ss[k], steps[k], h)
    decreases j
  {
    hide AckStage, Start, Leads, Queues, Inserts;
    if j == i + 1 {
      InsertedAt(ss, steps, h, i);
    } else {
      InsertionIsAcked(ss, steps, h, i, j - 1);
      StageOf(ss, steps, h, j - 1);
    }
  }

  // ---------------------------------------------------------------- what the exporter relies on

  /** A received descriptor for which UNIMPORT has not been sent. */
  predicate Unsent(s: Ctx, h: nat) { h in s.heap && !s.heap[h].sent }

  /** A received descriptor that failed a check; its UNIMPORT is still to be sent. */
  predicate Refuses(s: Ctx, t: nat) { t in s.threads && (s.threads[t].Rejecting? || s.threads[t].Refusing?) }

  /** The node that stops being `Unsent`: its UNIMPORT is sent, or its unmapping failed in teardown. */
  function Retires(s: Ctx, a: Act): Option<nat>
    requires Enabled(s, a)
  {
    match a
    case SendUnimport(t) => Some(s.threads[t].h)
    case PopSend(_) => Some(s.drain.h)
    case _ => None
  }

  lemma UnsentKept(s: Ctx, a: Act, h: nat)
    requires Inv(s) && s.proto == 1 && Enabled(s, a) && !a.Receive?
    ensures Unsent(Do(s, a), h) <==> Unsent(s, h) && Retires(s, a) != Some(h)
    ensures Unsent(Do(s, a), h) ==> Do(s, a).heap[h].desc == s.heap[h].desc
  {
    if a.Free? || a.PopSend? {
      FreedWasSent(s, a, h);
    } else if a.SendUnimport? {
      hide TreeInv, QueueInv, DrainInv, NodeInv;
      assert ThreadInv(s, a.t, s.threads[a.t]);
      hide ThreadInv;
    } else {
      SentStays(s, a, h);
    }
  }

  lemma FreedWasSent(s: Ctx, a: Act, h: nat)
    requires Inv(s) && s.proto == 1 && Enabled(s, a) && (a.Free? || a.PopSend?)
    ensures Unsent(Do(s, a), h) <==> Unsent(s, h) && Retires(s, a) != Some(h)
    ensures Unsent(Do(s, a), h) ==> Do(s, a).heap[h].desc == s.heap[h].desc
  {
    hide TreeInv, QueueInv, NodeInv;
    if a.Free? { assert ThreadInv(s, a.t, s.threads[a.t]); }
    hide ThreadInv;
  }

  lemma SentStays(s: Ctx, a: Act, h: nat)
    requires Enabled(s, a) && !a.Receive? && !a.Free? && !a.PopSend? && !a.SendUnimport?
    ensures SameSent(s, Do(s, a), h)
  {
    hide DoImport, CanImport, DoUnimport, CanUnimport, DoReceive, CanReceive, DoDrain, CanDrain, SameSent;
    if ByImport(a) { ImportSent(s, a, h); }
    else if ByUnimport(a) { UnimportSent(s, a, h); }
    else if ByReceive(a) { ReceiveSent(s, a, h); }
    else { DrainSent(s, a, h); }
  }

  predicate SameSent(s: Ctx, s': Ctx, h: nat) {
    (Unsent(s', h) <==> Unsent(s, h)) && (Unsent(s', h) ==> s'.heap[h].desc == s.heap[h].desc)
  }

  lemma ImportSent(s: Ctx, a: Act, h: nat)
    requires ByImport(a) && Enabled(s, a)
    ensures SameSent(s, DoImport(s, a), h)
  {
    if a.TakeAck? || a.AgeOut? { AckSent(s, a, h); } else { SearchSent(s, a, h); }
    hide DoImport, CanImport;
  }

  lemma AckSent(s: Ctx, a: Act, h: nat)
    requires (a.TakeAck? || a.AgeOut?) && Enabled(s, a)
    ensures SameSent(s, DoImport(s, a), h)
  {
    hide Without, Matches;
  }

  lemma SearchSent(s: Ctx, a: Act, h: nat)
    requires ByImport(a) && !a.TakeAck? && !a.AgeOut? && Enabled(s, a)
    ensures SameSent(s, DoImport(s, a), h)
  {
  }

  lemma UnimportSent(s: Ctx, a: Act, h: nat)
    requires ByUnimport(a) && Enabled(s, a) && !a.Free? && !a.SendUnimport?
    ensures SameSent(s, DoUnimport(s, a), h)
  {
    hide Erase;
  }

  lemma ReceiveSent(s: Ctx, a: Act, h: nat)
    requires ByReceive(a) && Enabled(s, a) && !a.Receive?
    ensures SameSent(s, DoReceive(s, a), h)
  {
  }

  lemma DrainSent(s: Ctx, a: Act, h: nat)
    requires ByDrain(a) && Enabled(s, a) && !a.PopSend?
    ensures SameSent(s, DoDrain(s, a), h)
  {
    hide Erase;
  }

  lemma RefusalsKept(s: Ctx, a: Act, t: nat)
    requires Inv(s) && s.proto == 1 && Enabled(s, a) && !a.Receive?
    ensures Refuses(Do(s, a), t) <==> Refuses(s, t) && a != RejectSend(t)
    ensures Refuses(Do(s, a), t) ==> Do(s, a).threads[t].desc == s.threads[t].desc
  {
    hide Inv, DoImport, CanImport, DoUnimport, CanUnimport, DoReceive, CanReceive, DoDrain, CanDrain;
    Frame(s, a);
    if IsBy(a, t) {
      if ByImport(a) { ImportRefuses(s, a); }
      else if ByUnimport(a) { UnimportRefuses(s, a); }
      else { ReceiveRefuses(s, a); }
    }
  }

  lemma ImportRefuses(s: Ctx, a: Act)
    requires ByImport(a) && !a.AgeOut? && Enabled(s, a)
    ensures !Refuses(DoImport(s, a), a.t) && !Refuses(s, a.t)
  {
    hide SetNode, Own, Without;
  }

  lemma UnimportRefuses(s: Ctx, a: Act)
    requires ByUnimport(a) && Enabled(s, a)
    ensures !Refuses(DoUnimport(s, a), a.t) && !Refuses(s, a.t)
  {
    hide SetNode, MarkSent, Erase, Release;
  }

  lemma ReceiveRefuses(s: Ctx, a: Act)
    requires ByReceive(a) && Enabled(s, a) && !a.Receive?
    ensures Refuses(DoReceive(s, a), a.t) <==> Refuses(s, a.t) && !a.RejectSend?
    ensures Refuses(DoReceive(s, a), a.t) ==> DoReceive(s, a).threads[a.t].desc == s.threads[a.t].desc
  {
    hide Own;
  }

  lemma ReceiveEffect(s: Ctx, a: Act, h: nat, t: nat)
    requires Inv(s) && s.proto == 1 && Enabled(s, a) && a.Receive?
    ensures Unsent(Do(s, a), h) <==> Unsent(s, h) || (h == s.next && a.outcome == Valid && a.desc.key !in s.whse)
    ensures Unsent(Do(s, a), h) ==> Do(s, a).heap[h].desc == if h == s.next then a.desc else s.heap[h].desc
    ensures Refuses(Do(s, a), t) <==> Refuses(s, t) || (t == a.t && a.outcome == Invalid)
    ensures Refuses(Do(s, a), t) ==> Do(s, a).threads[t].desc == if t == a.t then a.desc else s.threads[t].desc
  {
    hide DoImport, CanImport, DoUnimport, CanUnimport, DoDrain, CanDrain;
    hide TreeInv, QueueInv, DrainInv, ThreadInv, NodeInv;
    FreshNode(s);
  }

  /** What a step retires was unsent, and an UNIMPORT is sent only for that or for a refused descriptor. */
  lemma UnimportSource(s: Ctx, a: Act)
    requires Inv(s) && s.proto == 1 && Enabled(s, a)
    ensures Retires(s, a).Some? ==> Unsent(s, Retires(s, a).value)
    ensures a.RejectSend? ==> Refuses(s, a.t) && Unimports(s, a) == Some(s.threads[a.t].desc.key)
    ensures Unimports(s, a).Some? && !a.RejectSend? ==>
      Retires(s, a).Some? && Unimports(s, a).value == s.heap[Retires(s, a).value].desc.key
  {
    hide TreeInv, QueueInv;
    if a.SendUnimport? { assert ThreadInv(s, a.t, s.threads[a.t]); }
    if a.PopSend? { assert NodeInv(s, s.drain.h, s.heap[s.drain.h]); }
  }

  /**
   And it is sent: a node stops being `Unsent` only by a step that sends UNIMPORT of its key, or because its
   unmapping failed in teardown; a refused descriptor is let go of only by a step that sends UNIMPORT of its key.
   */
  lemma {:induction false} UnimportsExactly(s: Ctx, a: Act, h: nat, t: nat)
    requires Inv(s) && s.proto == 1 && Enabled(s, a)
    ensures Unsent(s, h) && !Unsent(Do(s, a), h) && a != PopSend(false) ==> Unimports(s, a) == Some(s.heap[h].desc.key)
    ensures Refuses(s, t) && !Refuses(Do(s, a), t) ==> Unimports(s, a) == Some(s.threads[t].desc.key)
  {
    if a.Receive? {
      ReceiveEffect(s, a, h, t);
    } else {
      UnsentKept(s, a, h);
      RefusalsKept(s, a, t);
    }
    hide Inv, Do;
  }
}
