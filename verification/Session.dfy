/**
 Opening, using and closing virtual channels between the frontends and the backends of one
 device: the INIT / INIT_ACK / INIT_DONE handshake over the shared open queues, then messages
 routed by (12-bit id, session).  Any number of openers, listeners and physical channels; runs
 without cancellation and with matching versions.
 */
module Session {
  import opened Common

  /** The frontends are on one side of the device, the backends on the other. */
  datatype Side = Fe | Be

  function Peer(side: Side): Side { if side == Fe then Be else Fe }

  /** An open: the frontend's open id, which becomes the session id, on a physical channel. */
  datatype Key = Key(pchan: nat, openId: nat)

  datatype Kind = Init | Ack | Done

  datatype Item = Data(bytes: Bytes) | Close

  datatype Msg =
    | Hs(kind: Kind, openId: nat, sub: nat, vcid: nat)
    | ToVchan(id: nat, session: nat, item: Item)

  /** `struct hab_open_request`, as queued by the receive path */
  datatype Req = Req(kind: Kind, key: Key, sub: nat, vcid: nat)

  /** How far the opening thread has got with its virtual channel. */
  datatype Phase =
    | Fresh             // frontend: allocated
    | Waiting           // INIT is sent
    | Got(vcid: nat)    // INIT_ACK is off the queue
    | Paired            // otherend_id is set, INIT_DONE not sent yet
    | Taken(vcid: nat)  // backend: INIT is off the queue
    | Alloced(vcid: nat)
    | Ready             // otherend_id is set, INIT_ACK not sent yet
    | Acked             // waits for INIT_DONE
    | Opened
    | Freed

  /** `struct virtual_channel`; 0 in `id` or `other` means not set.  A freed one is kept as a record. */
  datatype End = End(
    side: Side, key: Key, sub: nat, id: nat, other: nat, phase: Phase,
    closed: bool, otherClosed: bool, notified: bool, rx: seq<Bytes>, got: seq<Bytes>
  )

  /** One direction of a physical channel, named by the side it leads to. */
  datatype Port = Port(side: Side, pchan: nat)

  datatype Slot = Slot(port: Port, id: nat)
  datatype Tag = Tag(side: Side, key: Key)
  datatype HsTag = HsTag(kind: Kind, key: Key)

  /** Where the one handshake message of a kind is.  A history variable of the proof. */
  datatype Place = Unsent | InChannel | InQueue | Used

  /**
   History of one direction of a session: what was sent, what has left the physical channel,
   what was queued for the receiver, and whether the receiver once failed to allocate.
   */
  datatype Log = Log(sent: seq<Item>, seen: seq<Item>, accepted: seq<Bytes>, lost: bool)

  /** A message on its way from the physical channel to a receive queue; the reference on `e` is held. */
  datatype Hand = Hand(e: nat, bytes: Bytes)

  datatype Sys = Sys(
    ends: map<nat, End>, next: nat, idr: map<Slot, nat>, chans: map<Port, seq<Msg>>, openq: map<Side, seq<Req>>,
    hands: map<Port, Hand>,
    endOf: map<Tag, nat>, places: map<HsTag, Place>, logs: map<Tag, Log>  // history variables
  )

  datatype Act =
    | FeOpen(key: Key, sub: nat, id: nat)
    | FeInit(e: nat)
    | FeTake(e: nat, i: nat)
    | FePair(e: nat)
    | FeDone(e: nat)
    | FeFail(e: nat)
    | BeTake(i: nat, sub: nat)
    | BeAlloc(e: nat, id: nat)
    | BeNoAlloc(e: nat)
    | BePair(e: nat)
    | BeAck(e: nat)
    | BeFail(e: nat)
    | BeDone(e: nat, i: nat)
    | Arrive(port: Port, stored: bool)
    | Expire(side: Side, i: nat)
    | Send(e: nat, bytes: Bytes)
    | MarkClosed(e: nat)
    | Notify(e: nat)
    | Stop(e: nat)
    | Free(e: nat)
    | Take(port: Port, stored: bool)
    | Enqueue(port: Port)
    | Recv(e: nat, room: nat)

  function Chan(s: Sys, port: Port): seq<Msg> { if port in s.chans then s.chans[port] else [] }

  function Queue(s: Sys, side: Side): seq<Req> { if side in s.openq then s.openq[side] else [] }

  function PlaceOf(s: Sys, kind: Kind, key: Key): Place {
    if HsTag(kind, key) in s.places then s.places[HsTag(kind, key)] else Unsent
  }

  function LogOf(s: Sys, side: Side, key: Key): Log {
    if Tag(side, key) in s.logs then s.logs[Tag(side, key)] else Log([], [], [], false)
  }

  /** `hab_open_request_find`: what a listener accepts; 0 and `None` are its wildcards. */
  predicate Match(r: Req, kind: Kind, sub: nat, openId: nat, pchan: Option<nat>) {
    r.kind == kind && r.sub == sub && (openId == 0 || r.key.openId == openId) && (pchan == None || r.key.pchan == pchan.value)
  }

  /** Entry `i` is the first one the listener accepts. */
  predicate First(q: seq<Req>, i: nat, kind: Kind, sub: nat, openId: nat, pchan: Option<nat>) {
    i < |q| && Match(q[i], kind, sub, openId, pchan) && forall j :: 0 <= j < i ==> !Match(q[j], kind, sub, openId, pchan)
  }

  /** An id `idr_alloc` may return: 12 bits, not 0, not in use. */
  predicate FreeSlot(s: Sys, port: Port, id: nat) { 1 <= id <= 0xFFF && Slot(port, id) !in s.idr }

  predicate In(s: Sys, e: nat, side: Side, phases: set<Phase>) {
    e in s.ends && s.ends[e].side == side && s.ends[e].phase in phases
  }

  predicate IsOpen(s: Sys, e: nat) { e in s.ends && s.ends[e].phase == Opened }

  /** The receive path holds no reference. */
  predicate NotHeld(s: Sys, e: nat) { forall port :: port in s.hands ==> s.hands[port].e != e }

  function PortOf(v: End): Port { Port(v.side, v.key.pchan) }

  function PeerPort(v: End): Port { Port(Peer(v.side), v.key.pchan) }

  predicate ByFe(a: Act) { a.FeOpen? || a.FeInit? || a.FeTake? || a.FePair? || a.FeDone? || a.FeFail? }

  predicate ByBe(a: Act) { a.BeTake? || a.BeAlloc? || a.BeNoAlloc? || a.BePair? || a.BeAck? || a.BeFail? || a.BeDone? }

  predicate CanFe(s: Sys, a: Act) {
    match a
    case FeOpen(key, _, id) => FreeSlot(s, Port(Fe, key.pchan), id)
    case FeInit(e) => In(s, e, Fe, {Fresh})
    case FeTake(e, i) =>
      && In(s, e, Fe, {Waiting})
      && First(Queue(s, Fe), i, Ack, s.ends[e].sub, s.ends[e].key.openId, Some(s.ends[e].key.pchan))
    case FePair(e) => e in s.ends && s.ends[e].phase.Got?
    case FeDone(e) => In(s, e, Fe, {Paired})
    case FeFail(e) => In(s, e, Fe, {Fresh, Paired}) && NotHeld(s, e)
    case _ => false
  }

  predicate CanBe(s: Sys, a: Act) {
    match a
    case BeTake(i, sub) => First(Queue(s, Be), i, Init, sub, 0, None)
    case BeAlloc(e, id) => e in s.ends && s.ends[e].phase.Taken? && FreeSlot(s, PortOf(s.ends[e]), id)
    case BeNoAlloc(e) => e in s.ends && s.ends[e].phase.Taken?
    case BePair(e) => e in s.ends && s.ends[e].phase.Alloced?
    case BeAck(e) => In(s, e, Be, {Ready})
    case BeFail(e) => In(s, e, Be, {Ready, Acked}) && NotHeld(s, e)
    case BeDone(e, i) =>
      && In(s, e, Be, {Acked})
      && First(Queue(s, Be), i, Done, s.ends[e].sub, s.ends[e].key.openId, Some(s.ends[e].key.pchan))
    case _ => false
  }

  predicate CanPass(s: Sys, a: Act) {
    match a
    case Arrive(port, _) => Chan(s, port) != [] && Chan(s, port)[0].Hs?
    case Expire(side, i) => i < |Queue(s, side)|
    case Send(e, _) => IsOpen(s, e)
    case MarkClosed(e) => IsOpen(s, e) && !s.ends[e].closed
    case Notify(e) => IsOpen(s, e) && s.ends[e].closed && !s.ends[e].otherClosed && !s.ends[e].notified
    case Stop(e) => IsOpen(s, e) && s.ends[e].closed
    case Free(e) => IsOpen(s, e) && s.ends[e].closed && s.ends[e].otherClosed && NotHeld(s, e)
    case Take(port, _) => Chan(s, port) != [] && Chan(s, port)[0].ToVchan? && port !in s.hands
    case Enqueue(port) => port in s.hands && s.hands[port].e in s.ends
    case Recv(e, _) => IsOpen(s, e)
    case _ => false
  }

  predicate Enabled(s: Sys, a: Act) {
    if ByFe(a) then CanFe(s, a) else if ByBe(a) then CanBe(s, a) else CanPass(s, a)
  }

  function SetEnd(s: Sys, e: nat, v: End): (r: Sys)
    ensures r == s.(ends := r.ends)
  { s.(ends := s.ends[e := v]) }

  function Goto(s: Sys, e: nat, phase: Phase): (r: Sys)
    requires e in s.ends
    ensures r == s.(ends := r.ends)
  {
    SetEnd(s, e, s.ends[e].(phase := phase))
  }

  function Push(s: Sys, port: Port, m: Msg): (r: Sys)
    ensures r == s.(chans := r.chans)
  { s.(chans := s.chans[port := Chan(s, port) + [m]]) }

  function SetPlace(s: Sys, kind: Kind, key: Key, place: Place): (r: Sys)
    ensures r == s.(places := r.places)
  { s.(places := s.places[HsTag(kind, key) := place]) }

  function SendHs(s: Sys, side: Side, kind: Kind, v: End, vcid: nat): (r: Sys)
    ensures r == s.(chans := r.chans, places := r.places)
  {
    SetPlace(Push(s, Port(side, v.key.pchan), Hs(kind, v.key.openId, v.sub, vcid)), kind, v.key, InChannel)
  }

  /** Entry `i` leaves the open queue. */
  function Unqueue(s: Sys, side: Side, i: nat): (r: Sys)
    requires i < |Queue(s, side)|
    ensures r == s.(openq := r.openq, places := r.places)
  {
    var q := Queue(s, side);
    SetPlace(s.(openq := s.openq[side := q[..i] + q[i + 1..]]), q[i].kind, q[i].key, Used)
  }

  function Release(s: Sys, e: nat): (r: Sys)
    requires e in s.ends
    ensures r == s.(ends := r.ends, idr := r.idr)
  {
    SetEnd(s, e, s.ends[e].(phase := Freed, rx := [])).(idr := s.idr - {Slot(PortOf(s.ends[e]), s.ends[e].id)})
  }

  /** `hab_vchan_get`: found under its id, same session, paired and not closed at either end. */
  predicate Finds(s: Sys, port: Port, m: Msg) {
    && m.ToVchan? && Slot(port, m.id) in s.idr && s.idr[Slot(port, m.id)] in s.ends
    && var v := s.ends[s.idr[Slot(port, m.id)]];
       v.key.openId == m.session && v.other != 0 && !v.otherClosed && !v.closed
  }

  function Post(s: Sys, v: End, item: Item): (r: Sys)
    ensures r == s.(chans := r.chans, logs := r.logs)
  {
    var log := LogOf(s, Peer(v.side), v.key);
    Push(s, PeerPort(v), ToVchan(v.other, v.key.openId, item)).(logs := s.logs[Tag(Peer(v.side), v.key) := log.(sent := log.sent + [item])])
  }

  /** The message at the head leaves the channel. */
  function Pop(s: Sys, port: Port): (r: Sys)
    requires Chan(s, port) != [] && Chan(s, port)[0].ToVchan?
    ensures r == s.(chans := r.chans, logs := r.logs)
  {
    var m, tag := Chan(s, port)[0], Tag(port.side, Key(port.pchan, Chan(s, port)[0].session));
    var log := LogOf(s, tag.side, tag.key);
    s.(chans := s.chans[port := Chan(s, port)[1..]], logs := s.logs[tag := log.(seen := log.seen + [m.item])])
  }

  /** The receive path has found virtual channel `e` for the item; `stored`: there is memory for it. */
  function Deliver(s: Sys, port: Port, e: nat, item: Item, stored: bool): Sys
    requires e in s.ends
  {
    var v := s.ends[e];
    if item.Close? then SetEnd(s, e, v.(otherClosed := true))
    else if stored then s.(hands := s.hands[port := Hand(e, item.bytes)])
    else s.(logs := s.logs[Tag(v.side, v.key) := LogOf(s, v.side, v.key).(lost := true)])
  }

  /** `frontend_open` */
  function DoFe(s: Sys, a: Act): Sys
    requires CanFe(s, a)
  {
    match a
    case FeOpen(key, sub, id) =>
      s.(ends := s.ends[s.next := End(Fe, key, sub, id, 0, Fresh, false, false, false, [], [])], next := s.next + 1,
         idr := s.idr[Slot(Port(Fe, key.pchan), id) := s.next], endOf := s.endOf[Tag(Fe, key) := s.next])
    case FeInit(e) => Goto(SendHs(s, Be, Init, s.ends[e], s.ends[e].id), e, Waiting)
    case FeTake(e, i) => Goto(Unqueue(s, Fe, i), e, Got(Queue(s, Fe)[i].vcid))
    case FePair(e) => SetEnd(s, e, s.ends[e].(other := s.ends[e].phase.vcid, phase := Paired))
    case FeDone(e) => Goto(SendHs(s, Be, Done, s.ends[e], 0), e, Opened)
    case FeFail(e) => Release(s, e)
  }

  /** `backend_listen` */
  function DoBe(s: Sys, a: Act): Sys
    requires CanBe(s, a)
  {
    match a
    case BeTake(i, sub) =>
      var r := Queue(s, Be)[i];
      Unqueue(s, Be, i).(
        ends := s.ends[s.next := End(Be, r.key, sub, 0, 0, Taken(r.vcid), false, false, false, [], [])], next := s.next + 1,
        endOf := s.endOf[Tag(Be, r.key) := s.next])
    case BeAlloc(e, id) =>
      SetEnd(s, e, s.ends[e].(id := id, phase := Alloced(s.ends[e].phase.vcid))).(idr := s.idr[Slot(PortOf(s.ends[e]), id) := e])
    case BeNoAlloc(e) => SetEnd(s, e, s.ends[e].(phase := Freed, rx := []))
    case BePair(e) => SetEnd(s, e, s.ends[e].(other := s.ends[e].phase.vcid, phase := Ready))
    case BeAck(e) => Goto(SendHs(s, Fe, Ack, s.ends[e], s.ends[e].id), e, Acked)
    case BeFail(e) => Release(s, e)
    case BeDone(e, i) => Goto(Unqueue(s, Be, i), e, Opened)
  }

  /** the receive path, messages and closing */
  function DoPass(s: Sys, a: Act): Sys
    requires CanPass(s, a)
  {
    match a
    case Arrive(port, stored) =>
      var m, key := Chan(s, port)[0], Key(port.pchan, Chan(s, port)[0].openId);
      var s1 := s.(chans := s.chans[port := Chan(s, port)[1..]]);
      if stored
      then SetPlace(s1.(openq := s.openq[port.side := Queue(s, port.side) + [Req(m.kind, key, m.sub, m.vcid)]]), m.kind, key, InQueue)
      else SetPlace(s1, m.kind, key, Used)
    case Expire(side, i) => Unqueue(s, side, i)
    case Send(e, bytes) => Post(s, s.ends[e], Data(bytes))
    case MarkClosed(e) => SetEnd(s, e, s.ends[e].(closed := true))
    case Notify(e) => SetEnd(Post(s, s.ends[e], Close), e, s.ends[e].(notified := true))
    case Stop(e) => SetEnd(s, e, s.ends[e].(otherClosed := true))
    case Free(e) => Release(s, e)
    case Take(port, stored) =>
      var m := Chan(s, port)[0];
      if !Finds(s, port, m) then Pop(s, port) else Deliver(Pop(s, port), port, s.idr[Slot(port, m.id)], m.item, stored)
    case Enqueue(port) =>
      var h := s.hands[port];
      var v := s.ends[h.e];
      var log := LogOf(s, v.side, v.key);
      SetEnd(s, h.e, v.(rx := v.rx + [h.bytes])).(
        hands := s.hands - {port}, logs := s.logs[Tag(v.side, v.key) := log.(accepted := log.accepted + [h.bytes])])
    case Recv(e, room) =>
      var d := Dequeue(s.ends[e].rx, s.ends[e].otherClosed, room, Woken);
      if d.ret == Ok then SetEnd(s, e, s.ends[e].(rx := d.rx, got := s.ends[e].got + [d.msg])) else s
  }

  function Do(s: Sys, a: Act): Sys
    requires Enabled(s, a)
  {
    if ByFe(a) then DoFe(s, a) else if ByBe(a) then DoBe(s, a) else DoPass(s, a)
  }

  // ---------------------------------------------------------------- hab_msg_dequeue

  /** How the wait before the lock ended; `Woken` also stands for a call that does not wait. */
  datatype Wait = Woken | TimedOut | Interrupted

  datatype Code = Ok | Overflow | NoDevice | Intr | Timeout | Again

  /** Return code, message, value left in `rsize`, and the queue afterwards. */
  datatype Dequeued = Dequeued(ret: Code, msg: Bytes, rsize: nat, rx: seq<Bytes>)

  function Dequeue(rx: seq<Bytes>, otherClosed: bool, room: nat, wait: Wait): (d: Dequeued)
    ensures d.ret == Ok <==> rx != [] && |rx[0]| <= room
    ensures d.ret == Ok ==> rx == [d.msg] + d.rx && d.rsize == |d.msg|
    ensures d.ret != Ok ==> d.rx == rx
    ensures d.ret == Overflow <==> rx != [] && d.rsize == |rx[0]| > room
    ensures d.ret == NoDevice <==> rx == [] && otherClosed
    ensures d.ret == Intr <==> rx == [] && !otherClosed && wait.Interrupted?
    ensures d.ret == Timeout <==> rx == [] && !otherClosed && wait.TimedOut?
    ensures d.ret == Again <==> rx == [] && !otherClosed && wait.Woken?
    ensures rx == [] ==> d.rsize == 0
  {
    if rx != [] then
      if |rx[0]| <= room then Dequeued(Ok, rx[0], |rx[0]|, rx[1..]) else Dequeued(Overflow, [], |rx[0]|, rx)
    else if otherClosed then Dequeued(NoDevice, [], 0, rx)
    else if wait.Interrupted? then Dequeued(Intr, [], 0, rx)
    else if wait.TimedOut? then Dequeued(Timeout, [], 0, rx)
    else Dequeued(Again, [], 0, rx)
  }

  // ---------------------------------------------------------------- runs

  predicate Start(s: Sys) {
    && s.ends == map[] && s.idr == map[] && s.chans == map[] && s.openq == map[] && s.hands == map[]
    && s.endOf == map[] && s.places == map[] && s.logs == map[]
  }

  /** Open ids are distinct on a physical channel, and not 0. */
  predicate Allowed(s: Sys, a: Act) { a.FeOpen? ==> a.key.openId != 0 && Tag(Fe, a.key) !in s.endOf }

  predicate Leads(s: Sys, a: Act, s': Sys) { Enabled(s, a) && Allowed(s, a) && s' == Do(s, a) }

  predicate IsRun(ss: seq<Sys>, steps: seq<Act>) {
    && |ss| == |steps| + 1 && Start(ss[0])
    && forall i :: 0 <= i < |steps| ==> Leads(ss[i], steps[i], ss[i + 1])
  }
}
