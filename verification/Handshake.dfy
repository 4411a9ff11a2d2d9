/** What the handshake of module Session guarantees. */
module Handshake {
  import opened Common
  import opened Session

  predicate HasEnd(s: Sys, side: Side, key: Key) { Tag(side, key) in s.endOf && s.endOf[Tag(side, key)] in s.ends }

  function EndAt(s: Sys, side: Side, key: Key): End
    requires HasEnd(s, side, key)
  {
    s.ends[s.endOf[Tag(side, key)]]
  }

  predicate FePhase(p: Phase) { p.Fresh? || p.Waiting? || p.Got? || p.Paired? || p.Opened? || p.Freed? }

  predicate BePhase(p: Phase) { p.Taken? || p.Alloced? || p.Ready? || p.Acked? || p.Opened? || p.Freed? }

  /** The record of a virtual channel: one per side and key, under its id until it is freed. */
  predicate EndOk(s: Sys, e: nat, v: End) {
    && e < s.next && v.key.openId != 0
    && Tag(v.side, v.key) in s.endOf && s.endOf[Tag(v.side, v.key)] == e
    && (v.side == Fe ==> FePhase(v.phase) && v.id != 0)
    && (v.side == Be ==> BePhase(v.phase) && (v.phase.Taken? ==> v.id == 0) && (!v.phase.Taken? && !v.phase.Freed? ==> v.id != 0))
    && (v.phase != Freed && v.id != 0 ==> Slot(PortOf(v), v.id) in s.idr && s.idr[Slot(PortOf(v), v.id)] == e)
  }

  predicate SlotOk(s: Sys, slot: Slot, e: nat) {
    e in s.ends && PortOf(s.ends[e]) == slot.port && s.ends[e].id == slot.id && s.ends[e].id != 0 && s.ends[e].phase != Freed
  }

  /** The frontend of `key` was opened for this minor id. */
  predicate SubIs(s: Sys, key: Key, sub: nat) { HasEnd(s, Fe, key) && EndAt(s, Fe, key).sub == sub }

  /** The frontend with this id sent the INIT of `key`. */
  predicate FeIs(s: Sys, key: Key, id: nat) { HasEnd(s, Fe, key) && EndAt(s, Fe, key).id == id && id != 0 }

  /** The backend with this id is paired with the frontend of `key`. */
  predicate BeIs(s: Sys, key: Key, id: nat) {
    && HasEnd(s, Be, key) && EndAt(s, Be, key).id == id && id != 0
    && HasEnd(s, Fe, key) && EndAt(s, Be, key).other == EndAt(s, Fe, key).id && EndAt(s, Fe, key).id != 0
  }

  /** Both ends of `key` hold each other's ids. */
  predicate Linked(s: Sys, key: Key) {
    HasEnd(s, Fe, key) && EndAt(s, Fe, key).other != 0 && BeIs(s, key, EndAt(s, Fe, key).other)
  }

  predicate KeyOk(s: Sys, key: Key) {
    && (HasEnd(s, Be, key) ==> HasEnd(s, Fe, key) && PlaceOf(s, Init, key) == Used && SubIs(s, key, EndAt(s, Be, key).sub))
    && (!HasEnd(s, Fe, key) ==> PlaceOf(s, Init, key) == Unsent)
    && (!HasEnd(s, Be, key) ==> PlaceOf(s, Ack, key) == Unsent)
    && (HasEnd(s, Fe, key) ==> FeOk(s, key, EndAt(s, Fe, key)))
    && (HasEnd(s, Be, key) ==> BeOk(s, key, EndAt(s, Be, key)))
    && (PlaceOf(s, Ack, key) != Unsent ==> HasEnd(s, Be, key) && BeIs(s, key, EndAt(s, Be, key).id))
    && (PlaceOf(s, Done, key) != Unsent ==> Linked(s, key))
  }

  predicate FeOk(s: Sys, key: Key, f: End) {
    && (f.phase == Fresh ==> PlaceOf(s, Init, key) == Unsent)
    && (f.phase.Got? ==> PlaceOf(s, Ack, key) == Used && BeIs(s, key, f.phase.vcid))
    && (f.other != 0 ==> Linked(s, key))
    && (f.phase.Fresh? || f.phase.Waiting? || f.phase.Got? ==> f.other == 0)
    && (f.phase in {Paired, Opened} ==> f.other != 0)
    && (!f.phase.Opened? && !f.phase.Freed? ==> PlaceOf(s, Done, key) == Unsent)
  }

  predicate BeOk(s: Sys, key: Key, b: End) {
    && (b.phase.Taken? || b.phase.Alloced? ==> FeIs(s, key, b.phase.vcid) && b.other == 0)
    && (b.phase in {Ready, Acked, Opened} ==> BeIs(s, key, b.id))
    && (b.phase == Opened ==> Linked(s, key))
    && (b.phase.Taken? || b.phase.Alloced? || b.phase.Ready? ==> PlaceOf(s, Ack, key) == Unsent)
  }

  predicate MsgOk(s: Sys, port: Port, m: Msg) {
    match m
    case Hs(kind, openId, sub, vcid) =>
      && PlaceOf(s, kind, Key(port.pchan, openId)) == InChannel
      && SubIs(s, Key(port.pchan, openId), sub) && HsOk(s, port.side, kind, Key(port.pchan, openId), vcid)
    case ToVchan(id, session, _) =>
      var key := Key(port.pchan, session);
      Linked(s, key) && HasEnd(s, port.side, key) && id == EndAt(s, port.side, key).id
  }

  predicate HsOk(s: Sys, side: Side, kind: Kind, key: Key, vcid: nat) {
    match kind
    case Init => side == Be && FeIs(s, key, vcid)
    case Ack => side == Fe && BeIs(s, key, vcid)
    case Done => side == Be
  }

  predicate ReqOk(s: Sys, side: Side, r: Req) {
    PlaceOf(s, r.kind, r.key) == InQueue && SubIs(s, r.key, r.sub) && HsOk(s, side, r.kind, r.key, r.vcid)
  }

  /** No two handshake messages of one kind and key. */
  predicate Distinct(q: seq<Msg>) {
    forall i, j :: 0 <= i < j < |q| && q[i].Hs? && q[j].Hs? ==> q[i].kind != q[j].kind || q[i].openId != q[j].openId
  }

  predicate DistinctReqs(q: seq<Req>) {
    forall i, j :: 0 <= i < j < |q| ==> q[i].kind != q[j].kind || q[i].key != q[j].key
  }

  predicate ChanOk(s: Sys, port: Port, q: seq<Msg>) {
    Distinct(q) && forall i :: 0 <= i < |q| ==> MsgOk(s, port, q[i])
  }

  predicate QueueOk(s: Sys, side: Side, q: seq<Req>) {
    DistinctReqs(q) && forall i :: 0 <= i < |q| ==> ReqOk(s, side, q[i])
  }

  predicate EndsInv(s: Sys) {
    && (forall e :: e in s.ends ==> EndOk(s, e, s.ends[e]))
    && (forall tag :: tag in s.endOf ==> s.endOf[tag] in s.ends && Tag(s.ends[s.endOf[tag]].side, s.ends[s.endOf[tag]].key) == tag)
    && (forall slot :: slot in s.idr ==> SlotOk(s, slot, s.idr[slot]))
  }

  predicate ChansInv(s: Sys) { forall port :: port in s.chans ==> ChanOk(s, port, s.chans[port]) }

  predicate QueuesInv(s: Sys) { forall side :: side in s.openq ==> QueueOk(s, side, s.openq[side]) }

  ghost predicate Inv(s: Sys) { EndsInv(s) && ChansInv(s) && QueuesInv(s) && forall key :: KeyOk(s, key) }

  // ---------------------------------------------------------------- frames

  /** What a step may do to the record of a virtual channel. */
  predicate Grows(v: End, v': End) {
    v'.side == v.side && v'.key == v.key && v'.sub == v.sub && (v.id != 0 ==> v'.id == v.id) && (v.other != 0 ==> v'.other == v.other)
  }

  /** The ends of `key` are still there and keep their ids. */
  predicate KeyGrows(s: Sys, s': Sys, key: Key) {
    && (HasEnd(s, Fe, key) ==> HasEnd(s', Fe, key) && Grows(EndAt(s, Fe, key), EndAt(s', Fe, key)))
    && (HasEnd(s, Be, key) ==> HasEnd(s', Be, key) && Grows(EndAt(s, Be, key), EndAt(s', Be, key)))
  }

  predicate Alike(v: End, v': End) { v'.sub == v.sub && v'.id == v.id && v'.other == v.other && v'.phase == v.phase }

  predicate SidesAlike(s: Sys, s': Sys, side: Side, key: Key) {
    (HasEnd(s, side, key) <==> HasEnd(s', side, key)) && (HasEnd(s, side, key) ==> Alike(EndAt(s, side, key), EndAt(s', side, key)))
  }

  /** Nothing about `key` has changed but closing and messages. */
  predicate SameKey(s: Sys, s': Sys, key: Key) {
    && SidesAlike(s, s', Fe, key) && SidesAlike(s, s', Be, key)
    && PlaceOf(s', Init, key) == PlaceOf(s, Init, key)
    && PlaceOf(s', Ack, key) == PlaceOf(s, Ack, key)
    && PlaceOf(s', Done, key) == PlaceOf(s, Done, key)
  }

  lemma KeyKept(s: Sys, s': Sys, key: Key)
    requires SameKey(s, s', key) && KeyOk(s, key)
    ensures KeyOk(s', key)
  {
  }

  lemma HsKept(s: Sys, s': Sys, side: Side, kind: Kind, key: Key, vcid: nat)
    requires KeyGrows(s, s', key) && HsOk(s, side, kind, key, vcid)
    ensures HsOk(s', side, kind, key, vcid) && forall sub :: SubIs(s, key, sub) ==> SubIs(s', key, sub)
  {
  }

  lemma LinkedKept(s: Sys, s': Sys, key: Key)
    requires KeyGrows(s, s', key) && Linked(s, key)
    ensures Linked(s', key) && HasEnd(s, Fe, key) && HasEnd(s', Fe, key) && HasEnd(s, Be, key) && HasEnd(s', Be, key)
    ensures EndAt(s', Fe, key).id == EndAt(s, Fe, key).id && EndAt(s', Be, key).id == EndAt(s, Be, key).id
  {
  }

  /** A message stays in order when its key's ends do and its kind of message has not moved. */
  lemma MsgKept(s: Sys, s': Sys, port: Port, m: Msg)
    requires MsgOk(s, port, m)
    requires m.Hs? ==> KeyGrows(s, s', Key(port.pchan, m.openId)) && PlaceOf(s', m.kind, Key(port.pchan, m.openId)) == InChannel
    requires m.ToVchan? ==> KeyGrows(s, s', Key(port.pchan, m.session))
    ensures MsgOk(s', port, m)
  {
    hide KeyGrows, HsOk, Linked;
    if m.Hs? {
      HsKept(s, s', port.side, m.kind, Key(port.pchan, m.openId), m.vcid);
    } else {
      LinkedKept(s, s', Key(port.pchan, m.session));
      assert port.side == Fe || port.side == Be;
    }
  }

  ghost predicate AllGrow(s: Sys, s': Sys) { forall key :: KeyGrows(s, s', key) }

  /** Only the message of `tag` may have moved. */
  ghost predicate OnlyPlace(s: Sys, s': Sys, tag: HsTag) {
    forall kind, key :: HsTag(kind, key) != tag ==> PlaceOf(s', kind, key) == PlaceOf(s, kind, key)
  }

  /** The message of `tag` was not at `place`, or has not moved. */
  predicate NotFrom(s: Sys, s': Sys, tag: HsTag, place: Place) {
    PlaceOf(s, tag.kind, tag.key) != place || PlaceOf(s', tag.kind, tag.key) == place
  }

  lemma ChanKept(s: Sys, s': Sys, tag: HsTag, port: Port, q: seq<Msg>)
    requires AllGrow(s, s') && OnlyPlace(s, s', tag) && NotFrom(s, s', tag, InChannel) && ChanOk(s, port, q)
    ensures ChanOk(s', port, q)
  {
    hide KeyGrows, Linked, HsOk;
    forall i | 0 <= i < |q| ensures MsgOk(s', port, q[i]) {
      assert MsgOk(s, port, q[i]);
      MsgKept(s, s', port, q[i]);
    }
  }

  lemma ChansKept(s: Sys, s': Sys, tag: HsTag)
    requires AllGrow(s, s') && OnlyPlace(s, s', tag) && NotFrom(s, s', tag, InChannel) && ChansInv(s) && s'.chans == s.chans
    ensures ChansInv(s')
  {
    hide AllGrow, OnlyPlace, ChanOk;
    forall port | port in s.chans ensures ChanOk(s', port, s.chans[port]) { ChanKept(s, s', tag, port, s.chans[port]); }
  }

  /** A message is sent; a handshake message is the first of its kind. */
  lemma ChanPushed(s: Sys, s': Sys, tag: HsTag, port: Port, m: Msg)
    requires AllGrow(s, s') && OnlyPlace(s, s', tag) && NotFrom(s, s', tag, InChannel) && ChansInv(s)
    requires s'.chans == s.chans[port := Chan(s, port) + [m]] && MsgOk(s', port, m)
    requires m.Hs? ==> PlaceOf(s, m.kind, Key(port.pchan, m.openId)) == Unsent
    ensures ChansInv(s')
  {
    hide AllGrow, OnlyPlace, NotFrom, KeyGrows, Linked, HsOk;
    forall x | x in s'.chans ensures ChanOk(s', x, s'.chans[x]) {
      assert ChanOk(s, x, Chan(s, x));
      ChanKept(s, s', tag, x, Chan(s, x));
      if x == port && m.Hs? {
        forall i | 0 <= i < |Chan(s, x)| && Chan(s, x)[i].Hs?
          ensures Chan(s, x)[i].kind != m.kind || Chan(s, x)[i].openId != m.openId
        {
          assert MsgOk(s, x, Chan(s, x)[i]);
        }
      }
    }
  }

  /** The message at the head of a channel leaves it. */
  lemma ChanPopped(s: Sys, s': Sys, tag: HsTag, port: Port)
    requires AllGrow(s, s') && OnlyPlace(s, s', tag) && ChansInv(s) && Chan(s, port) != []
    requires s'.chans == s.chans[port := Chan(s, port)[1..]]
    requires var m := Chan(s, port)[0]; if m.Hs? then tag == HsTag(m.kind, Key(port.pchan, m.openId)) else NotFrom(s, s', tag, InChannel)
    ensures ChansInv(s')
  {
    hide AllGrow, KeyGrows, Linked;
    forall x | x in s'.chans ensures ChanOk(s', x, s'.chans[x]) {
      assert ChanOk(s, x, Chan(s, x)) && ChanOk(s, port, Chan(s, port));
      forall i | 0 <= i < |s'.chans[x]| ensures MsgOk(s', x, s'.chans[x][i]) {
        var k := if x == port then i + 1 else i;
        assert MsgOk(s, x, Chan(s, x)[k]) && MsgOk(s, port, Chan(s, port)[0]);
        PoppedMsg(s, s', x, Chan(s, x)[k]);
      }
    }
  }

  lemma PoppedMsg(s: Sys, s': Sys, x: Port, m: Msg)
    requires AllGrow(s, s') && MsgOk(s, x, m) && (m.Hs? ==> PlaceOf(s', m.kind, Key(x.pchan, m.openId)) == InChannel)
    ensures MsgOk(s', x, m)
  {
    hide KeyGrows, Linked, HsOk;
    MsgKept(s, s', x, m);
  }

  lemma QueuesKept(s: Sys, s': Sys, tag: HsTag)
    requires AllGrow(s, s') && OnlyPlace(s, s', tag) && NotFrom(s, s', tag, InQueue) && QueuesInv(s) && s'.openq == s.openq
    ensures QueuesInv(s')
  {
    hide KeyGrows, Linked, HsOk;
    forall side, i | side in s.openq && 0 <= i < |s.openq[side]| ensures ReqOk(s', side, s.openq[side][i]) {
      var r := s.openq[side][i];
      assert QueueOk(s, side, s.openq[side]) && ReqOk(s, side, r);
      HsKept(s, s', side, r.kind, r.key, r.vcid);
    }
  }

  lemma Enqueued(s: Sys, s': Sys, side: Side, r: Req)
    requires AllGrow(s, s') && OnlyPlace(s, s', HsTag(r.kind, r.key)) && PlaceOf(s, r.kind, r.key) == InChannel && QueuesInv(s)
    requires s'.openq == s.openq[side := Queue(s, side) + [r]] && ReqOk(s', side, r)
    ensures QueuesInv(s')
  {
    hide KeyGrows, Linked, HsOk;
    forall x, i | x in s'.openq && 0 <= i < |s'.openq[x]| ensures ReqOk(s', x, s'.openq[x][i]) {
      if i < |Queue(s, x)| {
        var q := Queue(s, x)[i];
        assert QueueOk(s, x, Queue(s, x)) && ReqOk(s, x, q);
        HsKept(s, s', x, q.kind, q.key, q.vcid);
      }
    }
    forall x, i | x in s.openq && 0 <= i < |s.openq[x]| ensures HsTag(s.openq[x][i].kind, s.openq[x][i].key) != HsTag(r.kind, r.key) {
      assert QueueOk(s, x, s.openq[x]) && ReqOk(s, x, s.openq[x][i]);
    }
  }

  lemma Unqueued(s: Sys, s': Sys, side: Side, i: nat)
    requires AllGrow(s, s') && i < |Queue(s, side)| && QueuesInv(s)
    requires OnlyPlace(s, s', HsTag(Queue(s, side)[i].kind, Queue(s, side)[i].key))
    requires s'.openq == s.openq[side := Queue(s, side)[..i] + Queue(s, side)[i + 1..]]
    ensures QueuesInv(s')
  {
    hide KeyGrows, Linked;
    forall x, j | x in s'.openq && 0 <= j < |s'.openq[x]| ensures ReqOk(s', x, s'.openq[x][j]) {
      var k := if x == side && j >= i then j + 1 else j;
      var q := Queue(s, x)[k];
      assert QueueOk(s, x, Queue(s, x)) && QueueOk(s, side, Queue(s, side));
      assert s'.openq[x][j] == q && ReqOk(s, x, q) && ReqOk(s, side, Queue(s, side)[i]);
      HsKept(s, s', x, q.kind, q.key, q.vcid);
    }
  }

  // ---------------------------------------------------------------- ends

  /** Every key but `key` keeps its ends as they are. */
  ghost predicate OthersAlike(s: Sys, s': Sys, key: Key) {
    forall k, side :: k != key ==> SidesAlike(s, s', side, k)
  }

  /** The step rewrites, or adds, the record of `e` only. */
  ghost predicate Rewrites(s: Sys, s': Sys, e: nat, v: End) {
    && s'.ends == s.ends[e := v] && s'.endOf == s.endOf[Tag(v.side, v.key) := e]
    && (e in s.ends ==> Grows(s.ends[e], v) && Tag(v.side, v.key) in s.endOf && s.endOf[Tag(v.side, v.key)] == e)
    && (e !in s.ends ==> Tag(v.side, v.key) !in s.endOf)
  }

  /** Other keys, and the other side of this key, keep their ends. */
  lemma Views(s: Sys, s': Sys, e: nat, v: End)
    requires EndsInv(s) && Rewrites(s, s', e, v)
    ensures AllGrow(s, s') && OthersAlike(s, s', v.key) && SidesAlike(s, s', Peer(v.side), v.key)
    ensures HasEnd(s', v.side, v.key) && EndAt(s', v.side, v.key) == v
    ensures HasEnd(s, v.side, v.key) <==> e in s.ends
    ensures e in s.ends ==> EndAt(s, v.side, v.key) == s.ends[e]
  {
    hide EndOk, SlotOk;
    forall k, side | Tag(side, k) != Tag(v.side, v.key)
      ensures SidesAlike(s, s', side, k) && (HasEnd(s, side, k) ==> EndAt(s', side, k) == EndAt(s, side, k))
    {
      OtherTag(s, s', e, v, side, k);
    }
    hide EndsInv;
    forall k ensures KeyGrows(s, s', k) {
      assert Tag(Fe, k) != Tag(v.side, v.key) ==> (HasEnd(s, Fe, k) ==> EndAt(s', Fe, k) == EndAt(s, Fe, k));
      assert Tag(Be, k) != Tag(v.side, v.key) ==> (HasEnd(s, Be, k) ==> EndAt(s', Be, k) == EndAt(s, Be, k));
    }
  }

  lemma OtherTag(s: Sys, s': Sys, e: nat, v: End, side: Side, k: Key)
    requires EndsInv(s) && Rewrites(s, s', e, v) && Tag(side, k) != Tag(v.side, v.key)
    ensures SidesAlike(s, s', side, k) && (HasEnd(s, side, k) ==> EndAt(s', side, k) == EndAt(s, side, k))
  {
  }

  lemma EndOkKept(s: Sys, s': Sys, x: nat, v: End)
    requires EndOk(s, x, v) && s'.next >= s.next && s'.endOf == s.endOf
    requires var slot := Slot(PortOf(v), v.id); slot in s.idr && s.idr[slot] == x ==> slot in s'.idr && s'.idr[slot] == x
    ensures EndOk(s', x, v)
  {
  }

  /** The record of `e` becomes `v`. */
  lemma UpdateEnd(s: Sys, s': Sys, e: nat, v: End)
    requires EndsInv(s) && e in s.ends && s'.ends == s.ends[e := v]
    requires s'.endOf == s.endOf && s'.idr == s.idr && s'.next == s.next
    requires Grows(s.ends[e], v) && v.id == s.ends[e].id && s.ends[e].phase != Freed && v.phase != Freed && EndOk(s', e, v)
    ensures EndsInv(s') && Rewrites(s, s', e, v)
  {
    assert EndOk(s, e, s.ends[e]);
    assert EndOk(s', e, s'.ends[e]) && s.endOf[Tag(s.ends[e].side, s.ends[e].key) := e] == s.endOf;
    hide EndOk;
    forall x | x in s'.ends ensures EndOk(s', x, s'.ends[x]) {
      assert EndOk(s, x, s.ends[x]);
      if x != e { EndOkKept(s, s', x, s.ends[x]); }
    }
    forall slot | slot in s'.idr ensures SlotOk(s', slot, s'.idr[slot]) { assert SlotOk(s, slot, s.idr[slot]); }
  }

  /** The virtual channel is freed and its id with it. */
  lemma ReleaseEnd(s: Sys, s': Sys, e: nat)
    requires EndsInv(s) && e in s.ends && s.ends[e].phase != Freed && s.ends[e].id != 0
    requires s' == Release(s, e)
    ensures EndsInv(s') && Rewrites(s, s', e, s.ends[e].(phase := Freed, rx := []))
  {
    var v := s.ends[e];
    assert EndOk(s, e, v);
    assert s'.idr == s.idr - {Slot(PortOf(v), v.id)} && s'.ends == s.ends[e := v.(phase := Freed, rx := [])];
    assert s.endOf[Tag(v.side, v.key) := e] == s.endOf;
    hide Release, EndsInv;
    ReleasedEnds(s, s', e);
    ReleasedSlots(s, s', e);
    hide EndOk, SlotOk;
  }

  lemma ReleasedEnds(s: Sys, s': Sys, e: nat)
    requires EndsInv(s) && e in s.ends && s.ends[e].phase != Freed && s.ends[e].id != 0 && s'.next == s.next && s'.endOf == s.endOf
    requires s'.idr == s.idr - {Slot(PortOf(s.ends[e]), s.ends[e].id)} && s'.ends == s.ends[e := s.ends[e].(phase := Freed, rx := [])]
    ensures forall x :: x in s'.ends ==> EndOk(s', x, s'.ends[x])
  {
    assert EndOk(s, e, s.ends[e]);
    assert EndOk(s', e, s'.ends[e]) && s.idr[Slot(PortOf(s.ends[e]), s.ends[e].id)] == e;
    hide EndOk;
    forall x | x in s'.ends ensures EndOk(s', x, s'.ends[x]) {
      assert EndOk(s, x, s.ends[x]);
      if x != e { EndOkKept(s, s', x, s.ends[x]); }
    }
  }

  lemma ReleasedSlots(s: Sys, s': Sys, e: nat)
    requires EndsInv(s) && e in s.ends && s'.idr == s.idr - {Slot(PortOf(s.ends[e]), s.ends[e].id)}
    requires s'.ends == s.ends[e := s.ends[e].(phase := Freed, rx := [])]
    ensures forall slot :: slot in s'.idr ==> SlotOk(s', slot, s'.idr[slot])
  {
  }

  /** A virtual channel is allocated for a key that has none on its side. */
  lemma NewEnd(s: Sys, s': Sys, v: End)
    requires EndsInv(s) && Tag(v.side, v.key) !in s.endOf && EndOk(s', s.next, v)
    requires s'.ends == s.ends[s.next := v] && s'.next == s.next + 1 && s'.endOf == s.endOf[Tag(v.side, v.key) := s.next]
    requires v.phase != Freed
    requires if v.id == 0 then s'.idr == s.idr
             else Slot(PortOf(v), v.id) !in s.idr && s'.idr == s.idr[Slot(PortOf(v), v.id) := s.next]
    ensures EndsInv(s') && Rewrites(s, s', s.next, v) && s.next !in s.ends
  {
    forall e | e in s.ends ensures e < s.next { assert EndOk(s, e, s.ends[e]); }
    forall x | x in s'.ends ensures EndOk(s', x, s'.ends[x]) {
      if x != s.next { assert EndOk(s, x, s.ends[x]); }
    }
    hide EndOk;
    forall slot | slot in s'.idr ensures SlotOk(s', slot, s'.idr[slot]) {
      if slot in s.idr { assert SlotOk(s, slot, s.idr[slot]); }
    }
  }

  /** The id of a backend's virtual channel is allocated. */
  lemma NewId(s: Sys, s': Sys, e: nat, v: End)
    requires EndsInv(s) && e in s.ends && s.ends[e].id == 0 && v.id != 0 && v.phase != Freed && Grows(s.ends[e], v)
    requires s'.ends == s.ends[e := v] && s'.next == s.next && s'.endOf == s.endOf && EndOk(s', e, v)
    requires Slot(PortOf(v), v.id) !in s.idr && s'.idr == s.idr[Slot(PortOf(v), v.id) := e]
    ensures EndsInv(s') && Rewrites(s, s', e, v)
  {
    assert EndOk(s, e, s.ends[e]);
    assert EndOk(s', e, s'.ends[e]) && s.endOf[Tag(s.ends[e].side, s.ends[e].key) := e] == s.endOf;
    hide EndOk;
    forall x | x in s'.ends ensures EndOk(s', x, s'.ends[x]) {
      assert EndOk(s, x, s.ends[x]);
      if x != e { EndOkKept(s, s', x, s.ends[x]); }
    }
    forall slot | slot in s'.idr ensures SlotOk(s', slot, s'.idr[slot]) {
      if slot in s.idr { assert SlotOk(s, slot, s.idr[slot]); }
    }
  }

  lemma SameEnds(s: Sys, s': Sys)
    requires EndsInv(s) && s'.ends == s.ends && s'.endOf == s.endOf && s'.idr == s.idr && s'.next == s.next
    ensures EndsInv(s') && AllGrow(s, s') && forall k, side :: SidesAlike(s, s', side, k)
  {
    forall e | e in s.ends ensures EndOk(s', e, s.ends[e]) { assert EndOk(s, e, s.ends[e]); }
    forall slot | slot in s.idr ensures SlotOk(s', slot, s.idr[slot]) { assert SlotOk(s, slot, s.idr[slot]); }
  }

  lemma Assemble(s: Sys, s': Sys, key: Key, tag: HsTag)
    requires Inv(s) && EndsInv(s') && ChansInv(s') && QueuesInv(s') && OthersAlike(s, s', key)
    requires tag.key == key && OnlyPlace(s, s', tag) && KeyOk(s', key)
    ensures Inv(s')
  {
    hide EndsInv, ChansInv, QueuesInv, KeyOk, PlaceOf, SidesAlike;
    forall k ensures KeyOk(s', k) {
      if k != key { KeyKept(s, s', k); }
    }
  }

  // ---------------------------------------------------------------- steps of the handshake

  lemma Facts(s: Sys, e: nat)
    requires Inv(s) && e in s.ends
    ensures EndOk(s, e, s.ends[e]) && KeyOk(s, s.ends[e].key)
  {
  }

  lemma ReqFacts(s: Sys, side: Side, i: nat)
    requires Inv(s) && i < |Queue(s, side)|
    ensures ReqOk(s, side, Queue(s, side)[i]) && KeyOk(s, Queue(s, side)[i].key)
  {
  }

  lemma FeOpenInv(s: Sys, key: Key, sub: nat, id: nat)
    requires Inv(s) && Enabled(s, FeOpen(key, sub, id)) && Allowed(s, FeOpen(key, sub, id))
    ensures Inv(Do(s, FeOpen(key, sub, id)))
  {
    hide DoBe, CanBe, DoPass, CanPass;
    hide EndsInv, ChansInv, QueuesInv;
    var s', tag := Do(s, FeOpen(key, sub, id)), HsTag(Init, key);
    NewEnd(s, s', s'.ends[s.next]);
    Views(s, s', s.next, s'.ends[s.next]);
    assert KeyOk(s, key);
    ChansKept(s, s', tag);
    QueuesKept(s, s', tag);
    Assemble(s, s', key, tag);
  }

  lemma FeInitInv(s: Sys, e: nat)
    requires Inv(s) && Enabled(s, FeInit(e))
    ensures Inv(Do(s, FeInit(e)))
  {
    hide DoBe, CanBe, DoPass, CanPass;
    hide EndsInv, ChansInv, QueuesInv;
    var s', v := Do(s, FeInit(e)), s.ends[e];
    var tag := HsTag(Init, v.key);
    Facts(s, e);
    UpdateEnd(s, s', e, s'.ends[e]);
    Views(s, s', e, s'.ends[e]);
    ChanPushed(s, s', tag, Port(Be, v.key.pchan), Hs(Init, v.key.openId, v.sub, v.id));
    QueuesKept(s, s', tag);
    Assemble(s, s', v.key, tag);
  }

  lemma FeTakeInv(s: Sys, e: nat, i: nat)
    requires Inv(s) && Enabled(s, FeTake(e, i))
    ensures Inv(Do(s, FeTake(e, i)))
  {
    hide DoBe, CanBe, DoPass, CanPass;
    hide EndsInv, ChansInv, QueuesInv;
    var s', v := Do(s, FeTake(e, i)), s.ends[e];
    var tag := HsTag(Ack, v.key);
    Facts(s, e);
    ReqFacts(s, Fe, i);
    UpdateEnd(s, s', e, s'.ends[e]);
    Views(s, s', e, s'.ends[e]);
    ChansKept(s, s', tag);
    Unqueued(s, s', Fe, i);
    Assemble(s, s', v.key, tag);
  }

  lemma FePairInv(s: Sys, e: nat)
    requires Inv(s) && Enabled(s, FePair(e))
    ensures Inv(Do(s, FePair(e)))
  {
    hide DoBe, CanBe, DoPass, CanPass;
    hide EndsInv, ChansInv, QueuesInv;
    var s', v := Do(s, FePair(e)), s.ends[e];
    var tag := HsTag(Ack, v.key);
    Facts(s, e);
    UpdateEnd(s, s', e, s'.ends[e]);
    Views(s, s', e, s'.ends[e]);
    ChansKept(s, s', tag);
    QueuesKept(s, s', tag);
    Assemble(s, s', v.key, tag);
  }

  lemma FeDoneInv(s: Sys, e: nat)
    requires Inv(s) && Enabled(s, FeDone(e))
    ensures Inv(Do(s, FeDone(e)))
  {
    hide DoBe, CanBe, DoPass, CanPass;
    hide EndsInv, ChansInv, QueuesInv;
    var s', v := Do(s, FeDone(e)), s.ends[e];
    var tag := HsTag(Done, v.key);
    Facts(s, e);
    UpdateEnd(s, s', e, s'.ends[e]);
    Views(s, s', e, s'.ends[e]);
    ChanPushed(s, s', tag, Port(Be, v.key.pchan), Hs(Done, v.key.openId, v.sub, 0));
    QueuesKept(s, s', tag);
    Assemble(s, s', v.key, tag);
  }

  lemma ReleaseInv(s: Sys, e: nat)
    requires Inv(s) && e in s.ends && s.ends[e].phase != Freed && s.ends[e].id != 0
    ensures Inv(Release(s, e))
  {
    hide EndsInv, ChansInv, QueuesInv;
    var s', v := Release(s, e), s.ends[e];
    var tag := HsTag(Init, v.key);
    Facts(s, e);
    ReleaseEnd(s, s', e);
    Views(s, s', e, s'.ends[e]);
    ChansKept(s, s', tag);
    QueuesKept(s, s', tag);
    Assemble(s, s', v.key, tag);
  }

  lemma BeTakeInv(s: Sys, i: nat, sub: nat)
    requires Inv(s) && Enabled(s, BeTake(i, sub))
    ensures Inv(Do(s, BeTake(i, sub)))
  {
    hide DoFe, CanFe, DoPass, CanPass, ChansInv, QueuesInv, EndOk, SlotOk;
    var s', r := Do(s, BeTake(i, sub)), Queue(s, Be)[i];
    BeTakeEffect(s, i, sub);
    var v := s'.ends[s.next];
    hide Do, Enabled;
    var tag := HsTag(Init, r.key);
    BeTakeNew(s, s', i, v);
    hide EndsInv, EndOk;
    Views(s, s', s.next, v);
    BeTakeKey(s, s', v);
    hide KeyOk;
    ChansKept(s, s', tag);
    Unqueued(s, s', Be, i);
    Assemble(s, s', r.key, tag);
  }

  lemma BeTakeKey(s: Sys, s': Sys, v: End)
    requires v.side == Be && v.phase.Taken? && v.other == 0 && v.id == 0
    requires KeyOk(s, v.key) && PlaceOf(s, Init, v.key) == InQueue && FeIs(s, v.key, v.phase.vcid) && SubIs(s, v.key, v.sub)
    requires !HasEnd(s, Be, v.key) && HasEnd(s', Be, v.key) && EndAt(s', Be, v.key) == v && SidesAlike(s, s', Fe, v.key)
    requires s'.places == s.places[HsTag(Init, v.key) := Used]
    ensures KeyOk(s', v.key)
  {
  }

  lemma BeTakeEffect(s: Sys, i: nat, sub: nat)
    requires Enabled(s, BeTake(i, sub))
    ensures
      var r, q := Queue(s, Be)[i], Queue(s, Be);
      Do(s, BeTake(i, sub)) == s.(
        ends := s.ends[s.next := End(Be, r.key, sub, 0, 0, Taken(r.vcid), false, false, false, [], [])], next := s.next + 1,
        endOf := s.endOf[Tag(Be, r.key) := s.next], openq := s.openq[Be := q[..i] + q[i + 1..]],
        places := s.places[HsTag(Init, r.key) := Used])
    ensures Queue(s, Be)[i].kind == Init && Queue(s, Be)[i].sub == sub
  {
    hide DoFe, CanFe, DoPass, CanPass;
  }

  /** The listener has no virtual channel for this open yet, and what INIT says is the frontend's. */
  lemma BeTakeNew(s: Sys, s': Sys, i: nat, v: End)
    requires Inv(s) && i < |Queue(s, Be)| && Queue(s, Be)[i].kind == Init
    requires v == End(Be, Queue(s, Be)[i].key, Queue(s, Be)[i].sub, 0, 0, Taken(Queue(s, Be)[i].vcid), false, false, false, [], [])
    requires s' == s.(ends := s.ends[s.next := v], next := s.next + 1, endOf := s.endOf[Tag(Be, v.key) := s.next],
                      openq := s'.openq, places := s'.places)
    ensures EndsInv(s') && Rewrites(s, s', s.next, v) && s.next !in s.ends
    ensures PlaceOf(s, Init, v.key) == InQueue && KeyOk(s, v.key) && FeIs(s, v.key, v.phase.vcid) && SubIs(s, v.key, v.sub)
  {
    hide ChansInv, QueuesInv;
    ReqFacts(s, Be, i);
    assert Tag(Be, v.key) in s.endOf ==> HasEnd(s, Be, v.key);
    Facts(s, s.endOf[Tag(Fe, v.key)]);
    hide EndsInv;
    NewEnd(s, s', v);
  }

  lemma BeAllocInv(s: Sys, e: nat, id: nat)
    requires Inv(s) && Enabled(s, BeAlloc(e, id))
    ensures Inv(Do(s, BeAlloc(e, id)))
  {
    hide DoFe, CanFe, DoPass, CanPass;
    hide EndsInv, ChansInv, QueuesInv;
    var s', v := Do(s, BeAlloc(e, id)), s.ends[e];
    var tag := HsTag(Ack, v.key);
    Facts(s, e);
    NewId(s, s', e, s'.ends[e]);
    Views(s, s', e, s'.ends[e]);
    ChansKept(s, s', tag);
    QueuesKept(s, s', tag);
    Assemble(s, s', v.key, tag);
  }

  lemma BePairInv(s: Sys, e: nat)
    requires Inv(s) && Enabled(s, BePair(e))
    ensures Inv(Do(s, BePair(e)))
  {
    hide DoFe, CanFe, DoPass, CanPass;
    hide EndsInv, ChansInv, QueuesInv;
    var s', v := Do(s, BePair(e)), s.ends[e];
    var tag := HsTag(Ack, v.key);
    Facts(s, e);
    UpdateEnd(s, s', e, s'.ends[e]);
    Views(s, s', e, s'.ends[e]);
    ChansKept(s, s', tag);
    QueuesKept(s, s', tag);
    Assemble(s, s', v.key, tag);
  }

  lemma BeAckInv(s: Sys, e: nat)
    requires Inv(s) && Enabled(s, BeAck(e))
    ensures Inv(Do(s, BeAck(e)))
  {
    hide DoFe, CanFe, DoPass, CanPass;
    hide EndsInv, ChansInv, QueuesInv;
    var s', v := Do(s, BeAck(e)), s.ends[e];
    var tag := HsTag(Ack, v.key);
    Facts(s, e);
    UpdateEnd(s, s', e, s'.ends[e]);
    Views(s, s', e, s'.ends[e]);
    ChanPushed(s, s', tag, Port(Fe, v.key.pchan), Hs(Ack, v.key.openId, v.sub, v.id));
    QueuesKept(s, s', tag);
    Assemble(s, s', v.key, tag);
  }

  lemma BeDoneInv(s: Sys, e: nat, i: nat)
    requires Inv(s) && Enabled(s, BeDone(e, i))
    ensures Inv(Do(s, BeDone(e, i)))
  {
    hide DoFe, CanFe, DoPass, CanPass;
    hide EndsInv, ChansInv, QueuesInv;
    var s', v := Do(s, BeDone(e, i)), s.ends[e];
    var tag := HsTag(Done, v.key);
    Facts(s, e);
    ReqFacts(s, Be, i);
    UpdateEnd(s, s', e, s'.ends[e]);
    Views(s, s', e, s'.ends[e]);
    ChansKept(s, s', tag);
    Unqueued(s, s', Be, i);
    Assemble(s, s', v.key, tag);
  }

  lemma BeNoAllocInv(s: Sys, e: nat)
    requires Inv(s) && Enabled(s, BeNoAlloc(e))
    ensures Inv(Do(s, BeNoAlloc(e)))
  {
    hide DoFe, CanFe, DoPass, CanPass;
    hide ChansInv, QueuesInv, EndsInv;
    var s', v := Do(s, BeNoAlloc(e)), s.ends[e];
    var tag := HsTag(Ack, v.key);
    Facts(s, e);
    DiscardEnd(s, s', e);
    Views(s, s', e, s'.ends[e]);
    hide Do, Enabled;
    ChansKept(s, s', tag);
    QueuesKept(s, s', tag);
    Assemble(s, s', v.key, tag);
  }

  /** A backend that got no id gives up. */
  lemma DiscardEnd(s: Sys, s': Sys, e: nat)
    requires EndsInv(s) && e in s.ends && s.ends[e].phase.Taken? && s' == SetEnd(s, e, s.ends[e].(phase := Freed, rx := []))
    ensures EndsInv(s') && Rewrites(s, s', e, s'.ends[e])
  {
    var v := s.ends[e];
    assert EndOk(s, e, v);
    assert EndOk(s', e, s'.ends[e]) && s.endOf[Tag(v.side, v.key) := e] == s.endOf;
    hide EndOk;
    forall x | x in s'.ends ensures EndOk(s', x, s'.ends[x]) {
      assert EndOk(s, x, s.ends[x]);
      if x != e { EndOkKept(s, s', x, s.ends[x]); }
    }
    forall slot | slot in s'.idr ensures SlotOk(s', slot, s'.idr[slot]) { assert SlotOk(s, slot, s.idr[slot]); }
  }

  lemma ArriveInv(s: Sys, port: Port, stored: bool)
    requires Inv(s) && Enabled(s, Arrive(port, stored))
    ensures Inv(Do(s, Arrive(port, stored)))
  {
    hide DoFe, CanFe, DoBe, CanBe;
    hide EndsInv, QueuesInv, KeyOk;
    var s', m := Do(s, Arrive(port, stored)), Chan(s, port)[0];
    var key := Key(port.pchan, m.openId);
    var tag := HsTag(m.kind, key);
    assert ChanOk(s, port, Chan(s, port)) && MsgOk(s, port, m);
    hide ChansInv;
    SameEnds(s, s');
    ChanPopped(s, s', tag, port);
    if stored {
      HsKept(s, s', port.side, m.kind, key, m.vcid);
      hide MsgOk;
      Enqueued(s, s', port.side, Req(m.kind, key, m.sub, m.vcid));
    } else {
      QueuesKept(s, s', tag);
    }
    MovedOn(s, s', tag);
    Assemble(s, s', key, tag);
  }

  /** Where a message is that has been sent matters only to itself. */
  lemma MovedOn(s: Sys, s': Sys, tag: HsTag)
    requires KeyOk(s, tag.key) && (forall side :: SidesAlike(s, s', side, tag.key)) && OnlyPlace(s, s', tag)
    requires PlaceOf(s, tag.kind, tag.key) in {InChannel, InQueue} && PlaceOf(s', tag.kind, tag.key) in {InQueue, Used}
    ensures KeyOk(s', tag.key)
  {
    assert SidesAlike(s, s', Fe, tag.key) && SidesAlike(s, s', Be, tag.key);
    assert forall kind :: HsTag(kind, tag.key) != tag ==> PlaceOf(s', kind, tag.key) == PlaceOf(s, kind, tag.key);
  }

  lemma ExpireInv(s: Sys, side: Side, i: nat)
    requires Inv(s) && Enabled(s, Expire(side, i))
    ensures Inv(Do(s, Expire(side, i)))
  {
    hide DoFe, CanFe, DoBe, CanBe;
    hide EndsInv, ChansInv, QueuesInv, KeyOk;
    var s', r := Do(s, Expire(side, i)), Queue(s, side)[i];
    var tag := HsTag(r.kind, r.key);
    ReqFacts(s, side, i);
    SameEnds(s, s');
    ChansKept(s, s', tag);
    Unqueued(s, s', side, i);
    MovedOn(s, s', tag);
    Assemble(s, s', r.key, tag);
  }

  // ---------------------------------------------------------------- steps of an open channel

  /** The record changes in what the handshake does not look at. */
  lemma AlikeEnds(s: Sys, s': Sys, e: nat, v: End)
    requires Inv(s) && e in s.ends && s.ends[e].phase != Freed && Alike(s.ends[e], v) && Grows(s.ends[e], v)
    requires s'.ends == s.ends[e := v] && s'.next == s.next && s'.idr == s.idr && s'.endOf == s.endOf && s'.places == s.places
    ensures EndsInv(s') && AllGrow(s, s') && OthersAlike(s, s', v.key) && KeyOk(s', v.key)
  {
    hide ChansInv, QueuesInv, EndsInv, KeyOk;
    Facts(s, e);
    UpdateEnd(s, s', e, v);
    Views(s, s', e, v);
    assert SidesAlike(s, s', v.side, v.key) && SidesAlike(s, s', Peer(v.side), v.key);
    hide SidesAlike;
    assert SidesAlike(s, s', Fe, v.key) && SidesAlike(s, s', Be, v.key);
    KeyKept(s, s', v.key);
  }

  lemma AlikeInv(s: Sys, s': Sys, e: nat, v: End)
    requires Inv(s) && e in s.ends && s.ends[e].phase != Freed && Alike(s.ends[e], v) && Grows(s.ends[e], v)
    requires s'.ends == s.ends[e := v] && s'.next == s.next && s'.idr == s.idr && s'.endOf == s.endOf && s'.places == s.places
    requires s'.chans == s.chans && s'.openq == s.openq
    ensures Inv(s')
  {
    hide ChansInv, QueuesInv, EndsInv, KeyOk, Alike, Grows;
    var tag := HsTag(Init, v.key);
    AlikeEnds(s, s', e, v);
    ChansKept(s, s', tag);
    QueuesKept(s, s', tag);
    Assemble(s, s', v.key, tag);
  }

  /** What an open end sends is for its peer. */
  lemma OpenIsLinked(s: Sys, e: nat)
    requires Inv(s) && IsOpen(s, e)
    ensures var v := s.ends[e]; v.other != 0 && Linked(s, v.key) && HasEnd(s, Peer(v.side), v.key) && v.other == EndAt(s, Peer(v.side), v.key).id
  {
    hide ChansInv, QueuesInv, EndsInv;
    Facts(s, e);
  }

  lemma PostInv(s: Sys, s': Sys, e: nat, item: Item)
    requires Inv(s) && IsOpen(s, e)
    requires s' == Post(s, s.ends[e], item)
    ensures Inv(s')
  {
    hide ChansInv, QueuesInv, EndsInv, KeyOk;
    var v := s.ends[e];
    var tag := HsTag(Init, v.key);
    OpenIsLinked(s, e);
    SameEnds(s, s');
    ChanPushed(s, s', tag, PeerPort(v), ToVchan(v.other, v.key.openId, item));
    QueuesKept(s, s', tag);
    assert SameKey(s, s', v.key);
    KeyKept(s, s', v.key);
    Assemble(s, s', v.key, tag);
  }

  lemma TakeInv(s: Sys, port: Port, stored: bool)
    requires Inv(s) && Enabled(s, Take(port, stored))
    ensures Inv(Do(s, Take(port, stored)))
  {
    hide DoFe, CanFe, DoBe, CanBe;
    var m, popped := Chan(s, port)[0], Pop(s, port);
    PopInv(s, port);
    if Finds(s, port, m) {
      FoundIsLive(s, port, m);
      hide Inv, Pop, Finds;
      DeliverInv(popped, port, s.idr[Slot(port, m.id)], m.item, stored);
    }
  }

  lemma PopInv(s: Sys, port: Port)
    requires Inv(s) && Chan(s, port) != [] && Chan(s, port)[0].ToVchan?
    ensures Inv(Pop(s, port))
  {
    hide ChansInv, QueuesInv, EndsInv, KeyOk;
    var s', key := Pop(s, port), Key(port.pchan, Chan(s, port)[0].session);
    SameEnds(s, s');
    ChanPopped(s, s', HsTag(Init, key), port);
    QueuesKept(s, s', HsTag(Init, key));
    assert SameKey(s, s', key);
    KeyKept(s, s', key);
    Assemble(s, s', key, HsTag(Init, key));
  }

  lemma DeliverInv(s: Sys, port: Port, e: nat, item: Item, stored: bool)
    requires Inv(s) && e in s.ends && s.ends[e].phase != Freed
    ensures Inv(Deliver(s, port, e, item, stored))
  {
    hide Inv;
    var s' := Deliver(s, port, e, item, stored);
    if item.Close? { AlikeInv(s, s', e, s'.ends[e]); } else { SameState(s, s'); }
  }

  lemma FoundIsLive(s: Sys, port: Port, m: Msg)
    requires Inv(s) && Finds(s, port, m)
    ensures var v := s.ends[s.idr[Slot(port, m.id)]]; v.phase != Freed && PortOf(v) == port && v.id == m.id && v.id != 0
  {
  }

  lemma SameState(s: Sys, s': Sys)
    requires Inv(s) && s' == s.(hands := s'.hands, logs := s'.logs)
    ensures Inv(s')
  {
    hide ChansInv, QueuesInv, EndsInv, KeyOk;
    var key := Key(0, 0);
    var tag := HsTag(Init, key);
    SameEnds(s, s');
    ChansKept(s, s', tag);
    QueuesKept(s, s', tag);
    assert SameKey(s, s', key);
    KeyKept(s, s', key);
    Assemble(s, s', key, tag);
  }

  /** A virtual channel in the hands of the receive path has its id and is not freed. */
  predicate HandsOk(s: Sys) { forall port :: port in s.hands ==> Live(s, s.hands[port].e, port) }

  predicate Live(s: Sys, e: nat, port: Port) {
    e in s.ends && s.ends[e].phase != Freed && s.ends[e].id != 0 && PortOf(s.ends[e]) == port
  }

  lemma HandsKept(s: Sys, a: Act)
    requires Inv(s) && HandsOk(s) && Enabled(s, a)
    ensures HandsOk(Do(s, a))
  {
    hide Inv, Enabled, Do;
    forall port | port in Do(s, a).hands ensures Live(Do(s, a), Do(s, a).hands[port].e, port) {
      HandKept(s, a, port);
    }
  }

  lemma HandKept(s: Sys, a: Act, port: Port)
    requires Inv(s) && HandsOk(s) && Enabled(s, a) && port in Do(s, a).hands
    ensures Live(Do(s, a), Do(s, a).hands[port].e, port)
  {
    hide Inv;
    if a.Take? {
      TakeHand(s, a.port, a.stored, port);
    } else {
      HandsSame(s, a);
      LiveKept(s, a, s.hands[port].e, port);
    }
  }

  lemma HandsSame(s: Sys, a: Act)
    requires Enabled(s, a) && !a.Take?
    ensures Do(s, a).hands == if a.Enqueue? then s.hands - {a.port} else s.hands
  {
    hide DoFe, CanFe, DoBe, CanBe, DoPass, CanPass;
    if ByFe(a) { HandsSameFe(s, a); } else if ByBe(a) { HandsSameBe(s, a); } else { HandsSamePass(s, a); }
  }

  lemma HandsSameFe(s: Sys, a: Act)
    requires CanFe(s, a)
    ensures DoFe(s, a).hands == s.hands
  {
    hide SendHs, Unqueue, Release, SetEnd, Goto, PortOf, First, FreeSlot, NotHeld, In, Queue;
  }

  lemma HandsSameBe(s: Sys, a: Act)
    requires CanBe(s, a)
    ensures DoBe(s, a).hands == s.hands
  {
    hide SendHs, Unqueue, Release, SetEnd, Goto, PortOf, First, FreeSlot, NotHeld, In, Queue;
  }

  lemma HandsSamePass(s: Sys, a: Act)
    requires CanPass(s, a) && !a.Take?
    ensures DoPass(s, a).hands == if a.Enqueue? then s.hands - {a.port} else s.hands
  {
    hide Unqueue, Post, SetPlace, Push, Release, SetEnd, Goto, Dequeue, LogOf, NotHeld, In, IsOpen, Queue, Chan;
    if a.Recv? {
      RecvHands(s, a.e, a.room);
      hide DoPass, CanPass;
    }
  }

  lemma RecvHands(s: Sys, e: nat, room: nat)
    requires CanPass(s, Recv(e, room))
    ensures DoPass(s, Recv(e, room)).hands == s.hands
  {
    hide SetEnd, Dequeue;
  }

  lemma TakeHand(s: Sys, x: Port, stored: bool, port: Port)
    requires Inv(s) && HandsOk(s) && Enabled(s, Take(x, stored)) && port in Do(s, Take(x, stored)).hands
    ensures Live(Do(s, Take(x, stored)), Do(s, Take(x, stored)).hands[port].e, port)
  {
    hide Inv, Pop, Deliver;
    var m := Chan(s, x)[0];
    if Finds(s, x, m) {
      FoundIsLive(s, x, m);
      hide Finds;
      DeliverHand(Pop(s, x), x, s.idr[Slot(x, m.id)], m.item, stored, port);
    }
  }

  lemma DeliverHand(s: Sys, x: Port, e: nat, item: Item, stored: bool, port: Port)
    requires HandsOk(s) && Live(s, e, x) && port in Deliver(s, x, e, item, stored).hands
    ensures Live(Deliver(s, x, e, item, stored), Deliver(s, x, e, item, stored).hands[port].e, port)
  {
  }

  lemma LiveKept(s: Sys, a: Act, e: nat, port: Port)
    requires Inv(s) && Enabled(s, a) && !a.Take? && Live(s, e, port) && port in s.hands && s.hands[port].e == e
    ensures Live(Do(s, a), e, port)
  {
    hide Inv;
    if a.FeOpen? || a.BeTake? {
      Facts(s, e);
      hide EndOk, KeyOk, Unqueue;
    } else if a.BeNoAlloc? || a.BeAlloc? {
      TakenHasNoId(s, a.e);
    } else {
      LiveOnward(s, a, e, port);
    }
  }

  lemma LiveOnward(s: Sys, a: Act, e: nat, port: Port)
    requires Enabled(s, a) && !a.Take? && !a.FeOpen? && !a.BeTake? && !a.BeNoAlloc? && !a.BeAlloc?
    requires Live(s, e, port) && port in s.hands && s.hands[port].e == e
    ensures Live(Do(s, a), e, port)
  {
    hide DoFe, CanFe, DoBe, CanBe, DoPass, CanPass, Live;
    if ByFe(a) { LiveOnwardFe(s, a, e, port); } else if ByBe(a) { LiveOnwardBe(s, a, e, port); } else { LiveOnwardPass(s, a, e, port); }
  }

  lemma LiveOnwardFe(s: Sys, a: Act, e: nat, port: Port)
    requires CanFe(s, a) && !a.FeOpen? && Live(s, e, port) && port in s.hands && s.hands[port].e == e
    ensures Live(DoFe(s, a), e, port)
  {
    hide SendHs, Unqueue, First;
  }

  lemma LiveOnwardBe(s: Sys, a: Act, e: nat, port: Port)
    requires CanBe(s, a) && !a.BeTake? && !a.BeNoAlloc? && !a.BeAlloc? && Live(s, e, port) && port in s.hands && s.hands[port].e == e
    ensures Live(DoBe(s, a), e, port)
  {
    hide SendHs, Unqueue, First, FreeSlot;
  }

  lemma LiveOnwardPass(s: Sys, a: Act, e: nat, port: Port)
    requires CanPass(s, a) && !a.Take? && Live(s, e, port) && port in s.hands && s.hands[port].e == e
    ensures Live(DoPass(s, a), e, port)
  {
    hide Unqueue, Post, SetPlace, Push, LogOf, Dequeue;
  }

  lemma TakenHasNoId(s: Sys, e: nat)
    requires Inv(s) && e in s.ends && s.ends[e].phase.Taken?
    ensures s.ends[e].id == 0
  {
  }

  lemma EnqueueInv(s: Sys, port: Port)
    requires Inv(s) && HandsOk(s) && Enabled(s, Enqueue(port))
    ensures Inv(Do(s, Enqueue(port)))
  {
    hide DoFe, CanFe, DoBe, CanBe;
    hide Inv;
    var s', e := Do(s, Enqueue(port)), s.hands[port].e;
    AlikeInv(s, s', e, s'.ends[e]);
  }

  lemma RecvInv(s: Sys, e: nat, room: nat)
    requires Inv(s) && Enabled(s, Recv(e, room))
    ensures Inv(Do(s, Recv(e, room)))
  {
    hide DoFe, CanFe, DoBe, CanBe;
    hide Inv;
    var s' := Do(s, Recv(e, room));
    if s' != s { AlikeInv(s, s', e, s'.ends[e]); }
  }

  lemma NotifyInv(s: Sys, e: nat)
    requires Inv(s) && Enabled(s, Notify(e))
    ensures Inv(Do(s, Notify(e)))
  {
    hide DoFe, CanFe, DoBe, CanBe;
    hide Inv;
    var s', s1 := Do(s, Notify(e)), Post(s, s.ends[e], Close);
    PostInv(s, s1, e, Close);
    AlikeInv(s1, s', e, s'.ends[e]);
  }

  lemma FlagInv(s: Sys, a: Act)
    requires Inv(s) && Enabled(s, a) && (a.MarkClosed? || a.Stop?)
    ensures Inv(Do(s, a))
  {
    hide Inv;
    var s' := Do(s, a);
    AlikeInv(s, s', a.e, s'.ends[a.e]);
  }

  lemma FreeInv(s: Sys, e: nat)
    requires Inv(s) && e in s.ends && s.ends[e].phase in {Fresh, Paired, Ready, Acked, Opened}
    ensures Inv(Release(s, e))
  {
    Facts(s, e);
    ReleaseInv(s, e);
  }

  lemma {:induction false} DoInv(s: Sys, a: Act)
    requires Inv(s) && HandsOk(s) && Enabled(s, a) && Allowed(s, a)
    ensures Inv(Do(s, a)) && HandsOk(Do(s, a))
  {
    hide Inv, HandsOk, Allowed;
    HandsKept(s, a);
    match a
    case FeOpen(key, sub, id) => FeOpenInv(s, key, sub, id);
    case FeInit(e) => FeInitInv(s, e);
    case FeTake(e, i) => FeTakeInv(s, e, i);
    case FePair(e) => FePairInv(s, e);
    case FeDone(e) => FeDoneInv(s, e);
    case FeFail(e) => FreeInv(s, e);
    case BeTake(i, sub) => BeTakeInv(s, i, sub);
    case BeAlloc(e, id) => BeAllocInv(s, e, id);
    case BeNoAlloc(e) => BeNoAllocInv(s, e);
    case BePair(e) => BePairInv(s, e);
    case BeAck(e) => BeAckInv(s, e);
    case BeFail(e) => FreeInv(s, e);
    case BeDone(e, i) => BeDoneInv(s, e, i);
    case Arrive(port, stored) => ArriveInv(s, port, stored);
    case Expire(side, i) => ExpireInv(s, side, i);
    case Send(e, bytes) => PostInv(s, Do(s, a), e, Data(bytes));
    case MarkClosed(_) => FlagInv(s, a);
    case Notify(e) => NotifyInv(s, e);
    case Stop(_) => FlagInv(s, a);
    case Free(e) => FreeInv(s, e);
    case Take(port, stored) => TakeInv(s, port, stored);
    case Enqueue(port) => EnqueueInv(s, port);
    case Recv(e, room) => RecvInv(s, e, room);
  }

  lemma StartInv(s: Sys)
    requires Start(s)
    ensures Inv(s) && HandsOk(s)
  {
  }

  lemma {:induction false} RunInv(ss: seq<Sys>, steps: seq<Act>, n: nat)
    requires IsRun(ss, steps) && n < |ss|
    ensures Inv(ss[n]) && HandsOk(ss[n])
  {
    hide Inv, HandsOk, Enabled, Do, Allowed, Start;
    if n == 0 {
      StartInv(ss[0]);
    } else {
      RunInv(ss, steps, n - 1);
      assert Leads(ss[n - 1], steps[n - 1], ss[n - 1 + 1]);
      DoInv(ss[n - 1], steps[n - 1]);
    }
  }

  // ---------------------------------------------------------------- the main results

  /**
   Handshake agreement: a frontend and a backend whose opens have returned for the same physical
   channel and open id hold each other's ids; both have that open id as their session id.
   */
  lemma {:induction false} HandshakeAgreement(ss: seq<Sys>, steps: seq<Act>, n: nat, f: nat, b: nat)
    requires IsRun(ss, steps) && n < |ss| && IsOpen(ss[n], f) && IsOpen(ss[n], b)
    requires ss[n].ends[f].side == Fe && ss[n].ends[b].side == Be && ss[n].ends[f].key == ss[n].ends[b].key
    ensures ss[n].ends[f].other == ss[n].ends[b].id && ss[n].ends[b].other == ss[n].ends[f].id
  {
    RunInv(ss, steps, n);
    hide IsRun;
    Facts(ss[n], f);
    Facts(ss[n], b);
    OpenIsLinked(ss[n], f);
    OpenIsLinked(ss[n], b);
  }

  /**
   The pairing is one-to-one in both directions: there is at most one virtual channel on each side
   of a key; an open whose thread has returned has a peer of its own key, already paired with it;
   and no other live virtual channel has the id it holds on that physical channel.
   */
  lemma {:induction false} OneToOne(ss: seq<Sys>, steps: seq<Act>, n: nat, e: nat)
    requires IsRun(ss, steps) && n < |ss| && IsOpen(ss[n], e)
    ensures var s, v := ss[n], ss[n].ends[e];
      && (forall x :: x in s.ends && s.ends[x].side == v.side && s.ends[x].key == v.key ==> x == e)
      && (exists p :: p in s.ends && s.ends[p].side == Peer(v.side) && s.ends[p].key == v.key
            && s.ends[p].id == v.other && s.ends[p].other == v.id && v.id != 0 && v.other != 0)
      && (forall x :: x in s.ends && s.ends[x].phase != Freed && PortOf(s.ends[x]) == PortOf(v) && s.ends[x].id == v.id ==> x == e)
  {
    RunInv(ss, steps, n);
    hide IsRun;
    var s, v := ss[n], ss[n].ends[e];
    Facts(s, e);
    OpenIsLinked(s, e);
    var p := s.endOf[Tag(Peer(v.side), v.key)];
    assert s.ends[p] == EndAt(s, Peer(v.side), v.key);
    assert s.ends[p].side == Peer(v.side) && s.ends[p].key == v.key;
    forall x | x in s.ends && s.ends[x].side == v.side && s.ends[x].key == v.key ensures x == e { Facts(s, x); }
    forall x | x in s.ends && s.ends[x].phase != Freed && PortOf(s.ends[x]) == PortOf(v) && s.ends[x].id == v.id ensures x == e { Facts(s, x); }
  }

  /**
   Paired before use: a message for a virtual channel never meets one that is allocated but not
   paired yet, so the check for a zero `otherend_id` drops nothing.
   */
  lemma {:induction false} NeverUnpaired(ss: seq<Sys>, steps: seq<Act>, n: nat, port: Port)
    requires IsRun(ss, steps) && n < |ss| && Chan(ss[n], port) != [] && Chan(ss[n], port)[0].ToVchan?
    requires var m := Chan(ss[n], port)[0];
      && Slot(port, m.id) in ss[n].idr && ss[n].idr[Slot(port, m.id)] in ss[n].ends
      && ss[n].ends[ss[n].idr[Slot(port, m.id)]].key.openId == m.session
    ensures ss[n].ends[ss[n].idr[Slot(port, Chan(ss[n], port)[0].id)]].other != 0
  {
    RunInv(ss, steps, n);
    hide IsRun;
    var s, m := ss[n], Chan(ss[n], port)[0];
    assert ChanOk(s, port, Chan(s, port)) && MsgOk(s, port, m);
    var e := s.idr[Slot(port, m.id)];
    assert SlotOk(s, Slot(port, m.id), e);
    Facts(s, e);
  }
}
