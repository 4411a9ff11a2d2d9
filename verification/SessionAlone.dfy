/**
 What opening, using and closing a virtual channel amount to when nothing interferes: each theorem follows a whole
 exchange between the two ends, from its first step to its last, and says in which state it ends.
 */
module SessionAlone {
  import opened Common
  import opened Session

  predicate Step(s: Sys, a: Act, s': Sys) { Enabled(s, a) && Do(s, a) == s' }

  /** The steps are possible one after the other and lead from `s` to `s'`. */
  predicate Does(s: Sys, acts: seq<Act>, s': Sys)
    decreases |acts|
  {
    if acts == [] then s == s' else Enabled(s, acts[0]) && Does(Do(s, acts[0]), acts[1..], s')
  }

  lemma Then(s: Sys, a: Act, s1: Sys, acts: seq<Act>, s2: Sys)
    requires Step(s, a, s1) && Does(s1, acts, s2)
    ensures Does(s, [a] + acts, s2)
  {
    hide Do, Enabled;
    assert ([a] + acts)[1..] == acts;
  }

  lemma One(s: Sys, a: Act, s1: Sys)
    requires Step(s, a, s1)
    ensures Does(s, [a], s1)
  {
    assert Does(s1, [], s1);
    hide Does, Step;
    Then(s, a, s1, [], s1);
    assert [a] + [] == [a];
  }

  lemma Two(s: Sys, a: Act, s1: Sys, b: Act, s2: Sys)
    requires Step(s, a, s1) && Step(s1, b, s2)
    ensures Does(s, [a, b], s2)
  {
    hide Does, Step;
    One(s1, b, s2);
    Then(s, a, s1, [b], s2);
    assert [a] + [b] == [a, b];
  }

  lemma Three(s: Sys, a: Act, s1: Sys, b: Act, s2: Sys, c: Act, s3: Sys)
    requires Step(s, a, s1) && Step(s1, b, s2) && Step(s2, c, s3)
    ensures Does(s, [a, b, c], s3)
  {
    hide Does, Step;
    Two(s1, b, s2, c, s3);
    Then(s, a, s1, [b, c], s3);
    assert [a] + [b, c] == [a, b, c];
  }

  lemma Four(s: Sys, a: Act, s1: Sys, b: Act, s2: Sys, c: Act, s3: Sys, d: Act, s4: Sys)
    requires Step(s, a, s1) && Step(s1, b, s2) && Step(s2, c, s3) && Step(s3, d, s4)
    ensures Does(s, [a, b, c, d], s4)
  {
    hide Does, Step;
    Three(s1, b, s2, c, s3, d, s4);
    Then(s, a, s1, [b, c, d], s4);
    assert [a] + [b, c, d] == [a, b, c, d];
  }

  lemma {:induction false} Joined(s: Sys, acts: seq<Act>, s1: Sys, more: seq<Act>, s2: Sys)
    requires Does(s, acts, s1) && Does(s1, more, s2)
    ensures Does(s, acts + more, s2)
    decreases |acts|
  {
    hide Do, Enabled;
    if acts == [] {
      assert acts + more == more;
    } else {
      Joined(Do(s, acts[0]), acts[1..], s1, more, s2);
      assert (acts + more)[1..] == acts[1..] + more && (acts + more)[0] == acts[0];
    }
  }

  // ---------------------------------------------------------------- opening

  /** An open of `key` for minor id `sub`, whose ends get the ids `fid` and `bid`. */
  datatype Opening = Opening(key: Key, sub: nat, fid: nat, bid: nat)

  function FePort(o: Opening): Port { Port(Fe, o.key.pchan) }

  function BePort(o: Opening): Port { Port(Be, o.key.pchan) }

  predicate NoMatch(q: seq<Req>, kind: Kind, sub: nat, openId: nat, pchan: Option<nat>) {
    forall j :: 0 <= j < |q| ==> !Match(q[j], kind, sub, openId, pchan)
  }

  /** Both ids are free, nothing is on the physical channel, and no request is queued that this open's listeners would take. */
  predicate Clear(s: Sys, o: Opening) {
    && 1 <= o.fid <= 0xFFF && Slot(FePort(o), o.fid) !in s.idr && 1 <= o.bid <= 0xFFF && Slot(BePort(o), o.bid) !in s.idr
    && Chan(s, FePort(o)) == [] && Chan(s, BePort(o)) == []
    && NoMatch(Queue(s, Be), Init, o.sub, 0, None) && NoMatch(Queue(s, Fe), Ack, o.sub, o.key.openId, Some(o.key.pchan))
    && NoMatch(Queue(s, Be), Done, o.sub, o.key.openId, Some(o.key.pchan))
  }

  /** The steps of an open. */
  function OpenStep(s: Sys, o: Opening, n: nat): Act {
    match n
    case 0 => FeOpen(o.key, o.sub, o.fid)
    case 1 => FeInit(s.next)
    case 2 => Arrive(BePort(o), true)
    case 3 => BeTake(|Queue(s, Be)|, o.sub)
    case 4 => BeAlloc(s.next + 1, o.bid)
    case 5 => BePair(s.next + 1)
    case 6 => BeAck(s.next + 1)
    case 7 => Arrive(FePort(o), true)
    case 8 => FeTake(s.next, |Queue(s, Fe)|)
    case 9 => FePair(s.next)
    case 10 => FeDone(s.next)
    case 11 => Arrive(BePort(o), true)
    case _ => BeDone(s.next + 1, |Queue(s, Be)|)
  }

  function Record(side: Side, o: Opening, id: nat, other: nat, phase: Phase): End {
    End(side, o.key, o.sub, id, other, phase, false, false, false, [], [])
  }

  /** The frontend's record after `n` steps. */
  function FeAt(o: Opening, n: nat): End {
    Record(Fe, o, o.fid, if n < 10 then 0 else o.bid,
           if n < 2 then Fresh else if n < 9 then Waiting else if n < 10 then Got(o.bid) else if n < 11 then Paired else Opened)
  }

  /** The backend's record after `n` steps, from the fourth on. */
  function BeAt(o: Opening, n: nat): End {
    Record(Be, o, if n < 5 then 0 else o.bid, if n < 6 then 0 else o.fid,
           if n < 5 then Taken(o.fid) else if n < 6 then Alloced(o.fid) else if n < 7 then Ready else if n < 13 then Acked else Opened)
  }

  /** What is on the physical channel after `n` steps. */
  function ToBe(o: Opening, n: nat): seq<Msg> {
    if n == 2 then [Hs(Init, o.key.openId, o.sub, o.fid)] else if n == 11 then [Hs(Done, o.key.openId, o.sub, 0)] else []
  }

  function ToFe(o: Opening, n: nat): seq<Msg> { if n == 7 then [Hs(Ack, o.key.openId, o.sub, o.bid)] else [] }

  /** What is in the open queues after `n` steps, behind what was there. */
  function BeReqs(o: Opening, n: nat): seq<Req> {
    if n == 3 then [Req(Init, o.key, o.sub, o.fid)] else if n == 12 then [Req(Done, o.key, o.sub, 0)] else []
  }

  function FeReqs(o: Opening, n: nat): seq<Req> { if n == 8 then [Req(Ack, o.key, o.sub, o.bid)] else [] }

  /** Where a handshake message is after `n` steps when step `sent` sends it. */
  function PlaceAt(n: nat, sent: nat): Place { if n == sent then InChannel else if n == sent + 1 then InQueue else Used }

  function EndsAt(s: Sys, o: Opening, n: nat): map<nat, End> {
    if n == 0 then s.ends
    else if n < 4 then s.ends[s.next := FeAt(o, n)]
    else s.ends[s.next := FeAt(o, n)][s.next + 1 := BeAt(o, n)]
  }

  function ChansAt(s: Sys, o: Opening, n: nat): map<Port, seq<Msg>> {
    if n < 2 then s.chans
    else if n < 7 then s.chans[BePort(o) := ToBe(o, n)]
    else s.chans[BePort(o) := ToBe(o, n)][FePort(o) := ToFe(o, n)]
  }

  function OpenqAt(s: Sys, o: Opening, n: nat): map<Side, seq<Req>> {
    if n < 3 then s.openq
    else if n < 8 then s.openq[Be := Queue(s, Be) + BeReqs(o, n)]
    else s.openq[Be := Queue(s, Be) + BeReqs(o, n)][Fe := Queue(s, Fe) + FeReqs(o, n)]
  }

  function PlacesAt(s: Sys, o: Opening, n: nat): map<HsTag, Place> {
    if n < 2 then s.places
    else if n < 7 then s.places[HsTag(Init, o.key) := PlaceAt(n, 2)]
    else if n < 11 then s.places[HsTag(Init, o.key) := Used][HsTag(Ack, o.key) := PlaceAt(n, 7)]
    else s.places[HsTag(Init, o.key) := Used][HsTag(Ack, o.key) := Used][HsTag(Done, o.key) := PlaceAt(n, 11)]
  }

  function IdrAt(s: Sys, o: Opening, n: nat): map<Slot, nat> {
    if n == 0 then s.idr
    else if n < 5 then s.idr[Slot(FePort(o), o.fid) := s.next]
    else s.idr[Slot(FePort(o), o.fid) := s.next][Slot(BePort(o), o.bid) := s.next + 1]
  }

  function TagsAt(s: Sys, o: Opening, n: nat): map<Tag, nat> {
    if n == 0 then s.endOf
    else if n < 4 then s.endOf[Tag(Fe, o.key) := s.next]
    else s.endOf[Tag(Fe, o.key) := s.next][Tag(Be, o.key) := s.next + 1]
  }

  function OpenAt(s: Sys, o: Opening, n: nat): Sys {
    s.(ends := EndsAt(s, o, n), next := if n == 0 then s.next else if n < 4 then s.next + 1 else s.next + 2, idr := IdrAt(s, o, n),
       chans := ChansAt(s, o, n), openq := OpenqAt(s, o, n), endOf := TagsAt(s, o, n), places := PlacesAt(s, o, n))
  }

  // ---------------------------------------------------------------- each step of an open

  lemma Over<K, V>(m: map<K, V>, k: K, v: V, w: V)
    ensures m[k := v][k := w] == m[k := w]
  {
  }

  lemma Swap<K, V>(m: map<K, V>, k: K, v: V, l: K, x: V, w: V)
    requires k != l
    ensures m[k := v][l := x][k := w] == m[k := w][l := x]
  {
  }

  lemma SentIs(s: Sys, side: Side, kind: Kind, v: End, vcid: nat)
    requires Chan(s, Port(side, v.key.pchan)) == []
    ensures
      SendHs(s, side, kind, v, vcid)
      == s.(chans := s.chans[Port(side, v.key.pchan) := [Hs(kind, v.key.openId, v.sub, vcid)]],
            places := s.places[HsTag(kind, v.key) := InChannel])
  {
    assert [] + [Hs(kind, v.key.openId, v.sub, vcid)] == [Hs(kind, v.key.openId, v.sub, vcid)];
  }

  lemma UnqueuedIs(s: Sys, side: Side, q: seq<Req>, r: Req)
    requires Queue(s, side) == q + [r]
    ensures Unqueue(s, side, |q|) == s.(openq := s.openq[side := q], places := s.places[HsTag(r.kind, r.key) := Used])
  {
    assert (q + [r])[..|q|] + (q + [r])[|q| + 1..] == q;
  }

  lemma IsFirst(q: seq<Req>, r: Req, kind: Kind, sub: nat, openId: nat, pchan: Option<nat>)
    requires NoMatch(q, kind, sub, openId, pchan) && Match(r, kind, sub, openId, pchan)
    ensures First(q + [r], |q|, kind, sub, openId, pchan)
  {
    hide Match;
  }

  lemma Arrives(s: Sys, port: Port, m: Msg)
    requires Chan(s, port) == [m] && m.Hs?
    ensures
      var key := Key(port.pchan, m.openId);
      Step(s, Arrive(port, true),
           s.(chans := s.chans[port := []], openq := s.openq[port.side := Queue(s, port.side) + [Req(m.kind, key, m.sub, m.vcid)]],
              places := s.places[HsTag(m.kind, key) := InQueue]))
  {
    hide CanFe, DoFe, CanBe, DoBe;
    assert [m][1..] == [];
  }

  lemma Inits(s: Sys, e: nat)
    requires In(s, e, Fe, {Fresh}) && Chan(s, PeerPort(s.ends[e])) == []
    ensures
      var v := s.ends[e];
      Step(s, FeInit(e),
           s.(ends := s.ends[e := v.(phase := Waiting)], places := s.places[HsTag(Init, v.key) := InChannel],
              chans := s.chans[Port(Be, v.key.pchan) := [Hs(Init, v.key.openId, v.sub, v.id)]]))
  {
    SentIs(s, Be, Init, s.ends[e], s.ends[e].id);
    hide CanBe, DoBe, CanPass, DoPass, SendHs;
  }

  lemma Acks(s: Sys, e: nat)
    requires In(s, e, Be, {Ready}) && Chan(s, PeerPort(s.ends[e])) == []
    ensures
      var v := s.ends[e];
      Step(s, BeAck(e),
           s.(ends := s.ends[e := v.(phase := Acked)], places := s.places[HsTag(Ack, v.key) := InChannel],
              chans := s.chans[Port(Fe, v.key.pchan) := [Hs(Ack, v.key.openId, v.sub, v.id)]]))
  {
    SentIs(s, Fe, Ack, s.ends[e], s.ends[e].id);
    hide CanFe, DoFe, CanPass, DoPass, SendHs;
  }

  lemma Completes(s: Sys, e: nat)
    requires In(s, e, Fe, {Paired}) && Chan(s, PeerPort(s.ends[e])) == []
    ensures
      var v := s.ends[e];
      Step(s, FeDone(e),
           s.(ends := s.ends[e := v.(phase := Opened)], places := s.places[HsTag(Done, v.key) := InChannel],
              chans := s.chans[Port(Be, v.key.pchan) := [Hs(Done, v.key.openId, v.sub, 0)]]))
  {
    SentIs(s, Be, Done, s.ends[e], 0);
    hide CanBe, DoBe, CanPass, DoPass, SendHs;
  }

  lemma Listens(s: Sys, q: seq<Req>, r: Req)
    requires Queue(s, Be) == q + [r] && r.kind == Init && NoMatch(q, Init, r.sub, 0, None)
    ensures
      Step(s, BeTake(|q|, r.sub),
           s.(ends := s.ends[s.next := End(Be, r.key, r.sub, 0, 0, Taken(r.vcid), false, false, false, [], [])], next := s.next + 1,
              openq := s.openq[Be := q], places := s.places[HsTag(Init, r.key) := Used],
              endOf := s.endOf[Tag(Be, r.key) := s.next]))
  {
    UnqueuedIs(s, Be, q, r);
    IsFirst(q, r, Init, r.sub, 0, None);
    hide CanFe, DoFe, CanPass, DoPass, Unqueue, First, NoMatch;
  }

  lemma TakesAck(s: Sys, e: nat, q: seq<Req>, r: Req)
    requires In(s, e, Fe, {Waiting}) && Queue(s, Fe) == q + [r] && r.kind == Ack && r.key == s.ends[e].key && r.sub == s.ends[e].sub
    requires NoMatch(q, Ack, r.sub, r.key.openId, Some(r.key.pchan))
    ensures
      Step(s, FeTake(e, |q|),
           s.(ends := s.ends[e := s.ends[e].(phase := Got(r.vcid))], openq := s.openq[Fe := q],
              places := s.places[HsTag(Ack, r.key) := Used]))
  {
    UnqueuedIs(s, Fe, q, r);
    IsFirst(q, r, Ack, r.sub, r.key.openId, Some(r.key.pchan));
    hide CanBe, DoBe, CanPass, DoPass, Unqueue, First, NoMatch;
  }

  lemma TakesDone(s: Sys, e: nat, q: seq<Req>, r: Req)
    requires In(s, e, Be, {Acked}) && Queue(s, Be) == q + [r] && r.kind == Done && r.key == s.ends[e].key && r.sub == s.ends[e].sub
    requires NoMatch(q, Done, r.sub, r.key.openId, Some(r.key.pchan))
    ensures
      Step(s, BeDone(e, |q|),
           s.(ends := s.ends[e := s.ends[e].(phase := Opened)], openq := s.openq[Be := q],
              places := s.places[HsTag(Done, r.key) := Used]))
  {
    UnqueuedIs(s, Be, q, r);
    IsFirst(q, r, Done, r.sub, r.key.openId, Some(r.key.pchan));
    hide CanFe, DoFe, CanPass, DoPass, Unqueue, First, NoMatch;
  }

  lemma Opens(s: Sys, o: Opening)
    requires FreeSlot(s, FePort(o), o.fid)
    ensures Step(s, FeOpen(o.key, o.sub, o.fid), OpenAt(s, o, 1))
  {
    hide CanBe, DoBe, CanPass, DoPass;
  }

  lemma Allocates(s: Sys, e: nat, id: nat)
    requires e in s.ends && s.ends[e].phase.Taken? && FreeSlot(s, PortOf(s.ends[e]), id)
    ensures
      var v := s.ends[e];
      Step(s, BeAlloc(e, id), s.(ends := s.ends[e := v.(id := id, phase := Alloced(v.phase.vcid))],
                                 idr := s.idr[Slot(PortOf(v), id) := e]))
  {
    hide CanFe, DoFe, CanPass, DoPass, FreeSlot;
  }

  lemma Pairs(s: Sys, e: nat)
    requires e in s.ends
    ensures
      var v := s.ends[e];
      && (v.phase.Alloced? ==> Step(s, BePair(e), s.(ends := s.ends[e := v.(other := v.phase.vcid, phase := Ready)])))
      && (v.phase.Got? ==> Step(s, FePair(e), s.(ends := s.ends[e := v.(other := v.phase.vcid, phase := Paired)])))
  {
    hide CanPass, DoPass;
  }

  lemma Step1(s: Sys, o: Opening)
    requires Clear(s, o)
    ensures Step(OpenAt(s, o, 1), OpenStep(s, o, 1), OpenAt(s, o, 2))
  {
    hide Step, Enabled, Do, NoMatch;
    Inits(OpenAt(s, o, 1), s.next);
    Over(s.ends, s.next, FeAt(o, 1), FeAt(o, 2));
  }

  lemma Step2(s: Sys, o: Opening)
    requires Clear(s, o)
    ensures Step(OpenAt(s, o, 2), OpenStep(s, o, 2), OpenAt(s, o, 3))
  {
    hide Step, Enabled, Do, NoMatch;
    Arrives(OpenAt(s, o, 2), BePort(o), Hs(Init, o.key.openId, o.sub, o.fid));
    Over(s.chans, BePort(o), ToBe(o, 2), ToBe(o, 3));
    Over(s.places, HsTag(Init, o.key), InChannel, InQueue);
  }

  lemma Step3(s: Sys, o: Opening)
    requires Clear(s, o)
    ensures Step(OpenAt(s, o, 3), OpenStep(s, o, 3), OpenAt(s, o, 4))
  {
    hide Step, Enabled, Do, NoMatch;
    Listens(OpenAt(s, o, 3), Queue(s, Be), Req(Init, o.key, o.sub, o.fid));
    assert Queue(s, Be) + [] == Queue(s, Be);
    Over(s.openq, Be, Queue(s, Be) + BeReqs(o, 3), Queue(s, Be) + BeReqs(o, 4));
    Over(s.places, HsTag(Init, o.key), InQueue, Used);
  }

  lemma Step4(s: Sys, o: Opening)
    requires Clear(s, o)
    ensures Step(OpenAt(s, o, 4), OpenStep(s, o, 4), OpenAt(s, o, 5))
  {
    hide Step, Enabled, Do, NoMatch;
    Allocates(OpenAt(s, o, 4), s.next + 1, o.bid);
    Over(s.ends[s.next := FeAt(o, 4)], s.next + 1, BeAt(o, 4), BeAt(o, 5));
  }

  lemma Step5(s: Sys, o: Opening)
    requires Clear(s, o)
    ensures Step(OpenAt(s, o, 5), OpenStep(s, o, 5), OpenAt(s, o, 6))
  {
    hide Step, Enabled, Do, NoMatch;
    Pairs(OpenAt(s, o, 5), s.next + 1);
    Over(s.ends[s.next := FeAt(o, 5)], s.next + 1, BeAt(o, 5), BeAt(o, 6));
  }

  lemma Step6(s: Sys, o: Opening)
    requires Clear(s, o)
    ensures Step(OpenAt(s, o, 6), OpenStep(s, o, 6), OpenAt(s, o, 7))
  {
    hide Step, Enabled, Do, NoMatch;
    Acks(OpenAt(s, o, 6), s.next + 1);
    Over(s.ends[s.next := FeAt(o, 6)], s.next + 1, BeAt(o, 6), BeAt(o, 7));
  }

  lemma Step7(s: Sys, o: Opening)
    requires Clear(s, o)
    ensures Step(OpenAt(s, o, 7), OpenStep(s, o, 7), OpenAt(s, o, 8))
  {
    hide Step, Enabled, Do, NoMatch;
    Arrives(OpenAt(s, o, 7), FePort(o), Hs(Ack, o.key.openId, o.sub, o.bid));
    Over(s.chans[BePort(o) := ToBe(o, 7)], FePort(o), ToFe(o, 7), ToFe(o, 8));
    Over(s.places[HsTag(Init, o.key) := Used], HsTag(Ack, o.key), InChannel, InQueue);
  }

  lemma Step8(s: Sys, o: Opening)
    requires Clear(s, o)
    ensures Step(OpenAt(s, o, 8), OpenStep(s, o, 8), OpenAt(s, o, 9))
  {
    hide Step, Enabled, Do, NoMatch;
    TakesAck(OpenAt(s, o, 8), s.next, Queue(s, Fe), Req(Ack, o.key, o.sub, o.bid));
    assert Queue(s, Fe) + [] == Queue(s, Fe);
    Over(s.openq[Be := Queue(s, Be) + BeReqs(o, 8)], Fe, Queue(s, Fe) + FeReqs(o, 8), Queue(s, Fe) + FeReqs(o, 9));
    Over(s.places[HsTag(Init, o.key) := Used], HsTag(Ack, o.key), InQueue, Used);
    Swap(s.ends, s.next, FeAt(o, 8), s.next + 1, BeAt(o, 8), FeAt(o, 9));
  }

  lemma Step9(s: Sys, o: Opening)
    requires Clear(s, o)
    ensures Step(OpenAt(s, o, 9), OpenStep(s, o, 9), OpenAt(s, o, 10))
  {
    hide Step, Enabled, Do, NoMatch;
    Pairs(OpenAt(s, o, 9), s.next);
    Swap(s.ends, s.next, FeAt(o, 9), s.next + 1, BeAt(o, 9), FeAt(o, 10));
  }

  lemma Step10(s: Sys, o: Opening)
    requires Clear(s, o)
    ensures Step(OpenAt(s, o, 10), OpenStep(s, o, 10), OpenAt(s, o, 11))
  {
    hide Step, Enabled, Do, NoMatch;
    Completes(OpenAt(s, o, 10), s.next);
    Swap(s.ends, s.next, FeAt(o, 10), s.next + 1, BeAt(o, 10), FeAt(o, 11));
    Swap(s.chans, BePort(o), ToBe(o, 10), FePort(o), ToFe(o, 10), ToBe(o, 11));
  }

  lemma Step11(s: Sys, o: Opening)
    requires Clear(s, o)
    ensures Step(OpenAt(s, o, 11), OpenStep(s, o, 11), OpenAt(s, o, 12))
  {
    hide Step, Enabled, Do, NoMatch;
    Arrives(OpenAt(s, o, 11), BePort(o), Hs(Done, o.key.openId, o.sub, 0));
    assert Queue(s, Be) + [] == Queue(s, Be);
    Swap(s.chans, BePort(o), ToBe(o, 11), FePort(o), ToFe(o, 11), ToBe(o, 12));
    Swap(s.openq, Be, Queue(s, Be) + BeReqs(o, 11), Fe, Queue(s, Fe) + FeReqs(o, 11), Queue(s, Be) + BeReqs(o, 12));
    Over(s.places[HsTag(Init, o.key) := Used][HsTag(Ack, o.key) := Used], HsTag(Done, o.key), InChannel, InQueue);
  }

  lemma Step12(s: Sys, o: Opening)
    requires Clear(s, o)
    ensures Step(OpenAt(s, o, 12), OpenStep(s, o, 12), OpenAt(s, o, 13))
  {
    hide Step, Enabled, Do, NoMatch;
    TakesDone(OpenAt(s, o, 12), s.next + 1, Queue(s, Be), Req(Done, o.key, o.sub, 0));
    assert Queue(s, Be) + [] == Queue(s, Be);
    Swap(s.openq, Be, Queue(s, Be) + BeReqs(o, 12), Fe, Queue(s, Fe) + FeReqs(o, 12), Queue(s, Be) + BeReqs(o, 13));
    Over(s.places[HsTag(Init, o.key) := Used][HsTag(Ack, o.key) := Used], HsTag(Done, o.key), InQueue, Used);
    Over(s.ends[s.next := FeAt(o, 12)], s.next + 1, BeAt(o, 12), BeAt(o, 13));
  }

  lemma Each(s: Sys, o: Opening, n: nat)
    requires Clear(s, o) && n < 13
    ensures Step(OpenAt(s, o, n), OpenStep(s, o, n), OpenAt(s, o, n + 1))
  {
    if n == 0 { Opens(s, o); }
    hide Step, Clear, EndsAt, ChansAt, OpenqAt, PlacesAt, IdrAt, TagsAt;
    match n {
      case 0 => assert OpenAt(s, o, 0) == s by { AtFirst(s, o); }
      case 1 => Step1(s, o);
      case 2 => Step2(s, o);
      case 3 => Step3(s, o);
      case 4 => Step4(s, o);
      case 5 => Step5(s, o);
      case 6 => Step6(s, o);
      case 7 => Step7(s, o);
      case 8 => Step8(s, o);
      case 9 => Step9(s, o);
      case 10 => Step10(s, o);
      case 11 => Step11(s, o);
      case _ => Step12(s, o);
    }
  }

  lemma AtFirst(s: Sys, o: Opening)
    ensures OpenAt(s, o, 0) == s
  {
  }

  /** The steps of an open from the `n`th on. */
  function OpenSteps(s: Sys, o: Opening, n: nat): seq<Act>
    decreases 13 - n
  {
    if n >= 13 then [] else [OpenStep(s, o, n)] + OpenSteps(s, o, n + 1)
  }

  lemma {:induction false} Through(s: Sys, o: Opening, n: nat)
    requires Clear(s, o) && n <= 13
    ensures Does(OpenAt(s, o, n), OpenSteps(s, o, n), OpenAt(s, o, 13))
    decreases 13 - n
  {
    hide Step, Clear, OpenAt, OpenStep;
    if n < 13 {
      Each(s, o, n);
      Through(s, o, n + 1);
      Then(OpenAt(s, o, n), OpenStep(s, o, n), OpenAt(s, o, n + 1), OpenSteps(s, o, n + 1), OpenAt(s, o, 13));
    }
  }

  lemma AtLast(s: Sys, o: Opening)
    ensures
      var f, b, p := s.next, s.next + 1, o.key.pchan;
      OpenAt(s, o, 13)
      == s.(ends := s.ends[f := End(Fe, o.key, o.sub, o.fid, o.bid, Opened, false, false, false, [], [])]
                          [b := End(Be, o.key, o.sub, o.bid, o.fid, Opened, false, false, false, [], [])],
            next := s.next + 2, idr := s.idr[Slot(Port(Fe, p), o.fid) := f][Slot(Port(Be, p), o.bid) := b],
            chans := s.chans[Port(Be, p) := []][Port(Fe, p) := []], openq := s.openq[Be := Queue(s, Be)][Fe := Queue(s, Fe)],
            endOf := s.endOf[Tag(Fe, o.key) := f][Tag(Be, o.key) := b],
            places := s.places[HsTag(Init, o.key) := Used][HsTag(Ack, o.key) := Used][HsTag(Done, o.key) := Used])
  {
    assert Queue(s, Be) + [] == Queue(s, Be) && Queue(s, Fe) + [] == Queue(s, Fe);
  }

  /**
   An open meets a listen: both ends are open, for the key and the minor id that were asked for, each with its own id
   and the other's; the ids lead to them; and the physical channel and the open queues are as they were.
   */
  lemma {:induction false} OpenAlone(s: Sys, o: Opening)
    requires Clear(s, o)
    ensures
      var f, b, p := s.next, s.next + 1, o.key.pchan;
      Does(s, OpenSteps(s, o, 0),
        s.(ends := s.ends[f := End(Fe, o.key, o.sub, o.fid, o.bid, Opened, false, false, false, [], [])]
                         [b := End(Be, o.key, o.sub, o.bid, o.fid, Opened, false, false, false, [], [])],
           next := s.next + 2, idr := s.idr[Slot(Port(Fe, p), o.fid) := f][Slot(Port(Be, p), o.bid) := b],
           chans := s.chans[Port(Be, p) := []][Port(Fe, p) := []], openq := s.openq[Be := Queue(s, Be)][Fe := Queue(s, Fe)],
           endOf := s.endOf[Tag(Fe, o.key) := f][Tag(Be, o.key) := b],
           places := s.places[HsTag(Init, o.key) := Used][HsTag(Ack, o.key) := Used][HsTag(Done, o.key) := Used]))
  {
    AtFirst(s, o);
    AtLast(s, o);
    hide *;
    Through(s, o, 0);
  }

  // ---------------------------------------------------------------- opens that fail

  /** A frontend that gives up before it sends anything leaves the id table as it was. */
  lemma {:induction false} OpenAbandoned(s: Sys, key: Key, sub: nat, id: nat)
    requires 1 <= id <= 0xFFF && Slot(Port(Fe, key.pchan), id) !in s.idr && NotHeld(s, s.next)
    ensures
      Does(s, [FeOpen(key, sub, id), FeFail(s.next)],
           s.(ends := s.ends[s.next := End(Fe, key, sub, id, 0, Freed, false, false, false, [], [])], next := s.next + 1,
              endOf := s.endOf[Tag(Fe, key) := s.next]))
  {
    var o, e := Opening(key, sub, id, 0), s.next;
    var s1 := OpenAt(s, o, 1);
    Opens(s, o);
    FeFails(s1, e);
    assert s1.idr - {Slot(Port(Fe, key.pchan), id)} == s.idr;
    Over(s.ends, e, FeAt(o, 1), End(Fe, key, sub, id, 0, Freed, false, false, false, [], []));
    hide Step, Does, FreeSlot, NotHeld;
    Two(s, FeOpen(key, sub, id), s1, FeFail(e),
        s.(ends := s.ends[e := End(Fe, key, sub, id, 0, Freed, false, false, false, [], [])], next := e + 1,
           endOf := s.endOf[Tag(Fe, key) := e]));
  }

  lemma FeFails(s: Sys, e: nat)
    requires In(s, e, Fe, {Fresh, Paired}) && NotHeld(s, e)
    ensures var v := s.ends[e];
      Step(s, FeFail(e), s.(ends := s.ends[e := v.(phase := Freed, rx := [])], idr := s.idr - {Slot(Port(Fe, v.key.pchan), v.id)}))
  {
    hide CanBe, DoBe, CanPass, DoPass, NotHeld;
  }

  lemma BeFails(s: Sys, e: nat)
    requires In(s, e, Be, {Ready, Acked}) && NotHeld(s, e)
    ensures var v := s.ends[e];
      Step(s, BeFail(e), s.(ends := s.ends[e := v.(phase := Freed, rx := [])], idr := s.idr - {Slot(Port(Be, v.key.pchan), v.id)}))
  {
    hide CanFe, DoFe, CanPass, DoPass, NotHeld;
  }

  /** A backend that has taken an open and fails before or after its ack leaves the id table as it was. */
  lemma {:induction false} ListenAbandoned(s: Sys, e: nat, id: nat)
    requires e in s.ends && s.ends[e].side == Be && s.ends[e].phase.Taken? && s.ends[e].rx == [] && NotHeld(s, e)
    requires 1 <= id <= 0xFFF && Slot(Port(Be, s.ends[e].key.pchan), id) !in s.idr
    ensures
      var v := s.ends[e];
      && Does(s, [BeNoAlloc(e)], s.(ends := s.ends[e := v.(phase := Freed)]))
      && Does(s, [BeAlloc(e, id), BePair(e), BeFail(e)],
              s.(ends := s.ends[e := v.(id := id, other := v.phase.vcid, phase := Freed)]))
  {
    var v := s.ends[e];
    var s1 := s.(ends := s.ends[e := v.(id := id, phase := Alloced(v.phase.vcid))],
                 idr := s.idr[Slot(Port(Be, v.key.pchan), id) := e]);
    var s2 := s1.(ends := s.ends[e := v.(id := id, other := v.phase.vcid, phase := Ready)]);
    var s3 := s.(ends := s.ends[e := v.(id := id, other := v.phase.vcid, phase := Freed)]);
    NoId(s, e);
    Allocates(s, e, id);
    Pairs(s1, e);
    BeFails(s2, e);
    assert s2.idr - {Slot(Port(Be, v.key.pchan), id)} == s.idr;
    Over(s.ends, e, s1.ends[e], s2.ends[e]);
    Over(s.ends, e, s2.ends[e], s3.ends[e]);
    hide Step, Does, FreeSlot, NotHeld;
    One(s, BeNoAlloc(e), s.(ends := s.ends[e := v.(phase := Freed)]));
    Three(s, BeAlloc(e, id), s1, BePair(e), s2, BeFail(e), s3);
  }

  lemma NoId(s: Sys, e: nat)
    requires e in s.ends && s.ends[e].phase.Taken? && s.ends[e].rx == []
    ensures Step(s, BeNoAlloc(e), s.(ends := s.ends[e := s.ends[e].(phase := Freed)]))
  {
    hide CanFe, DoFe, CanPass, DoPass;
  }

  // ---------------------------------------------------------------- messages

  /** `e` and `f` are the two open ends of a session. */
  predicate Linked(s: Sys, e: nat, f: nat) {
    && IsOpen(s, e) && IsOpen(s, f) && s.ends[f].side == Peer(s.ends[e].side) && s.ends[f].key == s.ends[e].key
    && s.ends[e].other == s.ends[f].id && s.ends[f].other == s.ends[e].id && s.ends[e].id != 0
    && Slot(PortOf(s.ends[f]), s.ends[f].id) in s.idr && s.idr[Slot(PortOf(s.ends[f]), s.ends[f].id)] == f
    && Slot(PortOf(s.ends[e]), s.ends[e].id) in s.idr && s.idr[Slot(PortOf(s.ends[e]), s.ends[e].id)] == e
    && !s.ends[e].closed && !s.ends[e].otherClosed && !s.ends[f].closed && !s.ends[f].otherClosed
  }

  /** What the item sent to `f` does to its direction's history: sent and, once taken, seen. */
  function Noted(s: Sys, f: nat, item: Item, seen: bool, stored: seq<Bytes>): map<Tag, Log>
    requires f in s.ends
  {
    var w := s.ends[f];
    var log := LogOf(s, w.side, w.key);
    s.logs[Tag(w.side, w.key) := Log(log.sent + [item], if seen then log.seen + [item] else log.seen,
                                     log.accepted + stored, log.lost)]
  }

  lemma Posted(s: Sys, e: nat, f: nat, item: Item)
    requires Linked(s, e, f) && Chan(s, PortOf(s.ends[f])) == []
    ensures
      Post(s, s.ends[e], item)
      == s.(chans := s.chans[PortOf(s.ends[f]) := [ToVchan(s.ends[f].id, s.ends[f].key.openId, item)]],
            logs := Noted(s, f, item, false, []))
  {
    var m := ToVchan(s.ends[f].id, s.ends[f].key.openId, item);
    assert [] + [m] == [m] && LogOf(s, s.ends[f].side, s.ends[f].key).accepted + []
      == LogOf(s, s.ends[f].side, s.ends[f].key).accepted;
  }

  lemma Sends(s: Sys, e: nat, f: nat, bytes: Bytes)
    requires Linked(s, e, f) && Chan(s, PortOf(s.ends[f])) == []
    ensures
      Step(s, Send(e, bytes),
           s.(chans := s.chans[PortOf(s.ends[f]) := [ToVchan(s.ends[f].id, s.ends[f].key.openId, Data(bytes))]],
              logs := Noted(s, f, Data(bytes), false, [])))
  {
    Posted(s, e, f, Data(bytes));
    hide CanFe, DoFe, CanBe, DoBe, Post, Noted;
  }

  lemma Notifies(s: Sys, e: nat, f: nat)
    requires Linked(s, e, f) && Chan(s, PortOf(s.ends[f])) == [] && !s.ends[e].notified
    ensures
      var s1 := s.(ends := s.ends[e := s.ends[e].(closed := true)]);
      && Step(s, MarkClosed(e), s1)
      && Step(s1, Notify(e),
           s.(chans := s.chans[PortOf(s.ends[f]) := [ToVchan(s.ends[f].id, s.ends[f].key.openId, Close)]],
              logs := Noted(s, f, Close, false, []),
              ends := s.ends[e := s.ends[e].(closed := true, notified := true)]))
  {
    var s1 := s.(ends := s.ends[e := s.ends[e].(closed := true)]);
    Posted(s, e, f, Close);
    assert Post(s1, s1.ends[e], Close) == Post(s, s.ends[e], Close).(ends := s1.ends);
    Over(s.ends, e, s1.ends[e], s1.ends[e].(notified := true));
    hide CanFe, DoFe, CanBe, DoBe, Post, Noted, Linked;
    assert Step(s, MarkClosed(e), s1);
  }

  /** The state in which an item for `f` is on the channel. */
  predicate Coming(s: Sys, f: nat, item: Item) {
    && f in s.ends && s.ends[f].other != 0 && !s.ends[f].closed && !s.ends[f].otherClosed
    && Slot(PortOf(s.ends[f]), s.ends[f].id) in s.idr && s.idr[Slot(PortOf(s.ends[f]), s.ends[f].id)] == f
    && Chan(s, PortOf(s.ends[f])) == [ToVchan(s.ends[f].id, s.ends[f].key.openId, item)]
  }

  lemma Pops(s: Sys, f: nat, item: Item)
    requires Coming(s, f, item)
    ensures
      var w := s.ends[f];
      var log := LogOf(s, w.side, w.key);
      && Finds(s, PortOf(w), Chan(s, PortOf(w))[0])
      && Pop(s, PortOf(w)) == s.(chans := s.chans[PortOf(w) := []],
                                 logs := s.logs[Tag(w.side, w.key) := log.(seen := log.seen + [item])])
  {
    assert Chan(s, PortOf(s.ends[f]))[1..] == [];
  }

  lemma TakesData(s: Sys, f: nat, bytes: Bytes)
    requires Coming(s, f, Data(bytes)) && PortOf(s.ends[f]) !in s.hands
    ensures
      var w := s.ends[f];
      var log := LogOf(s, w.side, w.key);
      Step(s, Take(PortOf(w), true),
           s.(chans := s.chans[PortOf(w) := []], hands := s.hands[PortOf(w) := Hand(f, bytes)],
              logs := s.logs[Tag(w.side, w.key) := log.(seen := log.seen + [Data(bytes)])]))
  {
    Pops(s, f, Data(bytes));
    hide CanFe, DoFe, CanBe, DoBe, Pop, Finds;
  }

  lemma TakesClose(s: Sys, f: nat)
    requires Coming(s, f, Close) && PortOf(s.ends[f]) !in s.hands
    ensures
      var w := s.ends[f];
      var log := LogOf(s, w.side, w.key);
      Step(s, Take(PortOf(w), true),
           s.(chans := s.chans[PortOf(w) := []], ends := s.ends[f := w.(otherClosed := true)],
              logs := s.logs[Tag(w.side, w.key) := log.(seen := log.seen + [Close])]))
  {
    Pops(s, f, Close);
    hide CanFe, DoFe, CanBe, DoBe, Pop, Finds;
  }

  lemma Enqueues(s: Sys, port: Port, f: nat, bytes: Bytes)
    requires port in s.hands && s.hands[port] == Hand(f, bytes) && f in s.ends
    ensures
      var w := s.ends[f];
      var log := LogOf(s, w.side, w.key);
      Step(s, Enqueue(port),
           s.(hands := s.hands - {port}, ends := s.ends[f := w.(rx := w.rx + [bytes])],
              logs := s.logs[Tag(w.side, w.key) := log.(accepted := log.accepted + [bytes])]))
  {
    hide CanFe, DoFe, CanBe, DoBe;
  }

  lemma Reads(s: Sys, f: nat, bytes: Bytes, room: nat)
    requires IsOpen(s, f) && s.ends[f].rx == [bytes] && |bytes| <= room
    ensures Step(s, Recv(f, room), s.(ends := s.ends[f := s.ends[f].(rx := [], got := s.ends[f].got + [bytes])]))
  {
    hide CanFe, DoFe, CanBe, DoBe;
    assert [bytes][1..] == [];
  }

  /** The states a message goes through, after `n` steps. */
  function MessageAt(s: Sys, f: nat, bytes: Bytes, n: nat): Sys
    requires f in s.ends
  {
    var w, port := s.ends[f], PortOf(s.ends[f]);
    var s1 := s.(chans := s.chans[port := if n == 1 then [ToVchan(w.id, w.key.openId, Data(bytes))] else []],
                 logs := Noted(s, f, Data(bytes), n > 1, if n > 2 then [bytes] else []));
    match n
    case 1 => s1
    case 2 => s1.(hands := s.hands[port := Hand(f, bytes)])
    case 3 => s1.(ends := s.ends[f := w.(rx := [bytes])])
    case _ => s1.(ends := s.ends[f := w.(got := w.got + [bytes])])
  }

  lemma Message2(s: Sys, e: nat, f: nat, bytes: Bytes)
    requires Linked(s, e, f) && PortOf(s.ends[f]) !in s.hands
    ensures Step(MessageAt(s, f, bytes, 1), Take(PortOf(s.ends[f]), true), MessageAt(s, f, bytes, 2))
  {
    var s1, w := MessageAt(s, f, bytes, 1), s.ends[f];
    assert Coming(s1, f, Data(bytes));
    TakesData(s1, f, bytes);
    hide Step, Linked, Coming;
    Over(s.chans, PortOf(w), [ToVchan(w.id, w.key.openId, Data(bytes))], []);
    Over(s.logs, Tag(w.side, w.key), s1.logs[Tag(w.side, w.key)],
         s1.logs[Tag(w.side, w.key)].(seen := LogOf(s, w.side, w.key).seen + [Data(bytes)]));
  }

  lemma Message3(s: Sys, e: nat, f: nat, bytes: Bytes)
    requires Linked(s, e, f) && PortOf(s.ends[f]) !in s.hands && s.ends[f].rx == []
    ensures Step(MessageAt(s, f, bytes, 2), Enqueue(PortOf(s.ends[f])), MessageAt(s, f, bytes, 3))
  {
    var s2, w, tag := MessageAt(s, f, bytes, 2), s.ends[f], Tag(s.ends[f].side, s.ends[f].key);
    Enqueues(s2, PortOf(w), f, bytes);
    hide Step, Linked;
    assert [] + [bytes] == [bytes] && s2.hands - {PortOf(w)} == s.hands;
    var accepted := LogOf(s, w.side, w.key).accepted;
    assert accepted + [] + [bytes] == accepted + [bytes];
    Over(s.logs, tag, s2.logs[tag], s2.logs[tag].(accepted := s2.logs[tag].accepted + [bytes]));
  }

  lemma Message4(s: Sys, e: nat, f: nat, bytes: Bytes, room: nat)
    requires Linked(s, e, f) && s.ends[f].rx == [] && |bytes| <= room
    ensures Step(MessageAt(s, f, bytes, 3), Recv(f, room), MessageAt(s, f, bytes, 4))
  {
    var s3, w := MessageAt(s, f, bytes, 3), s.ends[f];
    Reads(s3, f, bytes, room);
    hide Step, Linked, Noted;
    Over(s.ends, f, s3.ends[f], w.(got := w.got + [bytes]));
  }

  /** A message to an idle peer with room for it is received as it was sent; the channel and the queue are empty again. */
  lemma {:induction false} MessageAlone(s: Sys, e: nat, f: nat, bytes: Bytes, room: nat)
    requires Linked(s, e, f) && Chan(s, PortOf(s.ends[f])) == [] && PortOf(s.ends[f]) !in s.hands && s.ends[f].rx == []
      && |bytes| <= room
    ensures
      var w := s.ends[f];
      var log := LogOf(s, w.side, w.key);
      Does(s, [Send(e, bytes), Take(PortOf(w), true), Enqueue(PortOf(w)), Recv(f, room)],
           s.(ends := s.ends[f := w.(got := w.got + [bytes])], chans := s.chans[PortOf(w) := []],
              logs := s.logs[Tag(w.side, w.key) := Log(log.sent + [Data(bytes)], log.seen + [Data(bytes)],
                                                       log.accepted + [bytes], log.lost)]))
  {
    var port := PortOf(s.ends[f]);
    var s1, s2, s3, s4 := MessageAt(s, f, bytes, 1), MessageAt(s, f, bytes, 2), MessageAt(s, f, bytes, 3),
      MessageAt(s, f, bytes, 4);
    Sends(s, e, f, bytes);
    Message2(s, e, f, bytes);
    Message3(s, e, f, bytes);
    Message4(s, e, f, bytes, room);
    hide Step, Does, Linked;
    Four(s, Send(e, bytes), s1, Take(port, true), s2, Enqueue(port), s3, Recv(f, room), s4);
  }

  // ---------------------------------------------------------------- closing

  lemma Closes(s: Sys, f: nat)
    requires IsOpen(s, f) && !s.ends[f].closed
    ensures Step(s, MarkClosed(f), s.(ends := s.ends[f := s.ends[f].(closed := true)]))
  {
    hide CanFe, DoFe, CanBe, DoBe;
  }

  lemma Stops(s: Sys, f: nat)
    requires IsOpen(s, f) && s.ends[f].closed
    ensures Step(s, Stop(f), s.(ends := s.ends[f := s.ends[f].(otherClosed := true)]))
  {
    hide CanFe, DoFe, CanBe, DoBe;
  }

  lemma Frees(s: Sys, f: nat)
    requires IsOpen(s, f) && s.ends[f].closed && s.ends[f].otherClosed && NotHeld(s, f)
    ensures var w := s.ends[f];
      Step(s, Free(f), s.(ends := s.ends[f := w.(phase := Freed, rx := [])], idr := s.idr - {Slot(PortOf(w), w.id)}))
  {
    hide CanFe, DoFe, CanBe, DoBe, NotHeld;
  }

  /** The states a close goes through, after `n` steps. */
  function CloseAt(s: Sys, e: nat, f: nat, n: nat): Sys
    requires e in s.ends && f in s.ends
  {
    var v, w, port := s.ends[e], s.ends[f], PortOf(s.ends[f]);
    var mine := v.(closed := true, notified := true, otherClosed := n >= 6, phase := if n < 7 then v.phase else Freed,
                   rx := if n < 7 then v.rx else []);
    var other := w.(otherClosed := true, closed := n >= 4, phase := if n < 5 then w.phase else Freed,
                    rx := if n < 5 then w.rx else []);
    s.(ends := if n < 3 then s.ends[e := mine] else s.ends[e := mine][f := other],
       chans := s.chans[port := if n < 3 then [ToVchan(w.id, w.key.openId, Close)] else []],
       logs := Noted(s, f, Close, n > 2, []),
       idr := if n < 5 then s.idr else if n < 7 then s.idr - {Slot(port, w.id)}
              else s.idr - {Slot(port, w.id)} - {Slot(PortOf(v), v.id)})
  }

  lemma Close12(s: Sys, e: nat, f: nat)
    requires Linked(s, e, f) && !s.ends[e].notified && Chan(s, PortOf(s.ends[f])) == []
    ensures
      var s1 := s.(ends := s.ends[e := s.ends[e].(closed := true)]);
      Step(s, MarkClosed(e), s1) && Step(s1, Notify(e), CloseAt(s, e, f, 2))
  {
    Notifies(s, e, f);
    hide Step;
  }

  lemma Close3(s: Sys, e: nat, f: nat)
    requires Linked(s, e, f) && PortOf(s.ends[f]) !in s.hands
    ensures Step(CloseAt(s, e, f, 2), Take(PortOf(s.ends[f]), true), CloseAt(s, e, f, 3))
  {
    var s2, w := CloseAt(s, e, f, 2), s.ends[f];
    assert e != f;
    assert Coming(s2, f, Close);
    TakesClose(s2, f);
    hide Step, Linked, Coming;
    Over(s.chans, PortOf(w), [ToVchan(w.id, w.key.openId, Close)], []);
    Over(s.logs, Tag(w.side, w.key), s2.logs[Tag(w.side, w.key)],
         s2.logs[Tag(w.side, w.key)].(seen := LogOf(s, w.side, w.key).seen + [Close]));
  }

  lemma Close45(s: Sys, e: nat, f: nat)
    requires Linked(s, e, f) && NotHeld(s, f)
    ensures Step(CloseAt(s, e, f, 3), MarkClosed(f), CloseAt(s, e, f, 4)) && Step(CloseAt(s, e, f, 4), Free(f), CloseAt(s, e, f, 5))
  {
    var s3, s4, s5 := CloseAt(s, e, f, 3), CloseAt(s, e, f, 4), CloseAt(s, e, f, 5);
    assert NotHeld(s4, f);
    Closes(s3, f);
    Over(s.ends[e := s3.ends[e]], f, s3.ends[f], s4.ends[f]);
    Frees(s4, f);
    hide Step, Linked, Noted;
    Over(s.ends[e := s3.ends[e]], f, s4.ends[f], s5.ends[f]);
  }

  lemma Close67(s: Sys, e: nat, f: nat)
    requires Linked(s, e, f) && NotHeld(s, e)
    ensures Step(CloseAt(s, e, f, 5), Stop(e), CloseAt(s, e, f, 6)) && Step(CloseAt(s, e, f, 6), Free(e), CloseAt(s, e, f, 7))
  {
    var s5, s6, s7 := CloseAt(s, e, f, 5), CloseAt(s, e, f, 6), CloseAt(s, e, f, 7);
    assert e != f && NotHeld(s6, e);
    Stops(s5, e);
    Swap(s.ends, e, s5.ends[e], f, s5.ends[f], s6.ends[e]);
    Frees(s6, e);
    hide Step, Linked, Noted;
    Swap(s.ends, e, s6.ends[e], f, s6.ends[f], s7.ends[e]);
  }

  lemma CloseSteps(s: Sys, e: nat, f: nat)
    requires Linked(s, e, f) && !s.ends[e].notified && NotHeld(s, e) && NotHeld(s, f)
    requires Chan(s, PortOf(s.ends[f])) == [] && PortOf(s.ends[f]) !in s.hands
    ensures
      Does(s, [MarkClosed(e), Notify(e), Take(PortOf(s.ends[f]), true)] + [MarkClosed(f), Free(f), Stop(e), Free(e)],
           CloseAt(s, e, f, 7))
  {
    assert e in s.ends && f in s.ends;
    hide *;
    var port := PortOf(s.ends[f]);
    var s1, s2, s3 := s.(ends := s.ends[e := s.ends[e].(closed := true)]), CloseAt(s, e, f, 2), CloseAt(s, e, f, 3);
    var s4, s5, s6, s7 := CloseAt(s, e, f, 4), CloseAt(s, e, f, 5), CloseAt(s, e, f, 6), CloseAt(s, e, f, 7);
    Close12(s, e, f);
    Close3(s, e, f);
    Close45(s, e, f);
    Close67(s, e, f);
    Four(s3, MarkClosed(f), s4, Free(f), s5, Stop(e), s6, Free(e), s7);
    Three(s, MarkClosed(e), s1, Notify(e), s2, Take(port, true), s3);
    Joined(s, [MarkClosed(e), Notify(e), Take(port, true)], s3, [MarkClosed(f), Free(f), Stop(e), Free(e)], s7);
  }

  /** A close at one end reaches the other; both ends are freed and both ids are free again. */
  lemma {:induction false} CloseAlone(s: Sys, e: nat, f: nat)
    requires Linked(s, e, f) && !s.ends[e].notified && NotHeld(s, e) && NotHeld(s, f)
    requires Chan(s, PortOf(s.ends[f])) == [] && PortOf(s.ends[f]) !in s.hands
    ensures
      var v, w := s.ends[e], s.ends[f];
      var log := LogOf(s, w.side, w.key);
      Does(s, [MarkClosed(e), Notify(e), Take(PortOf(w), true)] + [MarkClosed(f), Free(f), Stop(e), Free(e)],
           s.(ends := s.ends[e := v.(closed := true, notified := true, otherClosed := true, phase := Freed, rx := [])]
                            [f := w.(otherClosed := true, closed := true, phase := Freed, rx := [])],
              chans := s.chans[PortOf(w) := []], idr := s.idr - {Slot(PortOf(w), w.id)} - {Slot(PortOf(v), v.id)},
              logs := s.logs[Tag(w.side, w.key) := Log(log.sent + [Close], log.seen + [Close], log.accepted, log.lost)]))
  {
    var v, w := s.ends[e], s.ends[f];
    var log := LogOf(s, w.side, w.key);
    assert e != f;
    assert CloseAt(s, e, f, 7)
        == s.(ends := s.ends[e := v.(closed := true, notified := true, otherClosed := true, phase := Freed, rx := [])]
                            [f := w.(otherClosed := true, closed := true, phase := Freed, rx := [])],
              chans := s.chans[PortOf(w) := []], idr := s.idr - {Slot(PortOf(w), w.id)} - {Slot(PortOf(v), v.id)},
              logs := s.logs[Tag(w.side, w.key) := Log(log.sent + [Close], log.seen + [Close], log.accepted, log.lost)]) by {
        assert log.accepted + [] == log.accepted;
      }
    hide *;
    CloseSteps(s, e, f);
  }

  /**
   What an open end may do, exactly: it sends at any time, for a call may have looked at the flag before it was set; it
   sends CLOSE at most once, after it was closed and before it hears of the other end's close; and it is freed once it
   is closed at both ends and the receive path holds no reference.
   */
  lemma {:induction false} OpenEndExactly(s: Sys, e: nat, bytes: Bytes, room: nat)
    requires IsOpen(s, e)
    ensures Enabled(s, Send(e, bytes)) && Enabled(s, Recv(e, room))
    ensures Enabled(s, MarkClosed(e)) <==> !s.ends[e].closed
    ensures Enabled(s, Notify(e)) <==> s.ends[e].closed && !s.ends[e].otherClosed && !s.ends[e].notified
    ensures Enabled(s, Stop(e)) <==> s.ends[e].closed
    ensures Enabled(s, Free(e)) <==>
      s.ends[e].closed && s.ends[e].otherClosed && forall port :: port in s.hands ==> s.hands[port].e != e
  {
    hide CanFe, CanBe;
  }

  /** The receive path is never stuck: it can take whatever comes next, waiting for nothing but its own last message. */
  lemma {:induction false} NeverStuck(s: Sys, port: Port, stored: bool)
    requires Chan(s, port) != []
    ensures Enabled(s, Arrive(port, stored)) <==> Chan(s, port)[0].Hs?
    ensures Enabled(s, Take(port, stored)) <==> Chan(s, port)[0].ToVchan? && port !in s.hands
    ensures Enabled(s, Enqueue(port)) <==> port in s.hands && s.hands[port].e in s.ends
    ensures forall side, i: nat :: i < |Queue(s, side)| ==> Enabled(s, Expire(side, i))
  {
    hide CanFe, CanBe;
  }
}
