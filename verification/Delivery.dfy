/** End-to-end delivery of plain messages in module Session. */
module Delivery {
  import opened Common
  import opened Session
  import H = Handshake

  /** What of one session is still in a physical channel. */
  function InFlight(q: seq<Msg>, session: nat): seq<Item> {
    if q == [] then []
    else (if q[0].ToVchan? && q[0].session == session then [q[0].item] else []) + InFlight(q[1..], session)
  }

  /** The messages sent before the first CLOSE. */
  function Until(items: seq<Item>): seq<Bytes> {
    if items == [] || items[0].Close? then [] else [items[0].bytes] + Until(items[1..])
  }

  /** `a` is `b` with some elements left out: in order and without duplicates. */
  predicate Subsequence(a: seq<Bytes>, b: seq<Bytes>) {
    a == [] || (b != [] && (Subsequence(a, b[..|b| - 1]) || (a[|a| - 1] == b[|b| - 1] && Subsequence(a[..|a| - 1], b[..|b| - 1]))))
  }

  lemma {:induction false} InFlightMore(q: seq<Msg>, m: Msg, session: nat)
    ensures InFlight(q + [m], session) == InFlight(q, session) + (if m.ToVchan? && m.session == session then [m.item] else [])
  {
    if q == [] {
      assert (q + [m])[1..] == [];
    } else {
      assert (q + [m])[1..] == q[1..] + [m];
      InFlightMore(q[1..], m, session);
    }
  }

  lemma {:induction false} UntilMore(items: seq<Item>, x: Item)
    ensures Until(items + [x]) == Until(items) + (if Close !in items && x.Data? then [x.bytes] else [])
  {
    if items == [] {
      assert (items + [x])[1..] == [];
    } else if items[0].Data? {
      assert (items + [x])[1..] == items[1..] + [x];
      assert Close in items <==> Close in items[1..];
      UntilMore(items[1..], x);
    }
  }

  /** A CLOSE among what was seen cuts the rest off. */
  lemma {:induction false} UntilClosed(seen: seq<Item>, rest: seq<Item>)
    requires Close in seen
    ensures Until(seen + rest) == Until(seen)
  {
    if seen[0].Data? {
      assert (seen + rest)[1..] == seen[1..] + rest;
      UntilClosed(seen[1..], rest);
    }
  }

  lemma {:induction false} UntilPrefix(seen: seq<Item>, rest: seq<Item>)
    ensures Until(seen) <= Until(seen + rest)
  {
    if seen != [] && seen[0].Data? {
      assert (seen + rest)[1..] == seen[1..] + rest;
      UntilPrefix(seen[1..], rest);
    }
  }

  lemma SubsequenceMore(a: seq<Bytes>, b: seq<Bytes>, x: Bytes)
    requires Subsequence(a, b)
    ensures Subsequence(a, b + [x]) && Subsequence(a + [x], b + [x])
  {
  }

  // ---------------------------------------------------------------- the invariant

  /** The message in the hands of the receive path, if it is for this session. */
  function HandOf(s: Sys, side: Side, key: Key): seq<Bytes> {
    var port := Port(side, key.pchan);
    if port in s.hands && s.hands[port].e in s.ends && s.ends[s.hands[port].e].key == key then [s.hands[port].bytes] else []
  }

  /** What the receive path has taken for the receiver, queued yet or not. */
  function Taken(s: Sys, side: Side, key: Key): seq<Bytes> { LogOf(s, side, key).accepted + HandOf(s, side, key) }

  predicate EndData(log: Log, taken: seq<Bytes>, v: End) {
    && (v.phase != Freed ==> v.got + v.rx == log.accepted)
    && v.got <= log.accepted && (v.phase == Freed ==> v.rx == [])
    && (v.phase != Freed && !v.closed ==> (v.otherClosed <==> Close in log.seen) && (!log.lost ==> taken == Until(log.seen)))
    && (v.phase != Freed && !v.closed && v.otherClosed ==> taken == log.accepted)
  }

  predicate KeyData(s: Sys, side: Side, key: Key) {
    var log := LogOf(s, side, key);
    && log.sent == log.seen + InFlight(Chan(s, Port(side, key.pchan)), key.openId)
    && Subsequence(Taken(s, side, key), Until(log.seen))
    && (!log.lost ==> Taken(s, side, key) <= Until(log.seen))
    && if H.HasEnd(s, side, key) then EndData(log, Taken(s, side, key), H.EndAt(s, side, key))
       else log.seen == [] && Taken(s, side, key) == [] && !log.lost
  }

  ghost predicate Inv(s: Sys) { H.Inv(s) && H.HandsOk(s) && forall side, key :: KeyData(s, side, key) }

  // ---------------------------------------------------------------- frames

  predicate EndKept(v: End, v': End) {
    && v'.got == v.got
    && (v'.phase == Freed ==> v'.rx == [] || (v.phase == Freed && v'.rx == v.rx))
    && (v'.phase != Freed ==>
          v.phase != Freed && v'.rx == v.rx && v'.closed == v.closed && v'.otherClosed == v.otherClosed)
  }

  predicate Blank(v: End) { v.got == [] && v.rx == [] && !v.closed && !v.otherClosed }

  predicate EndsFit(s: Sys, s': Sys, side: Side, key: Key) {
    if H.HasEnd(s, side, key) then H.HasEnd(s', side, key) && EndKept(H.EndAt(s, side, key), H.EndAt(s', side, key))
    else H.HasEnd(s', side, key) ==> Blank(H.EndAt(s', side, key))
  }

  lemma KeyDataKept(s: Sys, s': Sys, side: Side, key: Key)
    requires KeyData(s, side, key) && EndsFit(s, s', side, key)
    requires LogOf(s', side, key) == LogOf(s, side, key) && HandOf(s', side, key) == HandOf(s, side, key)
    requires InFlight(Chan(s', Port(side, key.pchan)), key.openId) == InFlight(Chan(s, Port(side, key.pchan)), key.openId)
    ensures KeyData(s', side, key)
  {
  }

  lemma FitAll(s: Sys, s': Sys, e: nat, v: End)
    requires H.EndsInv(s) && H.HandsOk(s) && H.Rewrites(s, s', e, v) && s'.hands == s.hands
    requires if e in s.ends then EndKept(s.ends[e], v) else Blank(v)
    ensures forall side, key :: EndsFit(s, s', side, key) && HandOf(s', side, key) == HandOf(s, side, key)
  {
    hide H.EndsInv, H.EndOk, H.SlotOk;
    H.Views(s, s', e, v);
    forall side, key ensures EndsFit(s, s', side, key) {
      if Tag(side, key) != Tag(v.side, v.key) { H.OtherTag(s, s', e, v, side, key); }
    }
    hide H.AllGrow, H.OthersAlike, H.SidesAlike, EndsFit;
    forall side, key ensures HandOf(s', side, key) == HandOf(s, side, key) {
      var port := Port(side, key.pchan);
      assert port in s.hands ==> H.Live(s, s.hands[port].e, port);
    }
  }

  // ---------------------------------------------------------------- steps of the handshake, and freeing

  predicate OpensOrFrees(a: Act) {
    || a.FeOpen? || a.FeInit? || a.FeTake? || a.FePair? || a.FeDone? || a.FeFail? || a.BeTake? || a.BeAlloc? || a.BeNoAlloc?
    || a.BePair? || a.BeAck? || a.BeFail? || a.BeDone? || a.Free?
  }

  /** The record the step rewrites. */
  function Subject(s: Sys, a: Act): nat
    requires OpensOrFrees(a)
  {
    if a.FeOpen? || a.BeTake? then s.next else a.e
  }

  lemma Rewriting(s: Sys, a: Act)
    requires H.Inv(s) && Enabled(s, a) && Allowed(s, a) && OpensOrFrees(a)
    ensures var s', e := Do(s, a), Subject(s, a);
      && e in s'.ends && H.Rewrites(s, s', e, s'.ends[e]) && s'.hands == s.hands && s'.logs == s.logs
      && if e in s.ends then EndKept(s.ends[e], s'.ends[e]) else Blank(s'.ends[e])
  {
    hide H.Inv, SendHs, Unqueue;
    if a.FeOpen? || a.BeTake? {
      NewSubject(s, a);
    } else {
      H.Facts(s, a.e);
      hide H.KeyOk, H.EndOk;
      OldSubject(s, a);
    }
  }

  /** What the step makes of the record. */
  ghost predicate Rewritten(s: Sys, s': Sys, e: nat) {
    && e in s.ends && e in s'.ends && H.Rewrites(s, s', e, s'.ends[e]) && s'.hands == s.hands && s'.logs == s.logs
    && EndKept(s.ends[e], s'.ends[e])
  }

  lemma OldSubject(s: Sys, a: Act)
    requires Enabled(s, a) && OpensOrFrees(a) && !a.FeOpen? && !a.BeTake?
    requires H.EndOk(s, a.e, s.ends[a.e]) && H.KeyOk(s, s.ends[a.e].key)
    ensures Rewritten(s, Do(s, a), a.e)
  {
    var v := s.ends[a.e];
    assert s.endOf[Tag(v.side, v.key) := a.e] == s.endOf;
    assert (a.BeAlloc? ==> v.id == 0) && (a.FePair? || a.BePair? ==> v.other == 0);
    hide H.EndOk, H.KeyOk, DoFe, CanFe, DoBe, CanBe, DoPass, CanPass, Rewritten;
    if ByFe(a) { OldSubjectFe(s, a); } else if ByBe(a) { OldSubjectBe(s, a); } else { FreedSubject(s, a.e); }
  }

  lemma OldSubjectFe(s: Sys, a: Act)
    requires CanFe(s, a) && !a.FeOpen? && Known(s, a.e) && (a.FePair? ==> s.ends[a.e].other == 0)
    ensures Rewritten(s, DoFe(s, a), a.e)
  {
    hide SendHs, Unqueue;
  }

  lemma OldSubjectBe(s: Sys, a: Act)
    requires CanBe(s, a) && !a.BeTake? && Known(s, a.e)
    requires (a.BeAlloc? ==> s.ends[a.e].id == 0) && (a.BePair? ==> s.ends[a.e].other == 0)
    ensures Rewritten(s, DoBe(s, a), a.e)
  {
    hide SendHs, Unqueue;
  }

  lemma FreedSubject(s: Sys, e: nat)
    requires CanPass(s, Free(e)) && Known(s, e)
    ensures Rewritten(s, DoPass(s, Free(e)), e)
  {
  }

  /** The record is the one its key leads to. */
  predicate Known(s: Sys, e: nat) {
    e in s.ends && var v := s.ends[e]; Tag(v.side, v.key) in s.endOf && s.endOf[Tag(v.side, v.key) := e] == s.endOf
  }

  lemma NewSubject(s: Sys, a: Act)
    requires H.Inv(s) && Enabled(s, a) && Allowed(s, a) && (a.FeOpen? || a.BeTake?)
    ensures s.next !in s.ends
    ensures a.BeTake? ==> Tag(Be, Queue(s, Be)[a.i].key) !in s.endOf
  {
    hide H.Inv;
    if s.next in s.ends { H.Facts(s, s.next); }
    if a.BeTake? { BeIsNew(s, a.i); }
  }

  lemma BeIsNew(s: Sys, i: nat)
    requires H.Inv(s) && i < |Queue(s, Be)| && Queue(s, Be)[i].kind == Init
    ensures Tag(Be, Queue(s, Be)[i].key) !in s.endOf
  {
    hide H.ChansInv, H.QueuesInv;
    H.ReqFacts(s, Be, i);
    var key := Queue(s, Be)[i].key;
    assert Tag(Be, key) in s.endOf ==> H.HasEnd(s, Be, key);
  }

  lemma SameFlight(s: Sys, a: Act, port: Port, session: nat)
    requires Enabled(s, a) && OpensOrFrees(a)
    ensures InFlight(Chan(Do(s, a), port), session) == InFlight(Chan(s, port), session)
  {
    hide Unqueue;
    if a.FeInit? {
      SentFlight(s, Do(s, a), Be, Init, s.ends[a.e], s.ends[a.e].id, port, session);
    } else if a.FeDone? {
      SentFlight(s, Do(s, a), Be, Done, s.ends[a.e], 0, port, session);
    } else if a.BeAck? {
      SentFlight(s, Do(s, a), Fe, Ack, s.ends[a.e], s.ends[a.e].id, port, session);
    } else {
      hide SendHs;
    }
  }

  lemma SentFlight(s: Sys, s': Sys, side: Side, kind: Kind, v: End, vcid: nat, port: Port, session: nat)
    requires s'.chans == SendHs(s, side, kind, v, vcid).chans
    ensures InFlight(Chan(s', port), session) == InFlight(Chan(s, port), session)
  {
    InFlightMore(Chan(s, port), Hs(kind, v.key.openId, v.sub, vcid), session);
  }

  /** The open queues and the places of handshake messages are all that change besides a channel. */
  lemma ArriveEffect(s: Sys, a: Act, port: Port, session: nat)
    requires Enabled(s, a) && (a.Arrive? || a.Expire?)
    ensures Do(s, a) == s.(chans := Do(s, a).chans, openq := Do(s, a).openq, places := Do(s, a).places)
    ensures InFlight(Chan(Do(s, a), port), session) == InFlight(Chan(s, port), session)
  {
    if a.Arrive? {
      ArriveFlight(s, a.port, a.stored, port, session);
    } else {
      hide Unqueue, InFlight;
    }
  }

  lemma ArriveFlight(s: Sys, x: Port, stored: bool, port: Port, session: nat)
    requires Enabled(s, Arrive(x, stored))
    ensures var s' := Do(s, Arrive(x, stored));
      && s' == s.(chans := s'.chans, openq := s'.openq, places := s'.places)
      && InFlight(Chan(s', port), session) == InFlight(Chan(s, port), session)
  {
  }

  lemma OpeningInv(s: Sys, a: Act)
    requires Inv(s) && Enabled(s, a) && Allowed(s, a) && OpensOrFrees(a)
    ensures forall side, key :: KeyData(Do(s, a), side, key)
  {
    hide H.EndsInv, H.ChansInv, H.QueuesInv, H.HandsOk, H.KeyOk, Do, Enabled, Allowed, OpensOrFrees, H.Rewrites;
    var s', e := Do(s, a), Subject(s, a);
    Rewriting(s, a);
    FitAll(s, s', e, s'.ends[e]);
    forall side, key ensures KeyData(s', side, key) {
      SameFlight(s, a, Port(side, key.pchan), key.openId);
      KeyDataKept(s, s', side, key);
    }
  }

  lemma ArrivingInv(s: Sys, a: Act)
    requires Inv(s) && Enabled(s, a) && (a.Arrive? || a.Expire?)
    ensures forall side, key :: KeyData(Do(s, a), side, key)
  {
    hide H.Inv, H.HandsOk, KeyData, Enabled, Do;
    var s' := Do(s, a);
    forall side, key ensures KeyData(s', side, key) {
      ArriveEffect(s, a, Port(side, key.pchan), key.openId);
      KeyDataKept(s, s', side, key);
    }
  }

  // ---------------------------------------------------------------- sending, receiving, closing

  /** Nothing that `KeyData` looks at changes for tags other than `tag`. */
  ghost predicate OnlyTag(s: Sys, s': Sys, tag: Tag) {
    forall side, key :: Tag(side, key) != tag ==>
      && EndsFit(s, s', side, key)
      && LogOf(s', side, key) == LogOf(s, side, key) && HandOf(s', side, key) == HandOf(s, side, key)
      && InFlight(Chan(s', Port(side, key.pchan)), key.openId) == InFlight(Chan(s, Port(side, key.pchan)), key.openId)
  }

  lemma OnlyTagInv(s: Sys, s': Sys, tag: Tag)
    requires Inv(s) && OnlyTag(s, s', tag) && KeyData(s', tag.side, tag.key)
    ensures forall side, key :: KeyData(s', side, key)
  {
    hide H.Inv, H.HandsOk, KeyData, EndsFit, LogOf, HandOf, InFlight;
    forall side, key ensures KeyData(s', side, key) {
      if Tag(side, key) != tag { KeyDataKept(s, s', side, key); }
    }
  }

  /** The record of a live end changes, and nothing else. */
  lemma OwnEnd(s: Sys, s': Sys, e: nat, v: End)
    requires Inv(s) && e in s.ends && v.side == s.ends[e].side && v.key == s.ends[e].key && v.id == s.ends[e].id && v.other == s.ends[e].other
    requires s' == s.(ends := s.ends[e := v])
    ensures OnlyTag(s, s', Tag(v.side, v.key))
    ensures HandOf(s', v.side, v.key) == HandOf(s, v.side, v.key) && LogOf(s', v.side, v.key) == LogOf(s, v.side, v.key)
    ensures H.HasEnd(s, v.side, v.key) && H.EndAt(s, v.side, v.key) == s.ends[e]
    ensures H.HasEnd(s', v.side, v.key) && H.EndAt(s', v.side, v.key) == v
  {
    hide H.Inv, InFlight, KeyData;
    H.Facts(s, e);
    hide H.KeyOk, H.EndOk;
    forall side, key | Tag(side, key) != Tag(v.side, v.key) ensures EndsFit(s, s', side, key) {
      if H.HasEnd(s, side, key) { OtherEnd(s, e, side, key); }
    }
    forall side, key ensures HandOf(s', side, key) == HandOf(s, side, key) {
      var port := Port(side, key.pchan);
      assert port in s.hands ==> H.Live(s, s.hands[port].e, port);
    }
  }

  lemma OtherEnd(s: Sys, e: nat, side: Side, key: Key)
    requires H.Inv(s) && e in s.ends && Tag(side, key) != Tag(s.ends[e].side, s.ends[e].key) && H.HasEnd(s, side, key)
    ensures s.endOf[Tag(side, key)] != e
  {
  }

  lemma FlagData(s: Sys, a: Act)
    requires Inv(s) && Enabled(s, a) && (a.MarkClosed? || a.Stop?)
    ensures forall side, key :: KeyData(Do(s, a), side, key)
  {
    hide H.Inv, InFlight, Subsequence, Until;
    var s', v := Do(s, a), s.ends[a.e];
    OwnEnd(s, s', a.e, s'.ends[a.e]);
    assert KeyData(s, v.side, v.key);
    hide LogOf, HandOf, OnlyTag;
    OnlyTagInv(s, s', Tag(v.side, v.key));
  }

  /** A receive with room for it moves the oldest message of the queue to the end of what was received; any other changes nothing. */
  lemma RecvMoves(s: Sys, e: nat, room: nat)
    requires Enabled(s, Recv(e, room))
    ensures
      var v := s.ends[e];
      Do(s, Recv(e, room)) ==
        if v.rx != [] && |v.rx[0]| <= room then s.(ends := s.ends[e := v.(rx := v.rx[1..], got := v.got + [v.rx[0]])]) else s
  {
    hide DoFe, CanFe, DoBe, CanBe;
  }

  lemma RecvData(s: Sys, e: nat, room: nat)
    requires Inv(s) && Enabled(s, Recv(e, room))
    ensures forall side, key :: KeyData(Do(s, Recv(e, room)), side, key)
  {
    hide H.Inv, InFlight, Subsequence, Until;
    var s', v := Do(s, Recv(e, room)), s.ends[e];
    if s' != s {
      OwnEnd(s, s', e, s'.ends[e]);
      assert KeyData(s, v.side, v.key);
      var d := Dequeue(v.rx, v.otherClosed, room, Woken);
      assert v.got + v.rx == (v.got + [d.msg]) + d.rx;
      hide LogOf, HandOf, OnlyTag;
      OnlyTagInv(s, s', Tag(v.side, v.key));
    }
  }

  lemma PostData(s: Sys, s': Sys, e: nat, item: Item)
    requires Inv(s) && IsOpen(s, e) && s' == Post(s, s.ends[e], item)
    ensures forall side, key :: KeyData(s', side, key)
  {
    hide H.Inv, H.HandsOk;
    var v := s.ends[e];
    var tag := Tag(Peer(v.side), v.key);
    assert KeyData(s, tag.side, tag.key);
    hide KeyData, EndsFit, LogOf, HandOf, InFlight, Chan, Post;
    forall side, key | Tag(side, key) != tag
      ensures EndsFit(s, s', side, key)
      ensures LogOf(s', side, key) == LogOf(s, side, key) && HandOf(s', side, key) == HandOf(s, side, key)
      ensures InFlight(Chan(s', Port(side, key.pchan)), key.openId) == InFlight(Chan(s, Port(side, key.pchan)), key.openId)
    {
      PostViews(s, s', v, item, side, key);
    }
    PostViews(s, s', v, item, tag.side, tag.key);
    PostOwn(s, s', v, item);
    OnlyTagInv(s, s', tag);
  }

  /** What sending leaves of each session's view, and adds to the peer's. */
  predicate PostView(s: Sys, s': Sys, v: End, item: Item, side: Side, key: Key) {
    var own := Tag(side, key) == Tag(Peer(v.side), v.key);
    && EndsFit(s, s', side, key) && HandOf(s', side, key) == HandOf(s, side, key)
    && LogOf(s', side, key) == (if own then LogOf(s, side, key).(sent := LogOf(s, side, key).sent + [item]) else LogOf(s, side, key))
    && InFlight(Chan(s', Port(side, key.pchan)), key.openId)
      == InFlight(Chan(s, Port(side, key.pchan)), key.openId) + (if own then [item] else [])
  }

  lemma PostViews(s: Sys, s': Sys, v: End, item: Item, side: Side, key: Key)
    requires s' == Post(s, v, item)
    ensures PostView(s, s', v, item, side, key)
  {
    InFlightMore(Chan(s, Port(side, key.pchan)), ToVchan(v.other, v.key.openId, item), key.openId);
    hide InFlight, HandOf;
    assert HandOf(s', side, key) == HandOf(s, side, key) by { SameHandOf(s, s', side, key); }
  }

  lemma SameHandOf(s: Sys, s': Sys, side: Side, key: Key)
    requires s'.ends == s.ends && s'.hands == s.hands
    ensures HandOf(s', side, key) == HandOf(s, side, key)
  {
  }

  lemma PostOwn(s: Sys, s': Sys, v: End, item: Item)
    requires KeyData(s, Peer(v.side), v.key) && PostView(s, s', v, item, Peer(v.side), v.key) && s' == Post(s, v, item)
    ensures KeyData(s', Peer(v.side), v.key)
  {
  }

  lemma NotifyData(s: Sys, e: nat)
    requires Inv(s) && Enabled(s, Notify(e))
    ensures forall side, key :: KeyData(Do(s, Notify(e)), side, key)
  {
    hide H.Inv, H.HandsOk, KeyData, OnlyTag;
    var s1, s' := Post(s, s.ends[e], Close), Do(s, Notify(e));
    PostData(s, s1, e, Close);
    H.PostInv(s, s1, e, Close);
    assert Inv(s1) by { hide Post; SameHands(s, s1); }
    var v := s'.ends[e];
    OwnEnd(s1, s', e, v);
    NotifiedData(s1, s', e, v);
    OnlyTagInv(s1, s', Tag(v.side, v.key));
  }

  lemma SameHands(s: Sys, s': Sys)
    requires H.HandsOk(s) && s' == s.(chans := s'.chans, logs := s'.logs)
    ensures H.HandsOk(s')
  {
  }

  lemma NotifiedData(s: Sys, s': Sys, e: nat, v: End)
    requires e in s.ends && v == s.ends[e].(notified := true) && s' == s.(ends := s.ends[e := v]) && KeyData(s, v.side, v.key)
    requires HandOf(s', v.side, v.key) == HandOf(s, v.side, v.key)
    requires H.HasEnd(s, v.side, v.key) && H.EndAt(s, v.side, v.key) == s.ends[e]
    requires H.HasEnd(s', v.side, v.key) && H.EndAt(s', v.side, v.key) == v
    ensures KeyData(s', v.side, v.key)
  {
    hide HandOf, InFlight, Subsequence, Until, H.HasEnd, H.EndAt;
    assert LogOf(s', v.side, v.key) == LogOf(s, v.side, v.key);
    assert Chan(s', Port(v.side, v.key.pchan)) == Chan(s, Port(v.side, v.key.pchan));
    hide LogOf, Chan;
  }

  lemma EnqueueData(s: Sys, port: Port)
    requires Inv(s) && Enabled(s, Enqueue(port))
    ensures forall side, key :: KeyData(Do(s, Enqueue(port)), side, key)
  {
    hide H.Inv, InFlight, Subsequence, Until, KeyData;
    var s', h := Do(s, Enqueue(port)), s.hands[port];
    var v := s.ends[h.e];
    assert H.Live(s, h.e, port);
    var s1 := s.(ends := s'.ends);
    OwnEnd(s, s1, h.e, s'.ends[h.e]);
    EnqueuedOwn(s, s', port);
    hide EndsFit;
    assert OnlyTag(s, s', Tag(v.side, v.key)) by {
      forall side, key | Tag(side, key) != Tag(v.side, v.key) ensures EndsFit(s, s', side, key) {
        SameView(s, s1, s', side, key);
      }
      assert forall side, key :: Tag(side, key) != Tag(v.side, v.key) ==> HandOf(s', side, key) == HandOf(s, side, key);
    }
    hide OnlyTag;
    OnlyTagInv(s, s', Tag(v.side, v.key));
  }

  lemma SameView(s: Sys, s1: Sys, s': Sys, side: Side, key: Key)
    requires EndsFit(s, s1, side, key) && s'.ends == s1.ends && s'.endOf == s1.endOf
    ensures EndsFit(s, s', side, key)
  {
  }

  lemma EnqueuedOwn(s: Sys, s': Sys, port: Port)
    requires Inv(s) && Enabled(s, Enqueue(port)) && s' == Do(s, Enqueue(port)) && H.Live(s, s.hands[port].e, port)
    requires var v := s.ends[s.hands[port].e]; H.HasEnd(s, v.side, v.key) && s.endOf[Tag(v.side, v.key)] == s.hands[port].e
    ensures var v := s.ends[s.hands[port].e]; KeyData(s', v.side, v.key)
  {
    hide H.Inv, InFlight, Subsequence, Until;
    var h := s.hands[port];
    var v := s.ends[h.e];
    assert KeyData(s, v.side, v.key);
    assert HandOf(s, v.side, v.key) == [h.bytes] && HandOf(s', v.side, v.key) == [];
    assert Taken(s', v.side, v.key) == Taken(s, v.side, v.key);
    var log := LogOf(s, v.side, v.key);
    assert v.got + (v.rx + [h.bytes]) == (v.got + v.rx) + [h.bytes];
  }

  /** The key of the message at the head of a channel. */
  function HeadKey(s: Sys, port: Port): Key
    requires Chan(s, port) != [] && Chan(s, port)[0].ToVchan?
  {
    Key(port.pchan, Chan(s, port)[0].session)
  }

  /** A message finds the receiver of its own session, unless that is freed or closed. */
  lemma FindsOwn(s: Sys, port: Port)
    requires H.Inv(s) && Chan(s, port) != [] && Chan(s, port)[0].ToVchan?
    ensures H.HasEnd(s, port.side, HeadKey(s, port))
    ensures var v := H.EndAt(s, port.side, HeadKey(s, port));
      Finds(s, port, Chan(s, port)[0]) <==> v.phase != Freed && !v.closed && !v.otherClosed
    ensures Finds(s, port, Chan(s, port)[0]) ==> s.idr[Slot(port, Chan(s, port)[0].id)] == s.endOf[Tag(port.side, HeadKey(s, port))]
  {
  }

  /** The head of the channel is taken; its item joins what was seen. */
  predicate Seen(s: Sys, s': Sys, port: Port)
    requires Chan(s, port) != [] && Chan(s, port)[0].ToVchan?
  {
    var m, key := Chan(s, port)[0], HeadKey(s, port);
    var log, log' := LogOf(s, port.side, key), LogOf(s', port.side, key);
    && Chan(s', port) == Chan(s, port)[1..]
    && log'.sent == log.sent && log'.seen == log.seen + [m.item] && log'.accepted == log.accepted
    && H.HasEnd(s, port.side, key) && H.HasEnd(s', port.side, key)
  }

  /** No receiver: it is freed, or closed at this end, or CLOSE was seen. */
  lemma MissedData(s: Sys, s': Sys, port: Port)
    requires Chan(s, port) != [] && Chan(s, port)[0].ToVchan? && Seen(s, s', port) && KeyData(s, port.side, HeadKey(s, port))
    requires var key := HeadKey(s, port);
      && H.EndAt(s', port.side, key) == H.EndAt(s, port.side, key) && HandOf(s', port.side, key) == HandOf(s, port.side, key)
      && LogOf(s', port.side, key).lost == LogOf(s, port.side, key).lost
      && (H.EndAt(s, port.side, key).phase == Freed || H.EndAt(s, port.side, key).closed || H.EndAt(s, port.side, key).otherClosed)
    ensures KeyData(s', port.side, HeadKey(s, port))
  {
    hide Subsequence, HandOf, LogOf;
    var m, key := Chan(s, port)[0], HeadKey(s, port);
    var seen, taken := LogOf(s, port.side, key).seen, Taken(s, port.side, key);
    UntilMore(seen, m.item);
    UntilPrefix(seen, [m.item]);
    if Close in seen { UntilClosed(seen, [m.item]); }
    if Until(seen + [m.item]) != Until(seen) { SubsequenceMore(taken, Until(seen), m.item.bytes); }
  }

  lemma CloseData(s: Sys, s': Sys, port: Port)
    requires Chan(s, port) != [] && Chan(s, port)[0].ToVchan? && Seen(s, s', port) && KeyData(s, port.side, HeadKey(s, port))
    requires var key := HeadKey(s, port);
      && Chan(s, port)[0].item == Close && HandOf(s', port.side, key) == HandOf(s, port.side, key) == []
      && H.EndAt(s', port.side, key) == H.EndAt(s, port.side, key).(otherClosed := true)
      && LogOf(s', port.side, key).lost == LogOf(s, port.side, key).lost
    ensures KeyData(s', port.side, HeadKey(s, port))
  {
    hide Subsequence, HandOf, LogOf;
    var key := HeadKey(s, port);
    var seen := LogOf(s, port.side, key).seen;
    UntilMore(seen, Close);
    assert (seen + [Close])[|seen|] == Close;
    assert LogOf(s', port.side, key).seen == seen + [Close];
    assert Taken(s', port.side, key) == Taken(s, port.side, key);
    hide Until;
    ClosedEnd(LogOf(s, port.side, key), LogOf(s', port.side, key), Taken(s, port.side, key), H.EndAt(s, port.side, key));
    hide EndData, Taken;
  }

  lemma ClosedEnd(log: Log, log': Log, taken: seq<Bytes>, v: End)
    requires EndData(log, taken, v) && taken == log.accepted && log'.accepted == log.accepted && log'.lost == log.lost
    requires Close in log'.seen && Until(log'.seen) == Until(log.seen)
    ensures EndData(log', taken, v.(otherClosed := true))
  {
  }

  /** The receiver is there: the message goes into its hands, or is lost for want of memory. */
  lemma GivenData(s: Sys, s': Sys, port: Port, stored: bool)
    requires Chan(s, port) != [] && Chan(s, port)[0].ToVchan? && Seen(s, s', port) && KeyData(s, port.side, HeadKey(s, port))
    requires var m, key := Chan(s, port)[0], HeadKey(s, port);
      var v := H.EndAt(s, port.side, key);
      && m.item.Data? && v.phase != Freed && !v.closed && !v.otherClosed
      && H.EndAt(s', port.side, key) == v && HandOf(s, port.side, key) == []
      && HandOf(s', port.side, key) == (if stored then [m.item.bytes] else [])
      && LogOf(s', port.side, key).lost == (LogOf(s, port.side, key).lost || !stored)
    ensures KeyData(s', port.side, HeadKey(s, port))
  {
    hide Subsequence, HandOf, LogOf;
    var m, key := Chan(s, port)[0], HeadKey(s, port);
    var seen, taken := LogOf(s, port.side, key).seen, Taken(s, port.side, key);
    UntilMore(seen, m.item);
    SubsequenceMore(taken, Until(seen), m.item.bytes);
    assert taken == LogOf(s, port.side, key).accepted;
    assert !stored ==> Taken(s', port.side, key) == taken;
    assert stored ==> Taken(s', port.side, key) == taken + [m.item.bytes];
  }

  lemma TagOf(s: Sys, side: Side, key: Key)
    requires H.Inv(s) && H.HasEnd(s, side, key)
    ensures H.EndAt(s, side, key).side == side && H.EndAt(s, side, key).key == key
  {
  }

  /** What taking a message does to its own session. */
  lemma TakeEffect(s: Sys, s': Sys, port: Port, stored: bool, e: nat)
    requires H.HandsOk(s) && Enabled(s, Take(port, stored)) && s' == Do(s, Take(port, stored))
    requires var key := HeadKey(s, port);
      H.HasEnd(s, port.side, key) && s.endOf[Tag(port.side, key)] == e && s.ends[e].key == key && s.ends[e].side == port.side
    requires Finds(s, port, Chan(s, port)[0]) ==> s.idr[Slot(port, Chan(s, port)[0].id)] == e
    ensures Seen(s, s', port) && HandOf(s, port.side, HeadKey(s, port)) == []
    ensures var m, key, found := Chan(s, port)[0], HeadKey(s, port), Finds(s, port, Chan(s, port)[0]);
      && H.EndAt(s', port.side, key) == (if found && m.item.Close? then s.ends[e].(otherClosed := true) else s.ends[e])
      && HandOf(s', port.side, key) == (if found && m.item.Data? && stored then [m.item.bytes] else [])
      && LogOf(s', port.side, key).lost == (LogOf(s, port.side, key).lost || (found && m.item.Data? && !stored))
  {
    assert port == Port(port.side, HeadKey(s, port).pchan);
    PopEffect(s, port);
    hide Finds, Pop, InFlight;
    if Finds(s, port, Chan(s, port)[0]) {
      DeliverEffect(Pop(s, port), port, e, Chan(s, port)[0].item, stored);
      hide Deliver;
    }
  }

  lemma PopEffect(s: Sys, port: Port)
    requires Chan(s, port) != [] && Chan(s, port)[0].ToVchan? && H.HasEnd(s, port.side, HeadKey(s, port))
    ensures Seen(s, Pop(s, port), port) && LogOf(Pop(s, port), port.side, HeadKey(s, port)).lost == LogOf(s, port.side, HeadKey(s, port)).lost
  {
  }

  lemma DeliverEffect(s: Sys, port: Port, e: nat, item: Item, stored: bool)
    requires e in s.ends && PortOf(s.ends[e]) == port && port !in s.hands
    requires s.ends[e].side == port.side && Tag(port.side, s.ends[e].key) in s.endOf && s.endOf[Tag(port.side, s.ends[e].key)] == e
    ensures var s', key := Deliver(s, port, e, item, stored), s.ends[e].key;
      && s'.chans == s.chans && s'.endOf == s.endOf && e in s'.ends && H.HasEnd(s', port.side, key)
      && H.EndAt(s', port.side, key) == (if item.Close? then s.ends[e].(otherClosed := true) else s.ends[e])
      && HandOf(s', port.side, key) == (if item.Data? && stored then [item.bytes] else [])
      && LogOf(s', port.side, key) == LogOf(s, port.side, key).(lost := LogOf(s, port.side, key).lost || (item.Data? && !stored))
  {
  }

  lemma TakeData(s: Sys, port: Port, stored: bool)
    requires Inv(s) && Enabled(s, Take(port, stored))
    ensures forall side, key :: KeyData(Do(s, Take(port, stored)), side, key)
  {
    hide H.Inv, H.HandsOk, KeyData, Subsequence, Until;
    var s', m, key := Do(s, Take(port, stored)), Chan(s, port)[0], HeadKey(s, port);
    FindsOwn(s, port);
    TagOf(s, port.side, key);
    assert KeyData(s, port.side, key);
    TakeEffect(s, s', port, stored, s.endOf[Tag(port.side, key)]);
    TakeOthers(s, port, stored);
    hide Do, OnlyTag, Seen, Finds, HandOf, LogOf, InFlight;
    if !Finds(s, port, m) {
      MissedData(s, s', port);
    } else if m.item.Close? {
      CloseData(s, s', port);
    } else {
      GivenData(s, s', port, stored);
    }
    OnlyTagInv(s, s', Tag(port.side, key));
  }

  lemma TakeOthers(s: Sys, port: Port, stored: bool)
    requires Inv(s) && Enabled(s, Take(port, stored))
    ensures OnlyTag(s, Do(s, Take(port, stored)), Tag(port.side, HeadKey(s, port)))
  {
    hide H.Inv, H.HandsOk, KeyData;
    FindsOwn(s, port);
    TagOf(s, port.side, HeadKey(s, port));
    var s', e, m := Do(s, Take(port, stored)), s.endOf[Tag(port.side, HeadKey(s, port))], Chan(s, port)[0];
    forall side, key | Tag(side, key) != Tag(port.side, HeadKey(s, port))
      ensures EndsFit(s, s', side, key) && LogOf(s', side, key) == LogOf(s, side, key) && HandOf(s', side, key) == HandOf(s, side, key)
      ensures InFlight(Chan(s', Port(side, key.pchan)), key.openId) == InFlight(Chan(s, Port(side, key.pchan)), key.openId)
    {
      if H.HasEnd(s, side, key) { OtherEnd(s, e, side, key); }
      PopView(s, port, side, key);
      hide Pop, InFlight, Finds, LogOf, HandOf, EndsFit;
      if Finds(s, port, m) { DeliverView(s, Pop(s, port), port, e, m.item, stored, side, key); }
    }
  }

  lemma PopView(s: Sys, port: Port, side: Side, key: Key)
    requires Chan(s, port) != [] && Chan(s, port)[0].ToVchan? && Tag(side, key) != Tag(port.side, HeadKey(s, port))
    ensures var s' := Pop(s, port);
      && EndsFit(s, s', side, key) && LogOf(s', side, key) == LogOf(s, side, key) && HandOf(s', side, key) == HandOf(s, side, key)
      && InFlight(Chan(s', Port(side, key.pchan)), key.openId) == InFlight(Chan(s, Port(side, key.pchan)), key.openId)
  {
  }

  lemma DeliverView(s: Sys, s1: Sys, port: Port, e: nat, item: Item, stored: bool, side: Side, key: Key)
    requires s1 == s.(chans := s1.chans, logs := s1.logs) && H.HandsOk(s) && port !in s.hands
    requires e in s.ends && PortOf(s.ends[e]) == port && Tag(side, key) != Tag(port.side, s.ends[e].key)
    requires H.HasEnd(s, side, key) ==> s.endOf[Tag(side, key)] != e
    ensures var s' := Deliver(s1, port, e, item, stored);
      && EndsFit(s, s', side, key) && LogOf(s', side, key) == LogOf(s1, side, key) && HandOf(s', side, key) == HandOf(s1, side, key)
      && Chan(s', Port(side, key.pchan)) == Chan(s1, Port(side, key.pchan))
  {
  }

  lemma {:induction false} DoInv(s: Sys, a: Act)
    requires Inv(s) && Enabled(s, a) && Allowed(s, a)
    ensures Inv(Do(s, a))
  {
    hide H.Inv, H.HandsOk, KeyData, Enabled, Do, Allowed;
    H.DoInv(s, a);
    match a
    case Arrive(_, _) => ArrivingInv(s, a);
    case Expire(_, _) => ArrivingInv(s, a);
    case Send(e, bytes) => SendData(s, e, bytes);
    case MarkClosed(_) => FlagData(s, a);
    case Notify(e) => NotifyData(s, e);
    case Stop(_) => FlagData(s, a);
    case Take(port, stored) => TakeData(s, port, stored);
    case Enqueue(port) => EnqueueData(s, port);
    case Recv(e, room) => RecvData(s, e, room);
    case _ => OpeningInv(s, a);
  }

  lemma SendData(s: Sys, e: nat, bytes: Bytes)
    requires Inv(s) && Enabled(s, Send(e, bytes))
    ensures forall side, key :: KeyData(Do(s, Send(e, bytes)), side, key)
  {
    hide Inv, Post;
    PostData(s, Do(s, Send(e, bytes)), e, Data(bytes));
  }

  lemma StartInv(s: Sys)
    requires Start(s)
    ensures Inv(s)
  {
  }

  lemma {:induction false} RunInv(ss: seq<Sys>, steps: seq<Act>, n: nat)
    requires IsRun(ss, steps) && n < |ss|
    ensures Inv(ss[n])
  {
    hide Inv, Enabled, Do, Allowed, Start;
    if n == 0 {
      StartInv(ss[0]);
    } else {
      RunInv(ss, steps, n - 1);
      assert Leads(ss[n - 1], steps[n - 1], ss[n - 1 + 1]);
      DoInv(ss[n - 1], steps[n - 1]);
    }
  }

  // ---------------------------------------------------------------- the main results

  /** All messages sent towards this end by its peer, which has the same session. */
  function SentTo(s: Sys, v: End): seq<Item> { LogOf(s, v.side, v.key).sent }

  lemma {:induction false} SubsequenceWeaker(a: seq<Bytes>, b: seq<Bytes>, c: seq<Bytes>)
    requires Subsequence(a, b) && b <= c
    ensures Subsequence(a, c)
    decreases |c|
  {
    if |b| < |c| {
      SubsequenceWeaker(a, b, c[..|c| - 1]);
      if a != [] { }
    } else {
      assert b == c;
    }
  }

  lemma {:induction false} SubsequenceShorter(a: seq<Bytes>, a': seq<Bytes>, b: seq<Bytes>)
    requires Subsequence(a, b) && a' <= a
    ensures Subsequence(a', b)
    decreases |b|
  {
    if a' != [] && a' != a {
      if Subsequence(a, b[..|b| - 1]) {
        SubsequenceShorter(a, a', b[..|b| - 1]);
      } else {
        SubsequenceShorter(a[..|a| - 1], a', b[..|b| - 1]);
      }
    }
  }

  /**
   Delivery: what a virtual channel has received, and has waiting, is an in-order, duplicate-free
   subsequence of what its peer sent in the same session before closing, and a prefix of it if no
   allocation failed.  Nothing comes from another session, hence not from an earlier user of the id.
   */
  lemma {:induction false} InOrderDelivery(ss: seq<Sys>, steps: seq<Act>, n: nat, e: nat)
    requires IsRun(ss, steps) && n < |ss| && e in ss[n].ends
    ensures var s, v := ss[n], ss[n].ends[e];
      && Subsequence(v.got + v.rx, Until(SentTo(s, v)))
      && (!LogOf(s, v.side, v.key).lost ==> v.got + v.rx <= Until(SentTo(s, v)))
  {
    RunInv(ss, steps, n);
    hide IsRun;
    var s, v := ss[n], ss[n].ends[e];
    H.Facts(s, e);
    hide H.Inv;
    var log := LogOf(s, v.side, v.key);
    assert KeyData(s, v.side, v.key);
    hide LogOf, HandOf, InFlight, Subsequence, Until;
    var flight := InFlight(Chan(s, Port(v.side, v.key.pchan)), v.key.openId);
    UntilPrefix(log.seen, flight);
    SubsequenceShorter(Taken(s, v.side, v.key), v.got + v.rx, Until(log.seen));
    SubsequenceWeaker(v.got + v.rx, Until(log.seen), Until(log.sent));
  }

  /**
   Draining: when receive reports that the other end is gone, without a local close and with no
   failed allocation, every message sent before the peer's CLOSE has been handed to the caller.
   */
  lemma {:induction false} DrainsBeforeNoDevice(ss: seq<Sys>, steps: seq<Act>, n: nat, e: nat, room: nat, wait: Wait)
    requires IsRun(ss, steps) && n < |ss| && IsOpen(ss[n], e) && !ss[n].ends[e].closed
    requires var v := ss[n].ends[e];
      !LogOf(ss[n], v.side, v.key).lost && Dequeue(v.rx, v.otherClosed, room, wait).ret == NoDevice
    ensures var s, v := ss[n], ss[n].ends[e]; v.got == Until(SentTo(s, v)) && Close in SentTo(s, v)
  {
    RunInv(ss, steps, n);
    hide IsRun;
    var s, v := ss[n], ss[n].ends[e];
    H.Facts(s, e);
    hide H.Inv;
    var log := LogOf(s, v.side, v.key);
    assert KeyData(s, v.side, v.key);
    hide LogOf, HandOf, InFlight, Subsequence, Until;
    UntilClosed(log.seen, InFlight(Chan(s, Port(v.side, v.key.pchan)), v.key.openId));
  }
}
