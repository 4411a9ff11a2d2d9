/**
 Which service an open reaches: the minor id a frontend asks for is the one its listener was waiting for.  And which
 ids the ends get.
 */
module Service {
  import opened Common
  import opened Session

  import H = Handshake

  // ---------------------------------------------------------------- a frontend's record

  /** Records keep their minor id and key, and what a step adds is the new handle under its own tag. */
  ghost predicate Steady(s: Sys, s': Sys, added: Option<Tag>) {
    && (forall e :: e in s.ends && e < s.next ==> e in s'.ends && s'.ends[e].sub == s.ends[e].sub)
    && s'.endOf == if added.Some? then s.endOf[added.value := s.next] else s.endOf
  }

  lemma SteadyFe(s: Sys, a: Act)
    requires CanFe(s, a)
    ensures Steady(s, DoFe(s, a), if a.FeOpen? then Some(Tag(Fe, a.key)) else None)
  {
    hide SendHs, Unqueue, First, FreeSlot;
  }

  lemma SteadyBe(s: Sys, a: Act)
    requires CanBe(s, a)
    ensures Steady(s, DoBe(s, a), if a.BeTake? then Some(Tag(Be, Queue(s, Be)[a.i].key)) else None)
  {
    hide SendHs, Unqueue, First, FreeSlot;
  }

  lemma SteadyPass(s: Sys, a: Act)
    requires CanPass(s, a)
    ensures Steady(s, DoPass(s, a), None)
  {
    if a.Take? {
      SteadyTake(s, a.port, a.stored);
      hide DoPass, CanPass;
    } else if a.Enqueue? || a.Recv? || a.Free? {
      SteadyOther(s, a);
      hide DoPass, CanPass;
    } else {
      hide Unqueue, Post, SetPlace, Push, Dequeue, LogOf;
    }
  }

  lemma SteadyOther(s: Sys, a: Act)
    requires CanPass(s, a) && (a.Enqueue? || a.Recv? || a.Free?)
    ensures Steady(s, DoPass(s, a), None)
  {
    var e := if a.Enqueue? then s.hands[a.port].e else a.e;
    OneEnd(s, a, e);
    OneSteady(s, DoPass(s, a), e);
    hide *;
  }

  /** Only the record `e` changes, and its minor id does not. */
  ghost predicate Only(s: Sys, s': Sys, e: nat) {
    e in s.ends && e in s'.ends && s'.endOf == s.endOf && s'.ends == s.ends[e := s'.ends[e]] && s'.ends[e].sub == s.ends[e].sub
  }

  lemma OneEnd(s: Sys, a: Act, e: nat)
    requires CanPass(s, a) && (a.Enqueue? || a.Recv? || a.Free?) && e == if a.Enqueue? then s.hands[a.port].e else a.e
    ensures Only(s, DoPass(s, a), e)
  {
    hide Unqueue, Post, SetPlace, Push, LogOf, NotHeld, Steady;
    if a.Recv? { assert s.ends[e := s.ends[e]] == s.ends; }
  }

  lemma OneSteady(s: Sys, s': Sys, e: nat)
    requires Only(s, s', e)
    ensures Steady(s, s', None)
  {
  }

  lemma SteadyTake(s: Sys, port: Port, stored: bool)
    requires CanPass(s, Take(port, stored))
    ensures Steady(s, DoPass(s, Take(port, stored)), None)
  {
    var m := Chan(s, port)[0];
    if Finds(s, port, m) { SteadyDeliver(Pop(s, port), port, s.idr[Slot(port, m.id)], m.item, stored); }
    hide Pop, Deliver;
  }

  lemma SteadyDeliver(s: Sys, port: Port, e: nat, item: Item, stored: bool)
    requires e in s.ends
    ensures Steady(s, Deliver(s, port, e, item, stored), None)
  {
    hide LogOf;
  }

  /** A frontend's record is made by the open of its key, with the minor id that open asks for, which it keeps. */
  lemma FrontendFrom(s: Sys, a: Act, key: Key)
    requires H.Inv(s) && Enabled(s, a) && Allowed(s, a) && H.HasEnd(Do(s, a), Fe, key)
    ensures
      var sub := H.EndAt(Do(s, a), Fe, key).sub;
      (a.FeOpen? && a.key == key && a.sub == sub) || (H.HasEnd(s, Fe, key) && H.EndAt(s, Fe, key).sub == sub)
  {
    if H.HasEnd(s, Fe, key) { H.Facts(s, s.endOf[Tag(Fe, key)]); }
    TagsKnown(s, Fe, key);
    hide H.Inv, DoFe, CanFe, DoBe, CanBe, DoPass, CanPass, Allowed, Steady;
    var added := None;
    if ByFe(a) {
      SteadyFe(s, a);
      if a.FeOpen? { OpenEffect(s, a); added := Some(Tag(Fe, a.key)); }
    } else if ByBe(a) {
      TakeIndex(s, a);
      SteadyBe(s, a);
      if a.BeTake? { added := Some(Tag(Be, Queue(s, Be)[a.i].key)); }
    } else {
      SteadyPass(s, a);
    }
    if added == Some(Tag(Fe, key)) { SteadyTag(s, Do(s, a), key); } else { SteadyEnd(s, Do(s, a), added, key); }
    hide Do, Enabled;
  }

  lemma TakeIndex(s: Sys, a: Act)
    requires CanBe(s, a)
    ensures a.BeTake? ==> a.i < |Queue(s, Be)|
  {
  }

  lemma SteadyEnd(s: Sys, s': Sys, added: Option<Tag>, key: Key)
    requires Steady(s, s', added) && (Tag(Fe, key) in s.endOf ==> H.HasEnd(s, Fe, key) && s.endOf[Tag(Fe, key)] < s.next)
    requires H.HasEnd(s', Fe, key) && added != Some(Tag(Fe, key))
    ensures H.HasEnd(s, Fe, key) && H.EndAt(s, Fe, key).sub == H.EndAt(s', Fe, key).sub
  {
  }

  lemma SteadyTag(s: Sys, s': Sys, key: Key)
    requires Steady(s, s', Some(Tag(Fe, key)))
    ensures s'.endOf[Tag(Fe, key)] == s.next
  {
  }

  lemma TagsKnown(s: Sys, side: Side, key: Key)
    requires H.Inv(s)
    ensures Tag(side, key) in s.endOf ==> H.HasEnd(s, side, key)
  {
  }

  lemma OpenEffect(s: Sys, a: Act)
    requires CanFe(s, a) && a.FeOpen?
    ensures s.next in DoFe(s, a).ends && DoFe(s, a).ends[s.next].sub == a.sub
  {
  }

  // ---------------------------------------------------------------- runs

  /** Every frontend was opened, for the minor id it has. */
  lemma {:induction false} OpenedBy(ss: seq<Sys>, steps: seq<Act>, n: nat, key: Key) returns (k: nat)
    requires IsRun(ss, steps) && n < |ss| && H.HasEnd(ss[n], Fe, key)
    ensures k < n && steps[k].FeOpen? && steps[k].key == key && steps[k].sub == H.EndAt(ss[n], Fe, key).sub
  {
    hide H.Inv, H.HandsOk, Enabled, Do, Allowed;
    k := 0;
    if n > 0 {
      hide Start;
      H.RunInv(ss, steps, n - 1);
      assert Leads(ss[n - 1], steps[n - 1], ss[n - 1 + 1]);
      FrontendFrom(ss[n - 1], steps[n - 1], key);
      if H.HasEnd(ss[n - 1], Fe, key) && H.EndAt(ss[n - 1], Fe, key).sub == H.EndAt(ss[n], Fe, key).sub {
        k := OpenedBy(ss, steps, n - 1, key);
      } else {
        k := n - 1;
      }
    }
  }

  /** There is one open per key: the open ids of a channel are distinct. */
  lemma {:induction false} OpenedOnce(ss: seq<Sys>, steps: seq<Act>, i: nat, j: nat)
    requires IsRun(ss, steps) && i < j < |steps| && steps[i].FeOpen? && steps[j].FeOpen?
    ensures steps[i].key != steps[j].key
  {
    StillThere(ss, steps, i, j);
    assert Leads(ss[j], steps[j], ss[j + 1]);
    hide Enabled, Do, Start;
  }

  lemma {:induction false} StillThere(ss: seq<Sys>, steps: seq<Act>, i: nat, j: nat)
    requires IsRun(ss, steps) && i < j < |ss| && steps[i].FeOpen?
    ensures Tag(Fe, steps[i].key) in ss[j].endOf
    decreases j
  {
    hide CanFe, DoFe, CanBe, DoBe, CanPass, DoPass, Start, Allowed;
    var s, a := ss[j - 1], steps[j - 1];
    assert Leads(s, a, ss[j - 1 + 1]);
    if j - 1 > i { StillThere(ss, steps, i, j - 1); }
    if ByFe(a) { SteadyFe(s, a); } else if ByBe(a) { SteadyBe(s, a); } else { SteadyPass(s, a); }
    hide IsRun;
  }

  /** The minor id of a request on its way to a listener is the one its frontend was opened for. */
  lemma RequestSub(s: Sys, i: nat)
    requires H.Inv(s) && i < |Queue(s, Be)|
    ensures var r := Queue(s, Be)[i]; H.HasEnd(s, Fe, r.key) && H.EndAt(s, Fe, r.key).sub == r.sub
  {
    H.ReqFacts(s, Be, i);
  }

  lemma TakenSub(s: Sys, i: nat, sub: nat)
    requires Enabled(s, BeTake(i, sub))
    ensures i < |Queue(s, Be)| && Queue(s, Be)[i].sub == sub
  {
    hide CanFe, CanPass;
  }

  /**
   Service agreement: a listener that takes an open was waiting for the minor id, and on the channel and with the
   open id, that some frontend's open asked for; and whatever any open with that channel and open id asked for is that.
   */
  lemma {:induction false} ReachesItsService(ss: seq<Sys>, steps: seq<Act>, j: nat) returns (k: nat)
    requires IsRun(ss, steps) && j < |steps| && steps[j].BeTake?
    ensures steps[j].i < |Queue(ss[j], Be)|
    ensures
      var key := Queue(ss[j], Be)[steps[j].i].key;
      && k < j && steps[k].FeOpen? && steps[k].key == key && steps[k].sub == steps[j].sub
      && forall i :: 0 <= i < j && steps[i].FeOpen? && steps[i].key == key ==> steps[i].sub == steps[j].sub
  {
    H.RunInv(ss, steps, j);
    assert Leads(ss[j], steps[j], ss[j + 1]);
    TakenSub(ss[j], steps[j].i, steps[j].sub);
    RequestSub(ss[j], steps[j].i);
    hide H.Inv, H.HandsOk, Enabled, Do, Start, Leads;
    var key := Queue(ss[j], Be)[steps[j].i].key;
    k := OpenedBy(ss, steps, j, key);
    forall i | 0 <= i < j && steps[i].FeOpen? && steps[i].key == key ensures i == k {
      if i < k { OpenedOnce(ss, steps, i, k); } else if k < i { OpenedOnce(ss, steps, k, i); }
    }
  }

  /** So both ends of an open channel are for one minor id, the one that was asked for. */
  lemma {:induction false} OneService(ss: seq<Sys>, steps: seq<Act>, i: nat, n: nat, f: nat, b: nat)
    requires IsRun(ss, steps) && i < n < |ss| && steps[i].FeOpen?
    requires f in ss[n].ends && b in ss[n].ends && ss[n].ends[f].side == Fe && ss[n].ends[b].side == Be
    requires ss[n].ends[f].key == ss[n].ends[b].key == steps[i].key
    ensures ss[n].ends[f].sub == ss[n].ends[b].sub == steps[i].sub
  {
    H.RunInv(ss, steps, n);
    H.Facts(ss[n], f);
    H.Facts(ss[n], b);
    assert H.HasEnd(ss[n], Fe, steps[i].key) && H.HasEnd(ss[n], Be, steps[i].key);
    hide H.Inv, H.HandsOk, IsRun;
    var k := OpenedBy(ss, steps, n, steps[i].key);
    if i < k { OpenedOnce(ss, steps, i, k); } else if k < i { OpenedOnce(ss, steps, k, i); }
  }

  // ---------------------------------------------------------------- ids

  /** Every id in use fits the 12 bits of a message header, and is not 0. */
  predicate IdsFit(s: Sys) { forall x :: x in s.idr ==> 1 <= x.id <= 0xFFF }

  lemma IdsStep(s: Sys, a: Act)
    requires IdsFit(s) && Enabled(s, a)
    ensures IdsFit(Do(s, a))
  {
    if ByFe(a) {
      hide CanBe, DoBe, CanPass, DoPass, SendHs, Unqueue, First;
    } else if ByBe(a) {
      hide CanFe, DoFe, CanPass, DoPass, SendHs, Unqueue, First;
    } else {
      IdsPass(s, a);
      hide CanFe, DoFe, CanBe, DoBe, CanPass, DoPass;
    }
  }

  lemma IdsPass(s: Sys, a: Act)
    requires IdsFit(s) && CanPass(s, a)
    ensures IdsFit(DoPass(s, a))
  {
    hide Unqueue, Post, SetPlace, Push, Dequeue, LogOf, Pop, Finds, NotHeld;
    if a.Take? {
      IdsTake(s, a.port, a.stored);
      hide DoPass, CanPass;
    }
  }

  lemma IdsTake(s: Sys, port: Port, stored: bool)
    requires CanPass(s, Take(port, stored))
    ensures DoPass(s, Take(port, stored)).idr == s.idr
  {
    hide LogOf, Pop;
  }

  lemma {:induction false} IdsFitHeader(ss: seq<Sys>, steps: seq<Act>, n: nat)
    requires IsRun(ss, steps) && n < |ss|
    ensures IdsFit(ss[n])
  {
    hide Enabled, Do, Allowed;
    if n > 0 {
      hide Start;
      IdsFitHeader(ss, steps, n - 1);
      assert Leads(ss[n - 1], steps[n - 1], ss[n - 1 + 1]);
      IdsStep(ss[n - 1], steps[n - 1]);
    }
  }
}
