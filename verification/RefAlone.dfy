/** The life of one context and one virtual channel when nothing interferes: what is left of them at the end. */
module RefAlone {
  import opened RefCount

  predicate Step(s: Sys, a: Act, s': Sys) { Enabled(s, a) && Do(s, a) == s' }

  /** The steps are possible one after the other and lead from `s` to `s'`. */
  predicate Does(s: Sys, acts: seq<Act>, s': Sys)
    decreases |acts|
  {
    if acts == [] then s == s' else Enabled(s, acts[0]) && Does(Do(s, acts[0]), acts[1..], s')
  }

  lemma Then(s: Sys, a: Act, s1: Sys, acts: seq<Act>, s2: Sys)
    requires Step(s, a, s1) && Does(s1, acts, s2)
    ensures Does(s, [a] + acts, s2)
  {
    hide Do, Enabled;
    assert ([a] + acts)[1..] == acts;
  }

  /** The context is new, and the threads have no reference. */
  predicate Idle(s: Sys, c: nat, t: nat) {
    && c !in s.ctxs && s.next !in s.vcs && t !in s.reading
    && Opener(t) !in s.holds && Caller(t) !in s.holds && Receiver(t) !in s.holds && Closer(t) !in s.holds
    && (forall v :: v in s.vcs ==> s.vcs[v].ctx != c)
    && (forall h :: h in s.holds ==> s.holds[h] in s.vcs)
    && (forall u :: u in s.reading ==> s.reading[u].c != c)
  }

  /** A life: opened, published, its id read, used by a call and by the receive path, closed, freed; then the file is closed. */
  function LifeStep(s: Sys, c: nat, t: nat, n: nat): Act {
    match n
    case 0 => OpenFile(c)
    case 1 => Alloc(t, c)
    case 2 => Publish(t)
    case 3 => ReadId(t)
    case 4 => Get(t, s.next)
    case 5 => Find(t, s.next)
    case 6 => Unlist(t, s.next)
    case 7 => Put(Caller(t))
    case 8 => Put(Receiver(t))
    case 9 => Put(Closer(t))
    case 10 => PutContext(s.next)
    case 11 => FreeVchan(s.next)
    case _ => CloseFile(c)
  }

  function LifeSteps(s: Sys, c: nat, t: nat, n: nat): seq<Act>
    decreases 13 - n
  {
    if n >= 13 then [] else [LifeStep(s, c, t, n)] + LifeSteps(s, c, t, n + 1)
  }

  /** The virtual channel after `n` steps, from the second on: one reference for the list and one for each holder. */
  function VchanAt(c: nat, t: nat, n: nat): Vchan {
    Vchan(c, if n < 5 then 1 else if n == 5 then 2 else if n < 8 then 3 else if n == 8 then 2 else if n == 9 then 1 else 0,
          3 <= n < 7, if n < 10 then Alive else if n == 10 then Dying else NoContext, t, 3 <= n)
  }

  function VcsAt(s: Sys, c: nat, t: nat, n: nat): map<nat, Vchan> {
    if n < 2 || n > 11 then s.vcs else s.vcs[s.next := VchanAt(c, t, n)]
  }

  function HoldsAt(s: Sys, t: nat, n: nat): map<Holder, nat> {
    if n == 2 then s.holds[Opener(t) := s.next]
    else if n == 5 then s.holds[Caller(t) := s.next]
    else if n == 6 then s.holds[Caller(t) := s.next][Receiver(t) := s.next]
    else if n == 7 then s.holds[Caller(t) := s.next][Receiver(t) := s.next][Closer(t) := s.next]
    else if n == 8 then s.holds[Receiver(t) := s.next][Closer(t) := s.next]
    else if n == 9 then s.holds[Closer(t) := s.next]
    else s.holds
  }

  function CtxsAt(s: Sys, c: nat, n: nat): map<nat, Ctx> {
    if n == 0 then s.ctxs
    else s.ctxs[c := if n == 13 then Ctx(0, false, 1) else Ctx(if n == 1 || n > 10 then 1 else 2, true, 0)]
  }

  function LifeAt(s: Sys, c: nat, t: nat, n: nat): Sys {
    s.(vcs := VcsAt(s, c, t, n), next := if n < 2 then s.next else s.next + 1, holds := HoldsAt(s, t, n), ctxs := CtxsAt(s, c, n),
       reading := if n == 3 then s.reading[t := Read(s.next, c)] else s.reading)
  }

  lemma OpensFile(s: Sys, c: nat, t: nat)
    requires Idle(s, c, t)
    ensures Step(LifeAt(s, c, t, 0), LifeStep(s, c, t, 0), LifeAt(s, c, t, 1))
  {
    var s0, s1, a := LifeAt(s, c, t, 0), LifeAt(s, c, t, 1), LifeStep(s, c, t, 0);
    assert Enabled(s0, a);
    assert Do(s0, a).ctxs == s1.ctxs;
  }

  lemma Allocates(s: Sys, c: nat, t: nat)
    requires Idle(s, c, t)
    ensures Step(LifeAt(s, c, t, 1), LifeStep(s, c, t, 1), LifeAt(s, c, t, 2))
  {
    var s0, s1, a := LifeAt(s, c, t, 1), LifeAt(s, c, t, 2), LifeStep(s, c, t, 1);
    assert Enabled(s0, a);
    assert Do(s0, a).vcs == s1.vcs && Do(s0, a).holds == s1.holds && Do(s0, a).ctxs == s1.ctxs;
  }

  lemma Publishes(s: Sys, c: nat, t: nat)
    requires Idle(s, c, t)
    ensures Step(LifeAt(s, c, t, 2), LifeStep(s, c, t, 2), LifeAt(s, c, t, 3))
  {
    var s0, s1, a := LifeAt(s, c, t, 2), LifeAt(s, c, t, 3), LifeStep(s, c, t, 2);
    assert Enabled(s0, a);
    assert Do(s0, a).vcs == s1.vcs && Do(s0, a).holds == s1.holds && Do(s0, a).reading == s1.reading;
  }

  lemma ReadsId(s: Sys, c: nat, t: nat)
    requires Idle(s, c, t)
    ensures Step(LifeAt(s, c, t, 3), LifeStep(s, c, t, 3), LifeAt(s, c, t, 4))
  {
    var s0, s1, a := LifeAt(s, c, t, 3), LifeAt(s, c, t, 4), LifeStep(s, c, t, 3);
    assert Enabled(s0, a);
    assert Do(s0, a).reading == s1.reading;
  }

  lemma IsUsed(s: Sys, c: nat, t: nat)
    requires Idle(s, c, t)
    ensures Step(LifeAt(s, c, t, 4), LifeStep(s, c, t, 4), LifeAt(s, c, t, 5))
  {
    var s0, s1, a := LifeAt(s, c, t, 4), LifeAt(s, c, t, 5), LifeStep(s, c, t, 4);
    assert Enabled(s0, a);
    assert Do(s0, a).vcs == s1.vcs && Do(s0, a).holds == s1.holds;
  }

  lemma IsFound(s: Sys, c: nat, t: nat)
    requires Idle(s, c, t)
    ensures Step(LifeAt(s, c, t, 5), LifeStep(s, c, t, 5), LifeAt(s, c, t, 6))
  {
    var s0, s1, a := LifeAt(s, c, t, 5), LifeAt(s, c, t, 6), LifeStep(s, c, t, 5);
    assert Enabled(s0, a);
    assert Do(s0, a).vcs == s1.vcs && Do(s0, a).holds == s1.holds;
  }

  lemma IsUnlisted(s: Sys, c: nat, t: nat)
    requires Idle(s, c, t)
    ensures Step(LifeAt(s, c, t, 6), LifeStep(s, c, t, 6), LifeAt(s, c, t, 7))
  {
    var s0, s1, a := LifeAt(s, c, t, 6), LifeAt(s, c, t, 7), LifeStep(s, c, t, 6);
    assert Enabled(s0, a);
    assert Do(s0, a).vcs == s1.vcs && Do(s0, a).holds == s1.holds;
  }

  lemma CallEnds(s: Sys, c: nat, t: nat)
    requires Idle(s, c, t)
    ensures Step(LifeAt(s, c, t, 7), LifeStep(s, c, t, 7), LifeAt(s, c, t, 8))
  {
    var s0, s1, a := LifeAt(s, c, t, 7), LifeAt(s, c, t, 8), LifeStep(s, c, t, 7);
    assert Enabled(s0, a);
    assert Do(s0, a).vcs == s1.vcs && Do(s0, a).holds == s1.holds;
  }

  lemma ReceiveEnds(s: Sys, c: nat, t: nat)
    requires Idle(s, c, t)
    ensures Step(LifeAt(s, c, t, 8), LifeStep(s, c, t, 8), LifeAt(s, c, t, 9))
  {
    var s0, s1, a := LifeAt(s, c, t, 8), LifeAt(s, c, t, 9), LifeStep(s, c, t, 8);
    assert Enabled(s0, a);
    assert Do(s0, a).vcs == s1.vcs && Do(s0, a).holds == s1.holds;
  }

  lemma CloseEnds(s: Sys, c: nat, t: nat)
    requires Idle(s, c, t)
    ensures Step(LifeAt(s, c, t, 9), LifeStep(s, c, t, 9), LifeAt(s, c, t, 10))
  {
    var s0, s1, a := LifeAt(s, c, t, 9), LifeAt(s, c, t, 10), LifeStep(s, c, t, 9);
    assert Enabled(s0, a);
    assert Do(s0, a).vcs == s1.vcs && Do(s0, a).holds == s1.holds;
  }

  lemma PutsContext(s: Sys, c: nat, t: nat)
    requires Idle(s, c, t)
    ensures Step(LifeAt(s, c, t, 10), LifeStep(s, c, t, 10), LifeAt(s, c, t, 11))
  {
    var s0, s1, a := LifeAt(s, c, t, 10), LifeAt(s, c, t, 11), LifeStep(s, c, t, 10);
    assert Enabled(s0, a);
    assert Do(s0, a).vcs == s1.vcs && Do(s0, a).ctxs == s1.ctxs;
  }

  lemma FreesVchan(s: Sys, c: nat, t: nat)
    requires Idle(s, c, t)
    ensures Step(LifeAt(s, c, t, 11), LifeStep(s, c, t, 11), LifeAt(s, c, t, 12))
  {
    var s0, s1, a := LifeAt(s, c, t, 11), LifeAt(s, c, t, 12), LifeStep(s, c, t, 11);
    assert Enabled(s0, a);
    assert Do(s0, a).vcs == s1.vcs;
  }

  lemma ClosesFile(s: Sys, c: nat, t: nat)
    requires Idle(s, c, t)
    ensures Step(LifeAt(s, c, t, 12), LifeStep(s, c, t, 12), LifeAt(s, c, t, 13))
  {
    var s0, s1, a := LifeAt(s, c, t, 12), LifeAt(s, c, t, 13), LifeStep(s, c, t, 12);
    assert Enabled(s0, a);
    assert Do(s0, a).ctxs == s1.ctxs;
  }

  lemma Each(s: Sys, c: nat, t: nat, n: nat)
    requires Idle(s, c, t) && n < 13
    ensures Step(LifeAt(s, c, t, n), LifeStep(s, c, t, n), LifeAt(s, c, t, n + 1))
  {
    hide *;
    match n {
      case 0 => OpensFile(s, c, t);
      case 1 => Allocates(s, c, t);
      case 2 => Publishes(s, c, t);
      case 3 => ReadsId(s, c, t);
      case 4 => IsUsed(s, c, t);
      case 5 => IsFound(s, c, t);
      case 6 => IsUnlisted(s, c, t);
      case 7 => CallEnds(s, c, t);
      case 8 => ReceiveEnds(s, c, t);
      case 9 => CloseEnds(s, c, t);
      case 10 => PutsContext(s, c, t);
      case 11 => FreesVchan(s, c, t);
      case _ => ClosesFile(s, c, t);
    }
  }

  lemma {:induction false} Through(s: Sys, c: nat, t: nat, n: nat)
    requires Idle(s, c, t) && n <= 13
    ensures Does(LifeAt(s, c, t, n), LifeSteps(s, c, t, n), LifeAt(s, c, t, 13))
    decreases 13 - n
  {
    hide Step, Idle, LifeAt, LifeStep;
    if n < 13 {
      Each(s, c, t, n);
      Through(s, c, t, n + 1);
      Then(LifeAt(s, c, t, n), LifeStep(s, c, t, n), LifeAt(s, c, t, n + 1), LifeSteps(s, c, t, n + 1), LifeAt(s, c, t, 13));
    }
  }

  /** At the end of its life nothing is left of the virtual channel, and its context has been freed once. */
  lemma {:induction false} LifeAlone(s: Sys, c: nat, t: nat)
    requires Idle(s, c, t)
    ensures Does(s, LifeSteps(s, c, t, 0), s.(next := s.next + 1, ctxs := s.ctxs[c := Ctx(0, false, 1)]))
  {
    assert LifeAt(s, c, t, 0) == s && LifeAt(s, c, t, 13) == s.(next := s.next + 1, ctxs := s.ctxs[c := Ctx(0, false, 1)]);
    hide *;
    Through(s, c, t, 0);
  }

  /** A call that returns without dropping its reference leaves the count one too high for good: nobody holds the reference. */
  lemma {:induction false} LeakAlone(s: Sys, t: nat, v: nat)
    requires Caller(t) !in s.holds && v in s.vcs && s.vcs[v].listed && s.vcs[v].refs != 0
    ensures Does(s, [Get(t, v), Leak(t)], s.(vcs := s.vcs[v := s.vcs[v].(refs := s.vcs[v].refs + 1)]))
  {
    var s2 := s.(vcs := s.vcs[v := s.vcs[v].(refs := s.vcs[v].refs + 1)]);
    var s1 := s2.(holds := s.holds[Caller(t) := v]);
    assert Step(s, Get(t, v), s1) && s1.holds - {Caller(t)} == s.holds;
    assert Step(s1, Leak(t), s2);
    assert Does(s2, [], s2);
    hide Does, Step;
    Then(s1, Leak(t), s2, [], s2);
    Then(s, Get(t, v), s1, [Leak(t)] + [], s2);
    assert [Get(t, v)] + ([Leak(t)] + []) == [Get(t, v), Leak(t)];
  }
}
