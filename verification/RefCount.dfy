/**
 The references between contexts, virtual channels and the calls that use them.  Any number of
 each; every step is one critical section or one atomic reference operation.
 */
module RefCount {
  /** A reference some thread has: the opener's, an ioctl's, the receive path's, or a closer's. */
  datatype Holder = Opener(t: nat) | Caller(t: nat) | Receiver(t: nat) | Closer(t: nat)

  /** `hab_vchan_free` once the last reference is gone */
  datatype Stage = Alive | Dying | NoContext

  /**
   `struct virtual_channel`; it is in the id table until it leaves the map.  `opener`, the thread
   that allocated it, and `published` are history variables of the proof.
   */
  datatype Vchan = Vchan(ctx: nat, refs: int, listed: bool, stage: Stage, opener: nat, published: bool)

  /** `struct uhab_context`: `frees` counts the runs of `hab_ctx_free`. */
  datatype Ctx = Ctx(refs: int, file: bool, frees: nat)

  /** `hab_vchan_open` after the insertion: it has given the reference away and has yet to read the id. */
  datatype Read = Read(v: nat, c: nat)

  datatype Sys = Sys(
    vcs: map<nat, Vchan>, next: nat, ctxs: map<nat, Ctx>, holds: map<Holder, nat>,
    reading: map<nat, Read>,
    fault: bool,  // a reference to something freed was used or dropped
    stale: bool   // the id was read from a freed virtual channel
  )

  datatype Act =
    | OpenFile(c: nat)
    | Alloc(t: nat, c: nat)
    | Publish(t: nat)
    | ReadId(t: nat)
    | Get(t: nat, v: nat)
    | Find(t: nat, v: nat)
    | Unlist(t: nat, v: nat)
    | Put(h: Holder)
    | Leak(t: nat)
    | PutContext(v: nat)
    | FreeVchan(v: nat)
    | CloseFile(c: nat)

  predicate Enabled(s: Sys, a: Act) {
    match a
    case OpenFile(c) => c !in s.ctxs
    case Alloc(t, c) => c in s.ctxs && s.ctxs[c].file && Opener(t) !in s.holds && t !in s.reading
    case Publish(t) => Opener(t) in s.holds && t !in s.reading
    case ReadId(t) => t in s.reading
    // hab_get_vchan_fromvcid: found in the context's list, reference not zero
    case Get(t, v) => Caller(t) !in s.holds && v in s.vcs && s.vcs[v].listed && s.vcs[v].refs != 0
    // hab_vchan_get: found in the id table, reference not zero
    case Find(t, v) => Receiver(t) !in s.holds && v in s.vcs && s.vcs[v].refs != 0
    case Unlist(t, v) => Closer(t) !in s.holds && v in s.vcs && s.vcs[v].listed
    case Put(h) => h in s.holds
    case Leak(t) => Caller(t) in s.holds
    case PutContext(v) => v in s.vcs && s.vcs[v].stage == Dying
    case FreeVchan(v) => v in s.vcs && s.vcs[v].stage == NoContext
    // hab_release runs when no call on the file is left, and empties the list first
    case CloseFile(c) =>
      && c in s.ctxs && s.ctxs[c].file
      && (forall v :: v in s.vcs && s.vcs[v].ctx == c ==> !s.vcs[v].listed)
      && (forall h :: h in s.holds && (h.Opener? || h.Caller?) ==> s.holds[h] in s.vcs && s.vcs[s.holds[h]].ctx != c)
      && (forall t :: t in s.reading ==> s.reading[t].c != c)
  }

  /** `hab_ctx_put` */
  function DropContext(s: Sys, c: nat): (r: Sys)
    ensures r == s.(ctxs := r.ctxs, fault := r.fault)
  {
    if c !in s.ctxs || s.ctxs[c].refs <= 0 then s.(fault := true)
    else
      var x := s.ctxs[c];
      s.(ctxs := s.ctxs[c := x.(refs := x.refs - 1, frees := if x.refs == 1 then x.frees + 1 else x.frees)])
  }

  /** `hab_vchan_put` */
  function DropVchan(s: Sys, v: nat): (r: Sys)
    ensures r == s.(vcs := r.vcs, fault := r.fault)
  {
    if v !in s.vcs || s.vcs[v].refs <= 0 then s.(fault := true)
    else
      var x := s.vcs[v];
      s.(vcs := s.vcs[v := x.(refs := x.refs - 1, stage := if x.refs == 1 then Dying else x.stage)])
  }

  function Use(s: Sys, v: nat, x: Vchan): (r: Sys)
    ensures r == s.(vcs := r.vcs, fault := r.fault)
  {
    if v in s.vcs then s.(vcs := s.vcs[v := x]) else s.(fault := true)
  }

  function Do(s: Sys, a: Act): Sys
    requires Enabled(s, a)
  {
    match a
    case OpenFile(c) => s.(ctxs := s.ctxs[c := Ctx(1, true, 0)])
    case Alloc(t, c) =>
      s.(vcs := s.vcs[s.next := Vchan(c, 1, false, Alive, t, false)], next := s.next + 1, holds := s.holds[Opener(t) := s.next],
         ctxs := s.ctxs[c := s.ctxs[c].(refs := s.ctxs[c].refs + 1)])
    case Publish(t) =>
      var v := s.holds[Opener(t)];
      if v !in s.vcs then s.(fault := true)
      else Use(s, v, s.vcs[v].(listed := true, published := true))
             .(holds := s.holds - {Opener(t)}, reading := s.reading[t := Read(v, s.vcs[v].ctx)])
    case ReadId(t) => s.(reading := s.reading - {t}, stale := s.stale || s.reading[t].v !in s.vcs)
    case Get(t, v) => Use(s, v, s.vcs[v].(refs := s.vcs[v].refs + 1)).(holds := s.holds[Caller(t) := v])
    case Find(t, v) => Use(s, v, s.vcs[v].(refs := s.vcs[v].refs + 1)).(holds := s.holds[Receiver(t) := v])
    case Unlist(t, v) => Use(s, v, s.vcs[v].(listed := false)).(holds := s.holds[Closer(t) := v])
    case Put(h) => DropVchan(s.(holds := s.holds - {h}), s.holds[h])
    case Leak(t) => s.(holds := s.holds - {Caller(t)})
    case PutContext(v) => Use(DropContext(s, s.vcs[v].ctx), v, s.vcs[v].(stage := NoContext))
    case FreeVchan(v) => s.(vcs := s.vcs - {v})
    case CloseFile(c) => DropContext(s.(ctxs := s.ctxs[c := s.ctxs[c].(file := false)]), c)
  }

  // ---------------------------------------------------------------- counting

  /** The references that threads have on `v`. */
  function HoldersOf(holds: map<Holder, nat>, v: nat): set<Holder> { set h | h in holds && holds[h] == v }

  /** The virtual channels that still have a reference on context `c`. */
  function Members(vcs: map<nat, Vchan>, c: nat): set<nat> { set v | v in vcs && vcs[v].ctx == c && vcs[v].stage != NoContext }

  function One(b: bool): int { if b then 1 else 0 }

  lemma HolderAdded(holds: map<Holder, nat>, h: Holder, v: nat, x: nat)
    requires h !in holds
    ensures |HoldersOf(holds[h := v], x)| == |HoldersOf(holds, x)| + One(x == v)
  {
    assert HoldersOf(holds[h := v], x) == HoldersOf(holds, x) + (if x == v then {h} else {});
  }

  lemma HolderGone(holds: map<Holder, nat>, h: Holder, x: nat)
    requires h in holds
    ensures |HoldersOf(holds - {h}, x)| == |HoldersOf(holds, x)| - One(x == holds[h])
  {
    assert HoldersOf(holds - {h}, x) == HoldersOf(holds, x) - (if x == holds[h] then {h} else {});
  }

  // ---------------------------------------------------------------- the invariant

  /** The list and every holder account for a reference; a leaked one is never given back. */
  predicate VchanOk(s: Sys, v: nat, x: Vchan) {
    && v < s.next && x.ctx in s.ctxs
    && x.refs >= One(x.listed) + |HoldersOf(s.holds, v)|
    && (x.stage == Alive <==> x.refs > 0)
    && (x.listed ==> x.published)
  }

  predicate CtxOk(s: Sys, c: nat, x: Ctx) {
    && x.refs == One(x.file) + |Members(s.vcs, c)|
    && x.frees == One(x.refs == 0)
  }

  predicate HoldOk(s: Sys, h: Holder) {
    && h in s.holds && s.holds[h] in s.vcs
    && (h.Opener? ==> s.vcs[s.holds[h]].opener == h.t && !s.vcs[s.holds[h]].published)
  }

  predicate Inv(s: Sys) {
    && !s.fault
    && (forall v :: v in s.vcs ==> VchanOk(s, v, s.vcs[v]))
    && (forall c :: c in s.ctxs ==> CtxOk(s, c, s.ctxs[c]))
    && (forall h :: h in s.holds ==> HoldOk(s, h))
  }

  lemma HeldIsAlive(s: Sys, h: Holder)
    requires Inv(s) && h in s.holds
    ensures s.vcs[s.holds[h]].stage == Alive && s.vcs[s.holds[h]].refs >= One(s.vcs[s.holds[h]].listed) + 1
  {
    assert VchanOk(s, s.holds[h], s.vcs[s.holds[h]]);
    assert h in HoldersOf(s.holds, s.holds[h]);
    assert |HoldersOf(s.holds, s.holds[h])| >= 1 by {
      assert HoldersOf(s.holds, s.holds[h]) != {};
    }
  }

  // ---------------------------------------------------------------- every step keeps the invariant

  lemma MembersChange(vcs: map<nat, Vchan>, v: nat, x: Vchan, c: nat)
    requires v in vcs && x.ctx == vcs[v].ctx
    ensures |Members(vcs[v := x], c)|
      == |Members(vcs, c)| + (if x.ctx == c then One(x.stage != NoContext) - One(vcs[v].stage != NoContext) else 0)
  {
    var m, m' := Members(vcs, c), Members(vcs[v := x], c);
    if x.ctx == c && x.stage != NoContext {
      assert m' == m + {v};
    } else {
      assert m' == m - {v};
    }
  }

  /** Contexts see only how many virtual channels refer to them. */
  lemma CtxsKept(s: Sys, s': Sys, v: nat, x: Vchan)
    requires Inv(s) && v in s.vcs && x.ctx == s.vcs[v].ctx && (x.stage == NoContext <==> s.vcs[v].stage == NoContext)
    requires s'.vcs == s.vcs[v := x] && s'.ctxs == s.ctxs
    ensures forall c :: c in s'.ctxs ==> CtxOk(s', c, s'.ctxs[c])
  {
    forall c | c in s.ctxs ensures CtxOk(s', c, s.ctxs[c]) {
      assert CtxOk(s, c, s.ctxs[c]);
      MembersChange(s.vcs, v, x, c);
    }
  }

  /** A step on one virtual channel and one holder. */
  lemma VchanStep(s: Sys, s': Sys, h: Holder, v: nat, x: Vchan)
    requires Inv(s) && v in s.vcs && !s'.fault && s'.next == s.next && s'.ctxs == s.ctxs && s'.vcs == s.vcs[v := x]
    requires x.ctx == s.vcs[v].ctx && (x.stage == NoContext <==> s.vcs[v].stage == NoContext) && x.opener == s.vcs[v].opener
    requires (x.stage == Alive <==> x.refs > 0) && (x.listed ==> x.published)
    requires || (h in s.holds && s.holds[h] == v && s'.holds == s.holds - {h}
                 && x.refs - One(x.listed) >= s.vcs[v].refs - One(s.vcs[v].listed) - 1)
             || (h !in s.holds && !h.Opener? && s'.holds == s.holds[h := v]
                 && x.refs - One(x.listed) >= s.vcs[v].refs - One(s.vcs[v].listed) + 1)
    requires x.published != s.vcs[v].published ==> h.Opener? && h in s.holds
    ensures Inv(s')
  {
    hide CtxOk, VchanOk, HoldersOf, Members;
    CtxsKept(s, s', v, x);
    VchansKept(s, s', h, v, x);
    forall g | g in s'.holds ensures HoldOk(s', g) {
      if g != h { assert HoldOk(s, g); }
      if h in s.holds { assert HoldOk(s, h); }
    }
  }

  lemma VchansKept(s: Sys, s': Sys, h: Holder, v: nat, x: Vchan)
    requires Inv(s) && v in s.vcs && s'.next == s.next && s'.ctxs == s.ctxs && s'.vcs == s.vcs[v := x]
    requires x.ctx == s.vcs[v].ctx && (x.stage == Alive <==> x.refs > 0) && (x.listed ==> x.published)
    requires || (h in s.holds && s.holds[h] == v && s'.holds == s.holds - {h}
                 && x.refs - One(x.listed) >= s.vcs[v].refs - One(s.vcs[v].listed) - 1)
             || (h !in s.holds && s'.holds == s.holds[h := v]
                 && x.refs - One(x.listed) >= s.vcs[v].refs - One(s.vcs[v].listed) + 1)
    ensures forall y :: y in s'.vcs ==> VchanOk(s', y, s'.vcs[y])
  {
    hide HoldersOf, CtxOk, HoldOk;
    forall y | y in s'.vcs ensures VchanOk(s', y, s'.vcs[y]) {
      assert VchanOk(s, y, s.vcs[y]);
      if h in s.holds { HolderGone(s.holds, h, y); } else { HolderAdded(s.holds, h, v, y); }
    }
  }

  lemma NewHandle(s: Sys)
    requires Inv(s)
    ensures s.next !in s.vcs && HoldersOf(s.holds, s.next) == {}
  {
  }

  lemma AllocInv(s: Sys, t: nat, c: nat)
    requires Inv(s) && Enabled(s, Alloc(t, c))
    ensures Inv(Do(s, Alloc(t, c)))
  {
    var s', v := Do(s, Alloc(t, c)), s.next;
    NewHandle(s);
    AllocVchans(s, s', t, v);
    AllocCtxs(s, s', t, c);
    forall h | h in s'.holds ensures HoldOk(s', h) {
      if h != Opener(t) { assert HoldOk(s, h); }
    }
  }

  lemma AllocVchans(s: Sys, s': Sys, t: nat, v: nat)
    requires Inv(s) && v == s.next && Opener(t) !in s.holds && HoldersOf(s.holds, v) == {}
    requires s'.holds == s.holds[Opener(t) := v] && s'.next == s.next + 1 && s'.ctxs.Keys == s.ctxs.Keys
    requires v in s'.vcs && s'.vcs == s.vcs[v := s'.vcs[v]]
    requires var x := s'.vcs[v]; x.refs == 1 && !x.listed && x.stage == Alive && x.ctx in s'.ctxs
    ensures forall y :: y in s'.vcs ==> VchanOk(s', y, s'.vcs[y])
  {
    hide HoldersOf, CtxOk, HoldOk;
    forall y | y in s'.vcs ensures VchanOk(s', y, s'.vcs[y]) {
      HolderAdded(s.holds, Opener(t), v, y);
      if y != v { assert VchanOk(s, y, s.vcs[y]); }
    }
  }

  lemma MemberAdded(vcs: map<nat, Vchan>, v: nat, x: Vchan, c: nat)
    requires v !in vcs && x.stage != NoContext
    ensures |Members(vcs[v := x], c)| == |Members(vcs, c)| + One(x.ctx == c)
  {
    assert Members(vcs[v := x], c) == Members(vcs, c) + (if x.ctx == c then {v} else {});
  }

  lemma AllocCtxs(s: Sys, s': Sys, t: nat, c: nat)
    requires Inv(s) && Enabled(s, Alloc(t, c)) && s' == Do(s, Alloc(t, c)) && s.next !in s.vcs
    ensures forall k :: k in s'.ctxs ==> CtxOk(s', k, s'.ctxs[k])
  {
    hide VchanOk, HoldOk, Members;
    forall k | k in s'.ctxs ensures CtxOk(s', k, s'.ctxs[k]) {
      assert CtxOk(s, k, s.ctxs[k]);
      MemberAdded(s.vcs, s.next, s'.vcs[s.next], k);
    }
  }

  lemma UseInv(s: Sys, a: Act)
    requires Inv(s) && Enabled(s, a) && (a.Publish? || a.Get? || a.Find? || a.Unlist? || a.Put? || a.Leak?)
    ensures Inv(Do(s, a))
  {
    var s' := Do(s, a);
    var h :=
      if a.Publish? then Opener(a.t) else if a.Find? then Receiver(a.t) else if a.Unlist? then Closer(a.t)
      else if a.Put? then a.h else Caller(a.t);
    if h in s.holds {
      HeldIsAlive(s, h);
      assert HoldOk(s, h);
    }
    var v := if h in s.holds then s.holds[h] else a.v;
    assert VchanOk(s, v, s.vcs[v]);
    if a.Leak? { assert s.vcs[v := s.vcs[v]] == s.vcs; }
    hide CtxOk, VchanOk, HoldersOf;
    VchanStep(s, s', h, v, s'.vcs[v]);
  }

  lemma PutContextInv(s: Sys, v: nat)
    requires Inv(s) && Enabled(s, PutContext(v))
    ensures Inv(Do(s, PutContext(v)))
  {
    var s', c := Do(s, PutContext(v)), s.vcs[v].ctx;
    assert VchanOk(s, v, s.vcs[v]) && CtxOk(s, c, s.ctxs[c]);
    HasMember(s.vcs, v);
    hide Members, HoldersOf;
    PutContextCtxs(s, s', v);
    hide CtxOk;
    forall y | y in s'.vcs ensures VchanOk(s', y, s'.vcs[y]) { assert VchanOk(s, y, s.vcs[y]); }
    forall h | h in s'.holds ensures HoldOk(s', h) { assert HoldOk(s, h); }
  }

  lemma HasMember(vcs: map<nat, Vchan>, v: nat)
    requires v in vcs && vcs[v].stage != NoContext
    ensures |Members(vcs, vcs[v].ctx)| >= 1
  {
    assert v in Members(vcs, vcs[v].ctx);
    assert Members(vcs, vcs[v].ctx) != {};
  }

  lemma PutContextCtxs(s: Sys, s': Sys, v: nat)
    requires Inv(s) && v in s.vcs && s.vcs[v].stage == Dying && s.vcs[v].ctx in s.ctxs && s.ctxs[s.vcs[v].ctx].refs > 0
    requires s'.vcs == s.vcs[v := s.vcs[v].(stage := NoContext)] && s'.ctxs == DropContext(s, s.vcs[v].ctx).ctxs
    ensures forall k :: k in s'.ctxs ==> CtxOk(s', k, s'.ctxs[k])
  {
    hide Members, HoldersOf;
    forall k | k in s'.ctxs ensures CtxOk(s', k, s'.ctxs[k]) {
      assert CtxOk(s, k, s.ctxs[k]);
      MembersChange(s.vcs, v, s.vcs[v].(stage := NoContext), k);
    }
  }

  lemma FreeVchanInv(s: Sys, v: nat)
    requires Inv(s) && Enabled(s, FreeVchan(v))
    ensures Inv(Do(s, FreeVchan(v)))
  {
    var s' := Do(s, FreeVchan(v));
    hide HoldersOf, DropContext, DropVchan, Use;
    FreedMembers(s.vcs, v);
    hide Members;
    forall k | k in s'.ctxs ensures CtxOk(s', k, s'.ctxs[k]) { assert CtxOk(s, k, s.ctxs[k]); }
    hide CtxOk;
    forall y | y in s'.vcs ensures VchanOk(s', y, s'.vcs[y]) { assert VchanOk(s, y, s.vcs[y]); }
    forall h | h in s'.holds ensures HoldOk(s', h) {
      assert HoldOk(s, h);
      HeldIsAlive(s, h);
    }
  }

  lemma FreedMembers(vcs: map<nat, Vchan>, v: nat)
    requires v in vcs && vcs[v].stage == NoContext
    ensures forall c :: Members(vcs - {v}, c) == Members(vcs, c)
  {
    forall c ensures Members(vcs - {v}, c) == Members(vcs, c) {}
  }

  lemma FileInv(s: Sys, a: Act)
    requires Inv(s) && Enabled(s, a) && (a.OpenFile? || a.CloseFile?)
    ensures Inv(Do(s, a))
  {
    var s' := Do(s, a);
    if a.OpenFile? {
      assert Members(s.vcs, a.c) == {} by {
        forall v | v in s.vcs ensures s.vcs[v].ctx != a.c { assert VchanOk(s, v, s.vcs[v]); }
      }
    }
    forall k | k in s'.ctxs ensures CtxOk(s', k, s'.ctxs[k]) {
      if k in s.ctxs { assert CtxOk(s, k, s.ctxs[k]); }
    }
    forall y | y in s'.vcs ensures VchanOk(s', y, s'.vcs[y]) { assert VchanOk(s, y, s.vcs[y]); }
    forall h | h in s'.holds ensures HoldOk(s', h) { assert HoldOk(s, h); }
  }

  lemma ReadInv(s: Sys, a: Act)
    requires Inv(s) && a.ReadId? && Enabled(s, a)
    ensures Inv(Do(s, a))
  {
    var s' := Do(s, a);
    hide HoldersOf, Members;
    forall c | c in s'.ctxs ensures CtxOk(s', c, s'.ctxs[c]) { assert CtxOk(s, c, s.ctxs[c]); }
    forall v | v in s'.vcs ensures VchanOk(s', v, s'.vcs[v]) { assert VchanOk(s, v, s.vcs[v]); }
    forall h | h in s'.holds ensures HoldOk(s', h) { assert HoldOk(s, h); }
  }

  lemma DoInv(s: Sys, a: Act)
    requires Inv(s) && Enabled(s, a)
    ensures Inv(Do(s, a))
  {
    hide Inv, Do, Enabled;
    match a
    case Alloc(t, c) => AllocInv(s, t, c);
    case PutContext(v) => PutContextInv(s, v);
    case FreeVchan(v) => FreeVchanInv(s, v);
    case ReadId(_) => ReadInv(s, a);
    case OpenFile(_) => FileInv(s, a);
    case CloseFile(_) => FileInv(s, a);
    case _ => UseInv(s, a);
  }

  // ---------------------------------------------------------------- runs

  predicate Start(s: Sys) { s.vcs == map[] && s.ctxs == map[] && s.holds == map[] && s.reading == map[] && !s.fault && !s.stale }

  predicate Leads(s: Sys, a: Act, s': Sys) { Enabled(s, a) && s' == Do(s, a) }

  predicate IsRun(ss: seq<Sys>, steps: seq<Act>) {
    && |ss| == |steps| + 1 && Start(ss[0])
    && forall i :: 0 <= i < |steps| ==> Leads(ss[i], steps[i], ss[i + 1])
  }

  lemma StartInv(s: Sys)
    requires Start(s)
    ensures Inv(s)
  {
  }

  lemma {:induction false} RunInv(ss: seq<Sys>, steps: seq<Act>, n: nat)
    requires IsRun(ss, steps) && n < |ss|
    ensures Inv(ss[n])
  {
    hide Inv, Enabled, Do, Start;
    if n == 0 {
      StartInv(ss[0]);
    } else {
      RunInv(ss, steps, n - 1);
      assert Leads(ss[n - 1], steps[n - 1], ss[n - 1 + 1]);
      DoInv(ss[n - 1], steps[n - 1]);
    }
  }

  /**
   Reference safety: no reference to anything freed is used or dropped; a virtual channel that is listed in its context, or
   held by a call, the receive path or a closer, is not freed, nor on its way; a context's count is
   its open file plus its virtual channels; it is freed at most once, and with none of them left.
   */
  lemma {:induction false} ReferenceSafety(ss: seq<Sys>, steps: seq<Act>, n: nat)
    requires IsRun(ss, steps) && n < |ss|
    ensures var s := ss[n];
      && !s.fault
      && (forall h :: h in s.holds ==> s.holds[h] in s.vcs && s.vcs[s.holds[h]].stage == Alive)
      && (forall v :: v in s.vcs && s.vcs[v].listed ==> s.vcs[v].stage == Alive)
      && (forall c :: c in s.ctxs ==> s.ctxs[c].refs == One(s.ctxs[c].file) + |Members(s.vcs, c)|)
      && (forall c :: c in s.ctxs ==> s.ctxs[c].frees <= 1 && (s.ctxs[c].frees == 1 ==> Members(s.vcs, c) == {} && !s.ctxs[c].file))
  {
    RunInv(ss, steps, n);
    hide IsRun;
    var s := ss[n];
    forall h | h in s.holds ensures s.holds[h] in s.vcs && s.vcs[s.holds[h]].stage == Alive {
      assert HoldOk(s, h);
      HeldIsAlive(s, h);
    }
    forall v | v in s.vcs && s.vcs[v].listed ensures s.vcs[v].stage == Alive { assert VchanOk(s, v, s.vcs[v]); }
    forall c | c in s.ctxs
      ensures s.ctxs[c].refs == One(s.ctxs[c].file) + |Members(s.vcs, c)|
      ensures s.ctxs[c].frees <= 1 && (s.ctxs[c].frees == 1 ==> Members(s.vcs, c) == {} && !s.ctxs[c].file)
    {
      assert CtxOk(s, c, s.ctxs[c]);
    }
  }

  // ---------------------------------------------------------------- the id that open returns

  /** The virtual channel is taken off its list while the open that put it there has yet to read its id. */
  predicate Early(s: Sys, a: Act) { a.Unlist? && exists t :: t in s.reading && s.reading[t].v == a.v }

  predicate StillListed(s: Sys) {
    forall t :: t in s.reading ==> s.reading[t].v in s.vcs && s.vcs[s.reading[t].v].listed
  }

  lemma ListedIsAlive(s: Sys, v: nat)
    requires Inv(s) && v in s.vcs && s.vcs[v].listed
    ensures s.vcs[v].stage == Alive && s.vcs[v].refs > |HoldersOf(s.holds, v)|
  {
    assert VchanOk(s, v, s.vcs[v]);
  }

  /** The step adds or removes a holder. */
  predicate Moves(a: Act) { a.Alloc? || a.Publish? || a.Get? || a.Find? || a.Unlist? || a.Put? || a.Leak? }

  lemma ListedKept(s: Sys, a: Act)
    requires Inv(s) && Enabled(s, a) && StillListed(s) && !s.stale && !Early(s, a)
    ensures StillListed(Do(s, a)) && !Do(s, a).stale
  {
    forall t | t in s.reading ensures s.vcs[s.reading[t].v].stage == Alive && s.reading[t].v < s.next {
      ListedIsAlive(s, s.reading[t].v);
      assert VchanOk(s, s.reading[t].v, s.vcs[s.reading[t].v]);
    }
    if a.Put? || a.Publish? { HeldInTable(s, a); }
    hide Inv;
    if Moves(a) { ListedMoves(s, a); } else { ListedRests(s, a); }
  }

  lemma ListedMoves(s: Sys, a: Act)
    requires Moves(a) && Enabled(s, a) && StillListed(s) && !s.stale && !Early(s, a)
    requires a.Put? || a.Publish? ==> (var h := if a.Put? then a.h else Opener(a.t); s.holds[h] in s.vcs)
    requires forall t :: t in s.reading ==> s.reading[t].v < s.next
    ensures StillListed(Do(s, a)) && !Do(s, a).stale
  {
  }

  lemma ListedRests(s: Sys, a: Act)
    requires !Moves(a) && Enabled(s, a) && StillListed(s) && !s.stale
    requires forall t :: t in s.reading ==> s.vcs[s.reading[t].v].stage == Alive
    ensures StillListed(Do(s, a)) && !Do(s, a).stale
  {
  }

  lemma HeldInTable(s: Sys, a: Act)
    requires Inv(s) && Enabled(s, a) && (a.Put? || a.Publish?)
    ensures
      var h := if a.Put? then a.h else Opener(a.t);
      h in s.holds && s.holds[h] in s.vcs && s.vcs[s.holds[h]].refs > 0 && (a.Publish? ==> !s.vcs[s.holds[h]].listed)
  {
    var h := if a.Put? then a.h else Opener(a.t);
    HeldIsAlive(s, h);
    assert HoldOk(s, h) && VchanOk(s, s.holds[h], s.vcs[s.holds[h]]);
  }

  /** If nothing closes a virtual channel before the open that made it returns, open reads a live one's id. */
  lemma {:induction false} ReadSafety(ss: seq<Sys>, steps: seq<Act>, n: nat)
    requires IsRun(ss, steps) && n < |ss| && forall i :: 0 <= i < n ==> !Early(ss[i], steps[i])
    ensures !ss[n].stale && forall t :: t in ss[n].reading ==> ss[n].reading[t].v in ss[n].vcs
  {
    NoEarlyClose(ss, steps, n);
  }

  lemma {:induction false} NoEarlyClose(ss: seq<Sys>, steps: seq<Act>, n: nat)
    requires IsRun(ss, steps) && n < |ss| && forall i :: 0 <= i < n ==> !Early(ss[i], steps[i])
    ensures !ss[n].stale && StillListed(ss[n])
  {
    hide Inv, Enabled, Do, Early;
    if n > 0 {
      hide StillListed, Start;
      NoEarlyClose(ss, steps, n - 1);
      RunInv(ss, steps, n - 1);
      assert Leads(ss[n - 1], steps[n - 1], ss[n - 1 + 1]);
      ListedKept(ss[n - 1], steps[n - 1]);
    }
  }

  /** References on `v` that neither the list nor a holder accounts for: those that were leaked. */
  function Leaked(s: Sys, v: nat): int
    requires v in s.vcs
  {
    s.vcs[v].refs - One(s.vcs[v].listed) - |HoldersOf(s.holds, v)|
  }

  /** A step leaks a reference on `v` only if it is one that returns early. */
  lemma LeakedKept(s: Sys, a: Act, v: nat)
    requires Inv(s) && Enabled(s, a) && v in s.vcs && a != FreeVchan(v)
    ensures v in Do(s, a).vcs
    ensures Leaked(Do(s, a), v) == Leaked(s, v) + One(a.Leak? && s.holds[Caller(a.t)] == v)
  {
    assert VchanOk(s, v, s.vcs[v]);
    if a.Put? || a.Publish? { HeldInTable(s, a); }
    if a.Leak? { HeldIsAlive(s, Caller(a.t)); }
    hide Inv, VchanOk, CtxOk, HoldersOf, Members;
    if Moves(a) { LeakedMoves(s, a, v); } else { LeakedRests(s, a, v); }
  }

  lemma LeakedMoves(s: Sys, a: Act, v: nat)
    requires Moves(a) && Enabled(s, a) && v in s.vcs && v < s.next
    requires
      a.Put? || a.Publish? ==>
        (var h := if a.Put? then a.h else Opener(a.t);
         s.holds[h] in s.vcs && s.vcs[s.holds[h]].refs > 0 && (a.Publish? ==> !s.vcs[s.holds[h]].listed))
    ensures v in Do(s, a).vcs
    ensures Leaked(Do(s, a), v) == Leaked(s, v) + One(a.Leak? && s.holds[Caller(a.t)] == v)
  {
    hide HoldersOf;
    match a
    case Alloc(t, _) => HolderAdded(s.holds, Opener(t), s.next, v);
    case Publish(t) => HolderGone(s.holds, Opener(t), v);
    case Get(t, x) => HolderAdded(s.holds, Caller(t), x, v);
    case Find(t, x) => HolderAdded(s.holds, Receiver(t), x, v);
    case Unlist(t, x) => HolderAdded(s.holds, Closer(t), x, v);
    case Put(h) => HolderGone(s.holds, h, v);
    case Leak(t) => HolderGone(s.holds, Caller(t), v);
  }

  lemma LeakedRests(s: Sys, a: Act, v: nat)
    requires !Moves(a) && Enabled(s, a) && v in s.vcs && a != FreeVchan(v)
    ensures v in Do(s, a).vcs && Leaked(Do(s, a), v) == Leaked(s, v)
  {
    hide HoldersOf;
  }

  /** Within `k` steps, thread `t` still having to read it, the virtual channel is gone. */
  ghost predicate GoneWithin(s: Sys, t: nat, k: nat)
    decreases k
  {
    && t in s.reading
    && (s.reading[t].v !in s.vcs || (k > 0 && exists a :: Enabled(s, a) && a != ReadId(t) && GoneWithin(Do(s, a), t, k - 1)))
  }

  lemma {:induction false} LeakedStays(s: Sys, t: nat, k: nat)
    requires Inv(s) && t in s.reading && s.reading[t].v in s.vcs && Leaked(s, s.reading[t].v) > 0
    ensures !GoneWithin(s, t, k)
    decreases k
  {
    var v := s.reading[t].v;
    if k > 0 {
      forall a | Enabled(s, a) && a != ReadId(t) ensures !GoneWithin(Do(s, a), t, k - 1) {
        LeakedIsAlive(s, v);
        LeakedKept(s, a, v);
        DoInv(s, a);
        ReadingKept(s, a, t);
        hide Inv, Do, Enabled, Leaked;
        LeakedStays(Do(s, a), t, k - 1);
      }
    }
  }

  lemma LeakedIsAlive(s: Sys, v: nat)
    requires Inv(s) && v in s.vcs && Leaked(s, v) > 0
    ensures s.vcs[v].stage == Alive
  {
    assert VchanOk(s, v, s.vcs[v]);
  }

  /** An open that has yet to read its id stays where it is. */
  lemma ReadingKept(s: Sys, a: Act, t: nat)
    requires Enabled(s, a) && a != ReadId(t) && t in s.reading
    ensures t in Do(s, a).reading && Do(s, a).reading[t] == s.reading[t]
  {
    hide Use, DropContext, DropVchan;
  }

  lemma GoneNext(s: Sys, a: Act, t: nat, k: nat)
    requires Enabled(s, a) && a != ReadId(t) && t in s.reading && GoneWithin(Do(s, a), t, k)
    ensures GoneWithin(s, t, k + 1)
  {
  }

  /** How far a virtual channel is from being freed. */
  function Rank(s: Sys, v: nat): nat
    requires v in s.vcs
  {
    match s.vcs[v].stage
    case NoContext => 0
    case Dying => 1
    case Alive => 2 + (if s.vcs[v].listed then 2 else 0) + |HoldersOf(s.holds, v)|
  }

  /** A thread that is closing nothing. */
  ghost function Idle(holds: set<Holder>): (t: nat)
    ensures forall h :: h in holds && h.Closer? ==> h.t < t
  {
    if holds == {} then 0
    else
      var h :| h in holds;
      var t := Idle(holds - {h});
      assert forall g :: g in holds ==> g == h || g in holds - {h};
      if h.t < t then t else h.t + 1
  }

  /** The step that brings it closer. */
  lemma NextStep(s: Sys, t: nat) returns (a: Act)
    requires Inv(s) && t in s.reading && s.reading[t].v in s.vcs && Leaked(s, s.reading[t].v) == 0
    ensures
      var v := s.reading[t].v;
      Enabled(s, a) && a != ReadId(t) && !a.Leak? &&
      (a == FreeVchan(v) || (v in Do(s, a).vcs && Rank(Do(s, a), v) < Rank(s, v)))
  {
    var v := s.reading[t].v;
    assert VchanOk(s, v, s.vcs[v]);
    hide Inv;
    match s.vcs[v].stage
    case NoContext => a := FreeVchan(v);
    case Dying => a := PutContext(v);
    case Alive => a := NextDrop(s, v);
  }

  lemma NextDrop(s: Sys, v: nat) returns (a: Act)
    requires v in s.vcs && VchanOk(s, v, s.vcs[v]) && s.vcs[v].stage == Alive && Leaked(s, v) == 0
    ensures Enabled(s, a) && (a.Unlist? || a.Put?) && v in Do(s, a).vcs && Rank(Do(s, a), v) < Rank(s, v)
  {
    if s.vcs[v].listed {
      var c := Idle(s.holds.Keys);
      a := Unlist(c, v);
      HolderAdded(s.holds, Closer(c), v, v);
    } else {
      assert HoldersOf(s.holds, v) != {};
      var h :| h in HoldersOf(s.holds, v);
      a := Put(h);
      HolderGone(s.holds, h, v);
    }
    hide HoldersOf;
  }

  lemma {:induction false} DrainsAway(s: Sys, t: nat) returns (k: nat)
    requires Inv(s) && t in s.reading && s.reading[t].v in s.vcs && Leaked(s, s.reading[t].v) == 0
    ensures GoneWithin(s, t, k)
    decreases Rank(s, s.reading[t].v)
  {
    var v := s.reading[t].v;
    var a := NextStep(s, t);
    ReadingKept(s, a, t);
    DoInv(s, a);
    if a == FreeVchan(v) {
      k := 0;
      hide Inv;
    } else {
      LeakedKept(s, a, v);
      hide Inv, Do, Enabled, Leaked, Rank;
      k := DrainsAway(Do(s, a), t);
    }
    GoneNext(s, a, t, k);
    k := k + 1;
  }

  /**
   And if something does: the virtual channel whose id an open has yet to read may be gone before it does,
   exactly when no reference on it has been leaked.
   */
  lemma {:induction false} ReadExactly(s: Sys, t: nat)
    requires Inv(s) && t in s.reading
    ensures (exists k :: GoneWithin(s, t, k)) <==> (s.reading[t].v in s.vcs ==> Leaked(s, s.reading[t].v) == 0)
  {
    var v := s.reading[t].v;
    if v !in s.vcs {
      assert GoneWithin(s, t, 0);
    } else if Leaked(s, v) == 0 {
      var k := DrainsAway(s, t);
    } else {
      assert VchanOk(s, v, s.vcs[v]);
      forall k ensures !GoneWithin(s, t, k) { LeakedStays(s, t, k); }
    }
  }

  /** An open that has inserted its virtual channel and not read the id yet. */
  function Published(): Sys {
    Sys(map[0 := Vchan(0, 1, true, Alive, 0, true)], 1, map[0 := Ctx(2, true, 0)], map[], map[0 := Read(0, 0)], false, false)
  }

  lemma PublishedInv()
    ensures Inv(Published()) && HoldersOf(Published().holds, 0) == {}
  {
    assert Members(Published().vcs, 0) == {0};
  }

  /** A first open gets into such a state, and then reads a freed virtual channel if a close overtakes it. */
  lemma EarlyCloseRun()
    ensures exists ss, steps, k: nat :: IsRun(ss, steps) && GoneWithin(ss[|steps|], 0, k)
  {
    PublishedInv();
    var k := DrainsAway(Published(), 0);
    hide GoneWithin, Inv, Published, IsRun;
    var ss, steps := Opening();
    assert IsRun(ss, steps) && GoneWithin(ss[|steps|], 0, k);
  }

  lemma Opening() returns (ss: seq<Sys>, steps: seq<Act>)
    ensures IsRun(ss, steps) && ss[|steps|] == Published()
  {
    var s0, s1 := Sys(map[], 0, map[], map[], map[], false, false), Sys(map[], 0, map[0 := Ctx(1, true, 0)], map[], map[], false, false);
    var s2 := Sys(map[0 := Vchan(0, 1, false, Alive, 0, false)], 1, map[0 := Ctx(2, true, 0)], map[Opener(0) := 0], map[], false, false);
    ss, steps := [s0, s1, s2, Published()], [OpenFile(0), Alloc(0, 0), Publish(0)];
  }
}
