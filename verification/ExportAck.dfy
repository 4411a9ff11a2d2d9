/**
 Protocol 0: the export ack.  A receiver inserts a node, drops the lock and only then makes the ack
 from the node.  By then an importer may have taken, unimported and freed it.  This module says
 exactly when.
 */
module ExportAck {
  import opened Common
  import opened ImportSide

  /** A receiver has inserted node `h` and not made its ack yet. */
  predicate AckDue(s: Ctx, h: nat) { exists u :: u in s.threads && s.threads[u] == Acking(h) }

  /** The search of an import finds the node, in INIT, before its export ack is made. */
  predicate Early(s: Ctx, a: Act) {
    && Enabled(s, a) && a.Lookup?
    && var key := s.threads[a.t].key;
       key in s.whse && s.whse[key] in s.heap && s.heap[s.whse[key]].st == Init && AckDue(s, s.whse[key])
  }

  /** Every node whose ack is due is live and as it was inserted. */
  predicate Untouched(s: Ctx) {
    forall u :: u in s.threads && s.threads[u].Acking? ==> s.threads[u].h in s.heap && s.heap[s.threads[u].h].st == Init
  }

  // ---------------------------------------------------------------- without early imports

  lemma UntouchedStep(s: Ctx, a: Act)
    requires Inv(s) && s.proto == 0 && Untouched(s) && Enabled(s, a) && !Early(s, a)
    ensures Untouched(Do(s, a)) && Do(s, a).stale == s.stale
  {
    hide Do, Early;
    StaleOnly(s, a);
    assert a.AckExport? ==> s.threads[a.t].h in s.heap;
    hide Enabled;
    if IsReceived(s, a) {
      ReceivedUntouched(s, a);
    } else {
      hide Inv;
      forall u | u in Do(s, a).threads && Do(s, a).threads[u].Acking?
        ensures Do(s, a).threads[u].h in Do(s, a).heap && Do(s, a).heap[Do(s, a).threads[u].h].st == Init
      {
        StillDue(s, a, u);
        assert AckDue(s, s.threads[u].h);
        DueStays(s, a, s.threads[u].h);
      }
    }
  }

  predicate IsReceived(s: Ctx, a: Act) { a.Receive? && a.outcome == Valid && a.desc.key !in s.whse }

  lemma ReceivedUntouched(s: Ctx, a: Act)
    requires Inv(s) && s.proto == 0 && Untouched(s) && Enabled(s, a) && IsReceived(s, a)
    ensures Untouched(Do(s, a))
  {
    hide DoImport, CanImport, DoUnimport, CanUnimport, DoDrain, CanDrain;
    FreshNode(s);
    hide Inv;
  }

  lemma StillDue(s: Ctx, a: Act, u: nat)
    requires Enabled(s, a) && !IsReceived(s, a) && u in Do(s, a).threads && Do(s, a).threads[u].Acking?
    ensures u in s.threads && s.threads[u] == Do(s, a).threads[u]
  {
    Frame(s, a);
    hide DoImport, CanImport, DoUnimport, CanUnimport, DoReceive, CanReceive, DoDrain, CanDrain;
    if IsBy(a, u) {
      hide Framed;
      if ByImport(a) { ImportAcksNone(s, a); } else if ByUnimport(a) { UnimportAcksNone(s, a); } else { ReceiveAcksNone(s, a); }
    }
  }

  lemma ImportAcksNone(s: Ctx, a: Act)
    requires ByImport(a) && !a.AgeOut? && Enabled(s, a)
    ensures a.t in DoImport(s, a).threads && DoImport(s, a).threads[a.t].Acking? ==> a.t in s.threads && s.threads[a.t] == DoImport(s, a).threads[a.t]
  {
    hide SetNode, Own, Without;
  }

  lemma UnimportAcksNone(s: Ctx, a: Act)
    requires ByUnimport(a) && Enabled(s, a)
    ensures a.t in DoUnimport(s, a).threads && DoUnimport(s, a).threads[a.t].Acking? ==> a.t in s.threads && s.threads[a.t] == DoUnimport(s, a).threads[a.t]
  {
    hide SetNode, MarkSent, Erase, Release;
  }

  lemma ReceiveAcksNone(s: Ctx, a: Act)
    requires ByReceive(a) && Enabled(s, a) && !IsReceived(s, a)
    ensures a.t in DoReceive(s, a).threads && DoReceive(s, a).threads[a.t].Acking? ==> a.t in s.threads && s.threads[a.t] == DoReceive(s, a).threads[a.t]
  {
    hide Own;
  }

  /** Only a search takes a node out of INIT, and nobody frees a node in INIT. */
  lemma DueStays(s: Ctx, a: Act, h: nat)
    requires Inv(s) && s.proto == 0 && Enabled(s, a) && !Early(s, a)
    requires h in s.heap && s.heap[h].st == Init && AckDue(s, h)
    ensures h in Do(s, a).heap && Do(s, a).heap[h].st == Init
  {
    InitIsFree(s, h);
    FreshNode(s);
    hide Inv, DoImport, CanImport, DoUnimport, CanUnimport, DoReceive, CanReceive, DoDrain, CanDrain, Early, AckDue;
    if ByImport(a) { ImportLeaves(s, a, h); }
    else if ByUnimport(a) { UnimportLeaves(s, a, h); }
    else if ByReceive(a) { ReceiveLeaves(s, a, h); }
    else { NoDrain(s, a, h); }
  }

  lemma InitIsFree(s: Ctx, h: nat)
    requires Inv(s) && s.proto == 0 && h in s.heap && s.heap[h].st == Init
    ensures s.heap[h].owner == Nobody
  {
    hide TreeInv, QueueInv, DrainInv, ThreadInv;
    assert NodeInv(s, h, s.heap[h]);
  }

  lemma ImportLeaves(s: Ctx, a: Act, h: nat)
    requires Inv(s) && s.proto == 0 && ByImport(a) && Enabled(s, a) && !Early(s, a)
    requires h in s.heap && s.heap[h].st == Init && AckDue(s, h)
    ensures h in DoImport(s, a).heap && DoImport(s, a).heap[h].st == Init
  {
    if a.MapDone? {
      MapLeaves(s, a, h);
    } else {
      hide Inv, AckDue, Without, Matches;
    }
  }

  lemma MapLeaves(s: Ctx, a: Act, h: nat)
    requires Inv(s) && a.MapDone? && Enabled(s, a) && h in s.heap && s.heap[h].st == Init
    ensures h in DoImport(s, a).heap && DoImport(s, a).heap[h].st == Init
  {
    hide TreeInv, QueueInv, DrainInv, NodeInv;
    assert ThreadInv(s, a.t, s.threads[a.t]);
    hide ThreadInv;
  }

  lemma UnimportLeaves(s: Ctx, a: Act, h: nat)
    requires Inv(s) && s.proto == 0 && ByUnimport(a) && Enabled(s, a)
    requires h in s.heap && s.heap[h].st == Init && s.heap[h].owner == Nobody
    ensures h in DoUnimport(s, a).heap && DoUnimport(s, a).heap[h].st == Init
  {
    if a.BeginUnimport? {
      hide Inv;
    } else {
      NotOwn(s, a.t, h);
      hide Inv, DoUnimport, CanUnimport;
      OthersUnimport(s, a, h);
    }
  }

  lemma OthersUnimport(s: Ctx, a: Act, h: nat)
    requires ByUnimport(a) && !a.BeginUnimport? && Enabled(s, a) && h in s.heap && s.heap[h].st == Init && Claim(s.threads[a.t]) != Some(h)
    ensures h in DoUnimport(s, a).heap && DoUnimport(s, a).heap[h].st == Init
  {
    hide Erase;
  }

  lemma NotOwn(s: Ctx, t: nat, h: nat)
    requires Inv(s) && h in s.heap && s.heap[h].owner == Nobody && t in s.threads
    ensures Claim(s.threads[t]) != Some(h)
  {
    hide TreeInv, QueueInv, DrainInv, NodeInv;
    assert ThreadInv(s, t, s.threads[t]);
  }

  lemma ReceiveLeaves(s: Ctx, a: Act, h: nat)
    requires ByReceive(a) && Enabled(s, a) && h in s.heap && h != s.next && s.heap[h].st == Init
    ensures h in DoReceive(s, a).heap && DoReceive(s, a).heap[h].st == Init
  {
    if a.Post? { PostLeavesState(s, a, h); }
  }

  lemma PostLeavesState(s: Ctx, a: Act, h: nat)
    requires a.Post? && Enabled(s, a) && h in s.heap && s.heap[h].st == Init
    ensures h in DoReceive(s, a).heap && DoReceive(s, a).heap[h].st == Init
  {
  }

  /** The context is not torn down while its receive path is still to make an ack. */
  lemma NoDrain(s: Ctx, a: Act, h: nat)
    requires Inv(s) && ByDrain(a) && AckDue(s, h)
    ensures !Enabled(s, a)
  {
    ThreadsMeanLive(s);
    hide Inv;
  }

  /** Steps from any state, not only from a new context. */
  predicate IsPath(ss: seq<Ctx>, steps: seq<Act>) {
    |ss| == |steps| + 1 && forall i :: 0 <= i < |steps| ==> Leads(ss[i], steps[i], ss[i + 1])
  }

  predicate NoneEarly(ss: seq<Ctx>, steps: seq<Act>) {
    |ss| >= |steps| && forall i :: 0 <= i < |steps| ==> !Early(ss[i], steps[i])
  }

  lemma {:induction false} PathUntouched(ss: seq<Ctx>, steps: seq<Act>, n: nat)
    requires IsPath(ss, steps) && NoneEarly(ss, steps) && n < |ss|
    requires Inv(ss[0]) && ss[0].proto == 0 && Untouched(ss[0])
    ensures Inv(ss[n]) && ss[n].proto == 0 && Untouched(ss[n]) && ss[n].stale == ss[0].stale
  {
    hide Inv, Untouched, Leads, Early;
    if n > 0 {
      PathUntouched(ss, steps, n - 1);
      PathStep(ss, steps, n - 1);
    }
  }

  lemma PathStep(ss: seq<Ctx>, steps: seq<Act>, i: nat)
    requires IsPath(ss, steps) && NoneEarly(ss, steps) && i < |steps| && Inv(ss[i]) && ss[i].proto == 0 && Untouched(ss[i])
    ensures Inv(ss[i + 1]) && ss[i + 1].proto == 0 && Untouched(ss[i + 1]) && ss[i + 1].stale == ss[i].stale
  {
    hide Inv, Untouched, Early, Enabled, Do;
    assert Leads(ss[i], steps[i], ss[i + 1]);
    DoInv(ss[i], steps[i]);
    ProtoKept(ss[i], steps[i]);
    UntouchedStep(ss[i], steps[i]);
  }

  /** In a run of protocol 0 in which no import takes a node before its export ack is made, every ack is made from a live node. */
  lemma {:induction false} AckIsSafe(ss: seq<Ctx>, steps: seq<Act>)
    requires IsRun(ss, steps) && ss[0].proto == 0 && NoneEarly(ss, steps)
    ensures forall n :: 0 <= n < |ss| ==> !ss[n].fault && !ss[n].stale
  {
    StartInv(ss[0]);
    StartUntouched(ss[0]);
    forall n | 0 <= n < |ss| ensures !ss[n].fault && !ss[n].stale {
      hide Untouched, Early, Leads;
      PathUntouched(ss, steps, n);
    }
  }

  lemma StartUntouched(s: Ctx)
    requires Start(s)
    ensures Untouched(s)
  {
  }

  // ---------------------------------------------------------------- after an early import

  /** Some continuation, in which no further import is early, makes an export ack from a freed node. */
  ghost predicate CanGoStale(s: Ctx, a: Act) {
    exists ss, steps :: GoesStale(s, a, ss, steps)
  }

  /** A path that begins with step `a`, has no early import after it, and ends in a stale ack. */
  predicate GoesStale(s: Ctx, a: Act, ss: seq<Ctx>, steps: seq<Act>) {
    && IsPath(ss, steps) && |steps| > 0 && ss[0] == s && steps[0] == a
    && NoneEarly(ss[1..], steps[1..]) && ss[|steps|].stale
  }

  /** The importing thread `t`, the receiver `u` and the node they share, `h` under `key`. */
  predicate Sharing(s: Ctx, t: nat, u: nat, h: nat, key: Key, st: NodeState) {
    && s.proto == 0 && s.drain == Live && t != u && u in s.threads && s.threads[u] == Acking(h)
    && key in s.whse && s.whse[key] == h && h in s.heap && s.heap[h].desc.key == key && s.heap[h].st == st
  }

  /** What is left to do once the import has the node: finish it, unimport, free, and make the ack. */
  function Doom(t: nat, u: nat, key: Key): (r: seq<Act>)
    ensures |r| == 6
  {
    [MapDone(t, true), BeginUnimport(t, key), SkipSend(t), Remove(t), Free(t), AckExport(u)]
  }

  lemma DoomMaps(s: Ctx, t: nat, u: nat, h: nat, key: Key)
    requires Sharing(s, t, u, h, key, Importing) && t in s.threads && s.threads[t] == Mapping(h)
    ensures Enabled(s, MapDone(t, true)) && Sharing(Do(s, MapDone(t, true)), t, u, h, key, Imported) && t !in Do(s, MapDone(t, true)).threads
  {
    hide DoUnimport, CanUnimport, DoReceive, CanReceive, DoDrain, CanDrain;
  }

  lemma DoomBegins(s: Ctx, t: nat, u: nat, h: nat, key: Key)
    requires Sharing(s, t, u, h, key, Imported) && t !in s.threads
    ensures Enabled(s, BeginUnimport(t, key))
    ensures var s' := Do(s, BeginUnimport(t, key)); Sharing(s', t, u, h, key, Unimporting) && t in s'.threads && s'.threads[t] == Unmapping(h)
  {
    hide DoImport, CanImport, DoReceive, CanReceive, DoDrain, CanDrain;
  }

  lemma DoomSkips(s: Ctx, t: nat, u: nat, h: nat, key: Key)
    requires Sharing(s, t, u, h, key, Unimporting) && t in s.threads && s.threads[t] == Unmapping(h)
    ensures Enabled(s, SkipSend(t))
    ensures var s' := Do(s, SkipSend(t)); Sharing(s', t, u, h, key, Unimporting) && t in s'.threads && s'.threads[t] == Removing(h)
  {
    hide DoImport, CanImport, DoReceive, CanReceive, DoDrain, CanDrain;
  }

  lemma DoomRemoves(s: Ctx, t: nat, u: nat, h: nat, key: Key)
    requires Sharing(s, t, u, h, key, Unimporting) && t in s.threads && s.threads[t] == Removing(h)
    ensures Enabled(s, Remove(t))
    ensures var s' := Do(s, Remove(t));
      t in s'.threads && s'.threads[t] == Freeing(h) && u in s'.threads && s'.threads[u] == Acking(h) && h in s'.heap
  {
    hide DoImport, CanImport, DoReceive, CanReceive, DoDrain, CanDrain;
  }

  lemma DoomFrees(s: Ctx, t: nat, u: nat, h: nat)
    requires t != u && t in s.threads && s.threads[t] == Freeing(h) && u in s.threads && s.threads[u] == Acking(h) && h in s.heap
    ensures Enabled(s, Free(t))
    ensures var s' := Do(s, Free(t)); u in s'.threads && s'.threads[u] == Acking(h) && h !in s'.heap
  {
    hide DoImport, CanImport, DoReceive, CanReceive, DoDrain, CanDrain;
  }

  lemma DoomReads(s: Ctx, u: nat, h: nat)
    requires u in s.threads && s.threads[u] == Acking(h) && h !in s.heap
    ensures Enabled(s, AckExport(u)) && Do(s, AckExport(u)).stale
  {
    hide DoImport, CanImport, DoUnimport, CanUnimport, DoDrain, CanDrain;
  }

  /** What the early search leaves: the node shared with a receiver. */
  lemma EarlyShares(s: Ctx, a: Act) returns (u: nat, h: nat)
    requires Inv(s) && s.proto == 0 && Early(s, a)
    ensures var s', t, key := Do(s, a), a.t, s.threads[a.t].key;
      Sharing(s', t, u, h, key, Importing) && t in s'.threads && s'.threads[t] == Mapping(h)
  {
    ThreadsMeanLive(s);
    h := s.whse[s.threads[a.t].key];
    u :| u in s.threads && s.threads[u] == Acking(h);
    LookupEffect(s, a.t);
    assert s.heap[h].desc.key == s.threads[a.t].key;
    hide Inv, Do, AckDue;
  }

  lemma DoomPath(s: Ctx, t: nat, u: nat, h: nat, key: Key) returns (ss: seq<Ctx>)
    requires Sharing(s, t, u, h, key, Importing) && t in s.threads && s.threads[t] == Mapping(h)
    ensures |ss| == 7 && ss[0] == s && ss[6].stale && Chain(ss, Doom(t, u, key))
  {
    DoomMaps(s, t, u, h, key);
    hide Do, Enabled, Sharing;
    var s2 := Do(s, MapDone(t, true));
    DoomBegins(s2, t, u, h, key);
    var s3 := Do(s2, BeginUnimport(t, key));
    DoomSkips(s3, t, u, h, key);
    var s4 := Do(s3, SkipSend(t));
    var tail := DoomEnd(s4, t, u, h, key);
    ss := [s, s2, s3] + tail;
    DoomChain(ss, tail, t, u, key);
  }

  lemma DoomEnd(s: Ctx, t: nat, u: nat, h: nat, key: Key) returns (ss: seq<Ctx>)
    requires Sharing(s, t, u, h, key, Unimporting) && t in s.threads && s.threads[t] == Removing(h)
    ensures |ss| == 4 && ss[0] == s && ss[3].stale && Chain(ss, [Remove(t), Free(t), AckExport(u)])
  {
    assert t != u;
    DoomRemoves(s, t, u, h, key);
    hide Do, Enabled, Sharing;
    var s5 := Do(s, Remove(t));
    DoomFrees(s5, t, u, h);
    var s6 := Do(s5, Free(t));
    DoomReads(s6, u, h);
    ss := [s, s5, s6, Do(s6, AckExport(u))];
  }

  /** Consecutive states of steps none of which is a search. */
  predicate Chain(ss: seq<Ctx>, steps: seq<Act>) {
    |ss| == |steps| + 1 && forall i :: 0 <= i < |steps| ==> !steps[i].Lookup? && Leads(ss[i], steps[i], ss[i + 1])
  }

  lemma DoomChain(ss: seq<Ctx>, tail: seq<Ctx>, t: nat, u: nat, key: Key)
    requires |ss| == 7 && |tail| == 4 && ss[3..] == tail && Chain(tail, [Remove(t), Free(t), AckExport(u)])
    requires Leads(ss[0], MapDone(t, true), ss[1]) && Leads(ss[1], BeginUnimport(t, key), ss[2]) && Leads(ss[2], SkipSend(t), ss[3])
    ensures Chain(ss, Doom(t, u, key))
  {
    hide Leads;
    assert forall i :: 0 <= i < 4 ==> ss[3 + i] == tail[i];
    assert Leads(tail[0], Remove(t), tail[1]) && Leads(tail[1], Free(t), tail[2]) && Leads(tail[2], AckExport(u), tail[3]) by {
      var rest := [Remove(t), Free(t), AckExport(u)];
      assert Leads(tail[0], rest[0], tail[0 + 1]) && Leads(tail[1], rest[1], tail[1 + 1]) && Leads(tail[2], rest[2], tail[2 + 1]);
    }
  }

  lemma EarlyGoesStale(s: Ctx, a: Act)
    requires Inv(s) && s.proto == 0 && Early(s, a)
    ensures CanGoStale(s, a)
  {
    var u, h := EarlyShares(s, a);
    assert Leads(s, a, Do(s, a));
    hide Inv, Do, Early, Leads, Sharing, Enabled;
    var key := s.threads[a.t].key;
    var ss := DoomPath(Do(s, a), a.t, u, h, key);
    ChainGoesStale(s, a, ss, Doom(a.t, u, key));
  }

  lemma ChainGoesStale(s: Ctx, a: Act, ss: seq<Ctx>, rest: seq<Act>)
    requires Chain(ss, rest) && Leads(s, a, ss[0]) && ss[|rest|].stale
    ensures CanGoStale(s, a)
  {
    hide Leads, Enabled;
    var all, steps := [s] + ss, [a] + rest;
    assert all[1..] == ss && steps[1..] == rest;
    forall i | 0 <= i < |steps| ensures Leads(all[i], steps[i], all[i + 1]) {
      if i > 0 { assert Leads(ss[i - 1], rest[i - 1], ss[i - 1 + 1]); }
    }
    assert NoneEarly(ss, rest);
    assert GoesStale(s, a, all, steps);
  }

  /**
   The search of an import can lead to an ack made from a freed node, without any other early
   import, if and only if it is early itself: if it takes a node whose export ack is still due.
   */
  lemma {:induction false} EarlyExactly(s: Ctx, t: nat)
    requires Inv(s) && s.proto == 0 && Untouched(s) && !s.stale && Enabled(s, Lookup(t))
    ensures CanGoStale(s, Lookup(t)) <==> Early(s, Lookup(t))
  {
    if Early(s, Lookup(t)) {
      EarlyGoesStale(s, Lookup(t));
    } else {
      forall ss, steps ensures !GoesStale(s, Lookup(t), ss, steps) { StaysSafe(s, t, ss, steps); }
    }
  }

  lemma StaysSafe(s: Ctx, t: nat, ss: seq<Ctx>, steps: seq<Act>)
    requires Inv(s) && s.proto == 0 && Untouched(s) && !s.stale && Enabled(s, Lookup(t)) && !Early(s, Lookup(t))
    ensures !GoesStale(s, Lookup(t), ss, steps)
  {
    hide Inv, Early, Untouched, Leads, Enabled;
    if IsPath(ss, steps) && |steps| > 0 && ss[0] == s && steps[0] == Lookup(t) && NoneEarly(ss[1..], steps[1..]) {
      forall i | 0 <= i < |steps| ensures !Early(ss[i], steps[i]) {
        if i > 0 { assert ss[1..][i - 1] == ss[i] && steps[1..][i - 1] == steps[i]; }
      }
      PathUntouched(ss, steps, |steps|);
    }
  }

  /** A new context, protocol 0. */
  function New(): Ctx { Ctx(0, map[], map[], 0, [], 0, map[], Live, false, false) }

  /** A descriptor is received by thread 1 while thread 0 is about to look for it. */
  lemma EarlyReached() returns (ss: seq<Ctx>, steps: seq<Act>)
    ensures IsRun(ss, steps) && ss[0].proto == 0 && Early(ss[|steps|], Lookup(0)) && ss[|steps|].proto == 0
  {
    var key := Key(1, 0);
    var receive, begin := Receive(1, Desc(key, 0), 0, 0, Valid), StartOld(0, key);
    var s1 := Do(New(), receive);
    assert s1.threads == map[1 := Acking(0)] && s1.whse == map[key := 0] && s1.heap == map[0 := Node(Desc(key, 0), Init, false, Nobody)];
    assert s1.drain == Live && s1.proto == 0;
    var s2 := Do(s1, begin);
    assert s2 == s1.(threads := map[1 := Acking(0), 0 := Looking(key, None)]);
    assert s2.threads[1] == Acking(0) && AckDue(s2, 0);
    ss, steps := [New(), s1, s2], [receive, begin];
    hide Do, AckDue;
    assert Leads(New(), receive, s1) && Leads(s1, begin, s2);
  }

  /** A run of protocol 0 in which an export ack is made from a freed node. */
  lemma StaleRun()
    ensures exists ss: seq<Ctx>, steps: seq<Act> :: IsRun(ss, steps) && ss[0].proto == 0 && ss[|steps|].stale
  {
    var ss, steps := EarlyReached();
    RunInv(ss, steps, |steps|);
    hide Inv, Early, Leads, Start;
    EarlyGoesStale(ss[|steps|], Lookup(0));
    var ts, more :| GoesStale(ss[|steps|], Lookup(0), ts, more);
    RunGoesOn(ss, steps, ts, more);
  }

  /** A run followed by steps from where it ends. */
  lemma RunGoesOn(ss: seq<Ctx>, steps: seq<Act>, ts: seq<Ctx>, more: seq<Act>)
    requires IsRun(ss, steps) && IsPath(ts, more) && ts[0] == ss[|steps|] && ts[|more|].stale
    ensures exists all: seq<Ctx>, acts: seq<Act> :: IsRun(all, acts) && all[0] == ss[0] && all[|acts|].stale
  {
    hide Leads, Start;
    var all, acts := ss[..|steps|] + ts, steps + more;
    forall i | 0 <= i < |acts| ensures Leads(all[i], acts[i], all[i + 1]) {
      if i < |steps| {
        assert Leads(ss[i], steps[i], ss[i + 1]);
        assert all[i + 1] == ss[i + 1];
      } else {
        assert Leads(ts[i - |steps|], more[i - |steps|], ts[i - |steps| + 1]);
      }
    }
    assert IsRun(all, acts);
    assert all[|acts|] == ts[|more|];
  }
}
