/** The open requests of one device, the pending opens of one context, and what a listener makes of them. */
module OpenQueue {
  import opened Common

  datatype Kind = Init | InitAck | InitDone | InitCancel

  /** `struct hab_open_request`; `pchan` names the physical channel it came in on. */
  datatype Request = Request(kind: Kind, pchan: nat, vchanId: int, subId: int, openId: int)

  datatype Node = Node(request: Request, age: int)

  /** What a listener waits for; `None` and open id 0 stand for any. */
  datatype Listen = Listen(kind: Kind, pchan: Option<nat>, subId: int, openId: int)

  /** 0, -ENOMEM and -EIO */
  datatype Status = Done | NoMemory | ShortRead

  /** HAB_OPEN_REQ_EXPIRE_TIME_S */
  const ExpireTime := 36000

  predicate Accepts(listen: Listen, r: Request) {
    && (r.kind == listen.kind || r.kind == InitCancel)
    && r.subId == listen.subId
    && (listen.openId == 0 || r.openId == listen.openId)
    && (listen.pchan.Some? ==> r.pchan == listen.pchan.value)
  }

  /** The request an INIT_CANCEL takes back: not serviced yet, same ids; its channel is not compared. */
  predicate Cancels(cancel: Request, r: Request) {
    && r.kind in {Init, InitAck}
    && r.subId == cancel.subId && r.openId == cancel.openId && r.vchanId == cancel.vchanId
  }

  predicate Expired(n: Node, now: int) { n.age < now }

  // ---------------------------------------------------------------- what the scans find

  /** Where the first request is that the listener accepts; the length of the queue if there is none. */
  function FirstAccepted(q: seq<Node>, listen: Listen): (i: nat)
    ensures i <= |q| && (i < |q| ==> Accepts(listen, q[i].request))
    ensures forall j :: 0 <= j < i ==> !Accepts(listen, q[j].request)
  {
    if q == [] || Accepts(listen, q[0].request) then 0 else 1 + FirstAccepted(q[1..], listen)
  }

  function FirstCancelled(q: seq<Node>, cancel: Request): (i: nat)
    ensures i <= |q| && (i < |q| ==> Cancels(cancel, q[i].request))
    ensures forall j :: 0 <= j < i ==> !Cancels(cancel, q[j].request)
  {
    if q == [] || Cancels(cancel, q[0].request) then 0 else 1 + FirstCancelled(q[1..], cancel)
  }

  /** The nodes that are not expired, in order. */
  function Fresh(q: seq<Node>, now: int): (r: seq<Node>)
    ensures |r| <= |q|
  {
    if q == [] then []
    else Fresh(q[..|q| - 1], now) + (if Expired(q[|q| - 1], now) then [] else [q[|q| - 1]])
  }

  /** The queue without node `i`. */
  function Without(q: seq<Node>, i: nat): seq<Node> { if i < |q| then q[..i] + q[i + 1..] else q }

  /** The queue after a scan that stops at node `i`: expired nodes before it are gone, and the node. */
  function AfterScan(q: seq<Node>, i: nat, now: int): seq<Node>
    requires i <= |q|
  {
    Fresh(q[..i], now) + (if i < |q| then q[i + 1..] else [])
  }

  function Kept(q: seq<Request>, pending: Request): seq<Request> {
    if q == [] then []
    else Kept(q[..|q| - 1], pending) + (if q[|q| - 1] == pending then [] else [q[|q| - 1]])
  }

  lemma FreshMore(q: seq<Node>, i: nat, now: int)
    requires i < |q|
    ensures Fresh(q[..i + 1], now) == Fresh(q[..i], now) + (if Expired(q[i], now) then [] else [q[i]])
  {
    assert q[..i + 1][..i] == q[..i];
  }

  lemma KeptMore(q: seq<Request>, i: nat, r: Request)
    requires i < |q|
    ensures Kept(q[..i + 1], r) == Kept(q[..i], r) + (if q[i] == r then [] else [q[i]])
    ensures r in q[..i + 1] <==> r in q[..i] || q[i] == r
  {
    assert q[..i + 1][..i] == q[..i];
  }

  /** What happens to the list of open requests, and when. */
  datatype Event =
    | Arrives(r: Request, now: int)
    | Scans(listen: Listen, now: int)
    | CancelArrives(c: Request, now: int)

  /** A request stays valid for ten hours. */
  function After(q: seq<Node>, e: Event): seq<Node> {
    match e
    case Arrives(r, now) => q + [Node(r, now + 36000)]
    case Scans(listen, now) => AfterScan(q, FirstAccepted(q, listen), now)
    case CancelArrives(c, now) => var i := FirstCancelled(q, c); if i < |q| then Without(q, i) else q + [Node(c, now + 36000)]
  }

  /** The part of `struct hab_device` and of `struct uhab_context` that opening uses. */
  class Device {
    var openq: seq<Node>
    var openqCnt: int
    var pending: seq<Request>
    var pendingCnt: int
    // nodes that were allocated and that nothing leads to any more
    var leaked: nat

    /** The counter is at least the length of the queue: expiry does not lower it. */
    predicate Valid() reads this { openqCnt >= |openq| && pendingCnt == |pending| }

    constructor ()
      ensures Valid() && openq == [] && openqCnt == 0 && pending == [] && pendingCnt == 0 && leaked == 0
    {
      openq, openqCnt, pending, pendingCnt, leaked := [], 0, [], 0, 0;
    }

    /** `hab_open_request_add`; `room`: there is memory for the node, `whole`: all of the request could be read. */
    method Add(r: Request, now: int, room: bool, whole: bool) returns (ret: Status)
      requires Valid()
      modifies this`openq, this`openqCnt, this`leaked
      ensures Valid() && (ret == NoMemory <==> !room) && (ret == ShortRead <==> room && !whole)
      ensures openq == if ret == Done then After(old(openq), Arrives(r, now)) else old(openq)
      ensures openqCnt - |openq| == old(openqCnt) - |old(openq)|
      ensures leaked == old(leaked) + (if ret == ShortRead then 1 else 0)
    {
      if !room { return NoMemory; }
      if !whole {
        leaked := leaked + 1;
        return ShortRead;
      }
      openq := openq + [Node(r, now + ExpireTime)];
      openqCnt := openqCnt + 1;
      ret := Done;
    }

    /** One evaluation of the wait condition. `gone`: the context is closing or the channel is closed. */
    method Find(gone: bool, listen: Listen, now: int, forbidden: bool) returns (met: bool, request: Option<Request>)
      requires Valid()
      modifies this`openq, this`openqCnt
      ensures Valid()
      ensures gone ==> met && request == None && openq == old(openq) && openqCnt == old(openqCnt)
      ensures !gone ==> var q, i := old(openq), FirstAccepted(old(openq), listen);
        && request == (if i < |q| then Some(q[i].request) else None) && (met <==> i < |q| || forbidden)
        && openq == After(q, Scans(listen, now))
        && openqCnt == old(openqCnt) - (if i < |q| then 1 else 0)
    {
      met, request := gone || forbidden, None;
      if gone { return; }
      var q, i, live := openq, 0, [];
      while i < |q| && !Accepts(listen, q[i].request)
        invariant openq == q && openqCnt == old(openqCnt)
        invariant 0 <= i <= |q| && live == Fresh(q[..i], now)
        invariant forall j :: 0 <= j < i ==> !Accepts(listen, q[j].request)
      {
        FreshMore(q, i, now);
        if !Expired(q[i], now) { live := live + [q[i]]; }
        i := i + 1;
      }
      assert i == FirstAccepted(q, listen);
      if i < |q| {
        openq, openqCnt := live + q[i + 1..], openqCnt - 1;
        met, request := true, Some(q[i].request);
      } else {
        openq := live;
      }
    }

    /** `hab_open_receive_cancel`; `whole`: all of it could be read, `room`: there is memory for a node. */
    method ReceiveCancel(cancel: Request, now: int, whole: bool, room: bool) returns (ret: Status)
      requires Valid() && cancel.kind == InitCancel
      modifies this`openq, this`openqCnt
      ensures Valid()
      ensures var q, i := old(openq), FirstCancelled(old(openq), cancel);
        && (ret == ShortRead <==> !whole)
        && (ret == NoMemory <==> whole && i == |q| && !room)
        && openq == if ret == Done then After(q, CancelArrives(cancel, now)) else q
      ensures openqCnt - |openq| == old(openqCnt) - |old(openq)|
    {
      if !whole { return ShortRead; }
      var i := 0;
      while i < |openq| && !Cancels(cancel, openq[i].request)
        invariant 0 <= i <= |openq| && openq == old(openq) && openqCnt == old(openqCnt)
        invariant forall j :: 0 <= j < i ==> !Cancels(cancel, openq[j].request)
      {
        i := i + 1;
      }
      assert i == FirstCancelled(openq, cancel);
      if i == |openq| && !room { return NoMemory; }
      if i < |openq| {
        assert Without(openq, i) == openq[..i] + openq[i + 1..];
        openq, openqCnt := openq[..i] + openq[i + 1..], openqCnt - 1;
      } else {
        openq, openqCnt := openq + [Node(cancel, now + ExpireTime)], openqCnt + 1;
      }
      ret := Done;
    }

    method PendingEnter(r: Request)
      requires Valid()
      modifies this`pending, this`pendingCnt
      ensures Valid() && pending == old(pending) + [r]
    {
      pending, pendingCnt := pending + [r], pendingCnt + 1;
    }

    /** Every pending open that equals `r` goes; the result says whether there was one. */
    method PendingExit(r: Request) returns (found: bool)
      requires Valid()
      modifies this`pending, this`pendingCnt
      ensures Valid() && pending == Kept(old(pending), r) && (found <==> r in old(pending))
    {
      found := false;
      var q, i, kept := pending, 0, [];
      while i < |q|
        invariant 0 <= i <= |q| && kept == Kept(q[..i], r) && (found <==> r in q[..i])
        invariant pendingCnt == |kept| + |q| - i
      {
        KeptMore(q, i, r);
        if q[i] == r {
          found, pendingCnt := true, pendingCnt - 1;
        } else {
          kept := kept + [q[i]];
        }
        i := i + 1;
      }
      assert q[..i] == q;
      pending := kept;
    }
  }

  // ---------------------------------------------------------------- what the properties mean

  /** Entering and leaving a pending open that was not there before gives the old list back. */
  lemma {:induction false} PendingRoundTrip(q: seq<Request>, r: Request)
    requires r !in q
    ensures Kept(q + [r], r) == q
  {
    assert (q + [r])[..|q|] == q;
    KeptAll(q, r);
  }

  lemma {:induction false} KeptAll(q: seq<Request>, r: Request)
    requires r !in q
    ensures Kept(q, r) == q
  {
    if q != [] { KeptAll(q[..|q| - 1], r); }
  }

  /** The nodes a scan keeps are those whose time has not passed. */
  lemma {:induction false} FreshExactly(q: seq<Node>, now: int, n: Node)
    ensures n in Fresh(q, now) <==> n in q && now <= n.age
  {
    if q != [] {
      FreshExactly(q[..|q| - 1], now, n);
      assert q == q[..|q| - 1] + [q[|q| - 1]];
    }
  }

  /**
   A request queued at time `t` that a listener does not accept is still queued after its scan exactly if ten
   hours have not passed, or the scan ended before it.
   */
  lemma ExpiresExactly(q: seq<Node>, listen: Listen, now: int, r: Request, t: int)
    requires !Accepts(listen, r)
    ensures
      var n := Node(r, t + 36000);
      n in After(q, Scans(listen, now)) <==> n in q && (now <= t + 36000 || n in q[FirstAccepted(q, listen)..])
  {
    var n, i := Node(r, t + 36000), FirstAccepted(q, listen);
    FreshExactly(q[..i], now, n);
    assert q == q[..i] + q[i..];
    if i < |q| { assert q[i..] == [q[i]] + q[i + 1..]; }
  }

  function Replay(q: seq<Node>, events: seq<Event>): seq<Node>
    decreases |events|
  {
    if events == [] then q else Replay(After(q, events[0]), events[1..])
  }

  /** The event is not about `r`: no listener that accepts it, no cancel that takes it back. */
  predicate Spares(e: Event, r: Request) {
    match e
    case Arrives(_, _) => true
    case Scans(listen, _) => !Accepts(listen, r)
    case CancelArrives(c, _) => !Cancels(c, r)
  }

  /** A request queued at time `t` lives through whatever happens for ten hours, unless it is accepted or cancelled. */
  lemma {:induction false} LivesTenHours(q: seq<Node>, r: Request, t: int, events: seq<Event>)
    requires forall i :: 0 <= i < |events| ==> Spares(events[i], r) && events[i].now <= t + 36000
    ensures Node(r, t + 36000) in Replay(After(q, Arrives(r, t)), events)
  {
    LivesOn(After(q, Arrives(r, t)), r, t, events);
  }

  lemma {:induction false} LivesOn(q: seq<Node>, r: Request, t: int, events: seq<Event>)
    requires Node(r, t + 36000) in q && forall i :: 0 <= i < |events| ==> Spares(events[i], r) && events[i].now <= t + 36000
    ensures Node(r, t + 36000) in Replay(q, events)
    decreases |events|
  {
    if events != [] {
      var e := events[0];
      match e {
        case Arrives(_, _) =>
        case Scans(listen, now) => ExpiresExactly(q, listen, now, r, t);
        case CancelArrives(c, _) => NotCancelled(q, c, Node(r, t + 36000));
      }
      LivesOn(After(q, e), r, t, events[1..]);
    }
  }

  lemma NotCancelled(q: seq<Node>, c: Request, n: Node)
    requires n in q && !Cancels(c, n.request)
    ensures n in Without(q, FirstCancelled(q, c))
  {
    var i := FirstCancelled(q, c);
    if i < |q| { assert q == q[..i] + [q[i]] + q[i + 1..]; }
  }

  /** A listener is served exactly if a request of its type, or a cancel, is there for its sub id, open id and channel. */
  lemma ServedExactly(q: seq<Node>, listen: Listen)
    ensures FirstAccepted(q, listen) < |q| <==>
      exists n :: n in q && n.request.kind in {listen.kind, InitCancel} && n.request.subId == listen.subId
        && (listen.openId == 0 || n.request.openId == listen.openId)
        && (listen.pchan == None || listen.pchan == Some(n.request.pchan))
  {
    var i := FirstAccepted(q, listen);
    if i < |q| { assert q[i] in q; }
  }

  /** A cancel finds a request exactly if one with its three ids has not been serviced; whose channel it is does not matter. */
  lemma CancelledExactly(q: seq<Node>, c: Request)
    ensures FirstCancelled(q, c) < |q| <==>
      exists n :: n in q && n.request.kind in {Init, InitAck}
        && n.request.subId == c.subId && n.request.openId == c.openId && n.request.vchanId == c.vchanId
  {
    var i := FirstCancelled(q, c);
    if i < |q| { assert q[i] in q; }
  }

  /**
   A scan leaves the counter equal to the length of the queue exactly if the time of no node it passed over has
   gone by: expiry shortens the queue and not the counter.
   */
  lemma CounterStaysExact(q: seq<Node>, listen: Listen, now: int)
    ensures
      var i := FirstAccepted(q, listen);
      |After(q, Scans(listen, now))| == |q| - (if i < |q| then 1 else 0) <==> forall n :: n in q[..i] ==> now <= n.age
  {
    FreshIsAll(q[..FirstAccepted(q, listen)], now);
  }

  lemma {:induction false} FreshIsAll(q: seq<Node>, now: int)
    ensures |Fresh(q, now)| == |q| <==> forall n :: n in q ==> now <= n.age
  {
    if q != [] {
      FreshIsAll(q[..|q| - 1], now);
      assert q == q[..|q| - 1] + [q[|q| - 1]];
    }
  }

  // ---------------------------------------------------------------- hab_open_listen and its callers

  datatype Wait = Met | TimedOut | Interrupted

  datatype Code = Zero | Again | Intr | NoSuchDevice | NoDevice

  /** The return code of `hab_open_listen`. */
  function ListenCode(timed: bool, wait: Wait, closing: bool, forbidden: bool): Code {
    if timed then
      if wait == TimedOut then Again else if wait == Interrupted then Intr else if forbidden then NoSuchDevice else Zero
    else
      if closing then NoDevice else if wait == Interrupted then Intr else if forbidden then NoSuchDevice else Zero
  }

  datatype Backend = Retry | Cancelled | Failed | OpenDone

  /** What `backend_listen` does after waiting for INIT_DONE. */
  function BackendAfter(ret: Code, request: Option<Request>): Backend {
    if ret != Zero && request.Some? && request.value.kind == InitCancel then Cancelled
    else if ret == NoSuchDevice then Failed
    else if ret == Again then Retry
    else if ret != Zero || request == None then Failed
    else OpenDone
  }

  /** What a listener is told, with and without a timeout. */
  lemma ListenExactly(wait: Wait, closing: bool, forbidden: bool)
    ensures ListenCode(true, wait, closing, forbidden) == Zero <==> wait == Met && !forbidden
    ensures ListenCode(true, wait, closing, forbidden) == Again <==> wait == TimedOut
    ensures ListenCode(true, wait, closing, forbidden) == Intr <==> wait == Interrupted
    ensures ListenCode(true, wait, closing, forbidden) == NoSuchDevice <==> wait == Met && forbidden
    ensures ListenCode(false, wait, closing, forbidden) == Zero <==> !closing && wait != Interrupted && !forbidden
    ensures ListenCode(false, wait, closing, forbidden) == NoDevice <==> closing
    ensures ListenCode(false, wait, closing, forbidden) == Intr <==> !closing && wait == Interrupted
    ensures ListenCode(false, wait, closing, forbidden) == NoSuchDevice <==> !closing && wait != Interrupted && forbidden
  {
  }

  /** What a backend waiting for INIT_DONE does next: it retries on a timeout alone, and is open only with a request in hand. */
  lemma BackendExactly(ret: Code, request: Option<Request>)
    ensures BackendAfter(ret, request) == Cancelled <==> ret != Zero && request.Some? && request.value.kind == InitCancel
    ensures BackendAfter(ret, request) == Retry <==> ret == Again && (request.None? || request.value.kind != InitCancel)
    ensures BackendAfter(ret, request) == OpenDone <==> ret == Zero && request.Some?
  {
  }

  /**
   A waiting backend accepts INIT_CANCEL as it accepts INIT_DONE: the branch for a cancelled open
   is taken exactly when the channel is forbidden as well, and otherwise the open succeeds.
   */
  lemma CancelOpens(request: Request, closing: bool, forbidden: bool)
    requires request.kind == InitCancel
    ensures BackendAfter(ListenCode(true, Met, closing, forbidden), Some(request)) == Cancelled <==> forbidden
    ensures BackendAfter(ListenCode(true, Met, closing, forbidden), Some(request)) == OpenDone <==> !forbidden
  {
  }

  /** In a run without cancellation a backend's open succeeds exactly on INIT_DONE. */
  lemma OpensOnDone(q: seq<Node>, pchan: nat, subId: int, openId: int, wait: Wait, closing: bool, forbidden: bool)
    requires openId != 0 && forall n :: n in q ==> n.request.kind != InitCancel
    ensures var i := FirstAccepted(q, Listen(InitDone, Some(pchan), subId, openId));
      BackendAfter(ListenCode(true, wait, closing, forbidden), if wait == Met && i < |q| then Some(q[i].request) else None) == OpenDone <==>
        wait == Met && !forbidden
        && exists n :: n in q && n.request.kind == InitDone && n.request.pchan == pchan && n.request.subId == subId && n.request.openId == openId
  {
  }
}
