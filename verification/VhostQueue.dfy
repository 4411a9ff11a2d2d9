/** The send queue of the vhost backend: a list that a worker drains into the guest's rx buffers. */
module VhostQueue {
  import opened Common

  /** VHOST_HAB_WEIGHT, HAB_HEAD_SIGNATURE, and the largest payload a sender may pass */
  const Weight := 0x8_0000
  const Signature := 0xBEE1_BEE1
  const InBufSize := 5120
  const MaxPayload: int := InBufSize - 20

  /** A queued message: the first three header words as bytes, and the payload. */
  datatype Message = Message(head: seq<Byte>, payload: seq<Byte>)

  /**
   What the guest offers next: whether its descriptor can be read, how many writable parts it has and how
   long they are, the length of stray read-only parts, and whether copying and giving it back work.
   */
  datatype Buffer = Buffer(descOk: bool, inNum: nat, inLen: nat, outLen: nat, copyOk: bool, usedOk: bool)

  /** 0, -EAGAIN, -EIO, -EBUSY, -EFAULT, the code of giving a buffer back, and the weight limit */
  datatype Code = Ok | Again | Io | Busy | Fault | AddUsed | TooHeavy

  /** `get_rx_buf_locked`, a buffer being there */
  function Get(b: Buffer): Code { if !b.descOk then Io else if b.inNum == 0 then Busy else if b.inLen == 0 then Io else Ok }

  /** The buffers left after the first one has been refused; a descriptor that cannot be read stays. */
  function Skip(bufs: seq<Buffer>): seq<Buffer>
    requires bufs != []
  {
    if bufs[0].descOk then bufs[1..] else bufs
  }

  /** The bytes of a message whose header got this sequence number. */
  function Wire(m: Message, sequence: nat): (r: seq<Byte>)
    ensures |r| == |m.head| + 8 + |m.payload|
  {
    m.head + Word(Signature) + Word(sequence) + m.payload
  }

  function Size(m: Message): nat { |m.head| + 8 + |m.payload| }

  function Next(sequence: nat): nat { (sequence + 1) % 0x1_0000_0000 }

  // ---------------------------------------------------------------- one message

  /** What `rx_send_one_node_locked` leaves: code, filled buffers, sequence number, buffers not taken. */
  datatype Sent = Sent(ret: Code, filled: seq<seq<Byte>>, sequence: nat, rest: seq<Buffer>)

  /** The rest of a message from byte `pos` on, `total` being the weight so far. */
  function SendFrom(m: Message, pos: nat, sequence: nat, total: nat, bufs: seq<Buffer>): Sent
    requires pos <= Size(m)
    decreases |bufs|
  {
    if pos == Size(m) then Sent(Ok, [], sequence, bufs)
    else if bufs == [] then Sent(Again, [], sequence, bufs)
    else if Get(bufs[0]) != Ok then Sent(Get(bufs[0]), [], sequence, Skip(bufs))
    else
      var b, n, s := bufs[0], Chunk(m, pos, bufs[0]), Next(sequence);
      if !b.copyOk then Sent(Fault, [], s, bufs[1..])
      else if !b.usedOk then Sent(AddUsed, [], s, bufs[1..])
      else if total + b.inLen + b.outLen >= Weight then Sent(TooHeavy, [Wire(m, s)[pos..pos + n]], s, bufs[1..])
      else
        var r := SendFrom(m, pos + n, s, total + b.inLen + b.outLen, bufs[1..]);
        r.(filled := [Wire(m, s)[pos..pos + n]] + r.filled)
  }

  function Chunk(m: Message, pos: nat, b: Buffer): nat
    requires pos <= Size(m)
  {
    if b.inLen < Size(m) - pos then b.inLen else Size(m) - pos
  }

  /** `r` after what is filled already. */
  function After(filled: seq<seq<Byte>>, r: Sent): Sent { r.(filled := filled + r.filled) }

  lemma SendStep(filled: seq<seq<Byte>>, m: Message, pos: nat, sequence: nat, total: nat, bufs: seq<Buffer>)
    requires pos < Size(m)
    ensures After(filled, SendFrom(m, pos, sequence, total, bufs)) ==
      if bufs == [] then Sent(Again, filled, sequence, bufs)
      else
        var b, n, s, rest := bufs[0], Chunk(m, pos, bufs[0]), Next(sequence), bufs[1..];
        if Get(b) != Ok then Sent(Get(b), filled, sequence, Skip(bufs))
        else if !b.copyOk then Sent(Fault, filled, s, rest)
        else if !b.usedOk then Sent(AddUsed, filled, s, rest)
        else
          var more, t := filled + [Wire(m, s)[pos..pos + n]], total + b.inLen + b.outLen;
          if t >= Weight then Sent(TooHeavy, more, s, rest) else After(more, SendFrom(m, pos + n, s, t, rest))
  {
  }

  lemma SendDone(filled: seq<seq<Byte>>, m: Message, sequence: nat, total: nat, bufs: seq<Buffer>)
    ensures After(filled, SendFrom(m, Size(m), sequence, total, bufs)) == Sent(Ok, filled, sequence, bufs)
    ensures After([], SendFrom(m, 0, sequence, total, bufs)) == SendFrom(m, 0, sequence, total, bufs)
  {
  }

  // ---------------------------------------------------------------- the worker

  datatype State = State(list: seq<Message>, sequence: nat)

  datatype Drained = Drained(ret: Code, state: State, filled: seq<seq<Byte>>, rest: seq<Buffer>)

  /** One run of `rx_worker` with these buffers available. */
  function Drain(st: State, bufs: seq<Buffer>): Drained
    decreases |st.list|
  {
    if st.list == [] then Drained(Ok, st, [], bufs)
    else
      var one := SendFrom(st.list[0], 0, st.sequence, 0, bufs);
      if one.ret != Ok then Drained(one.ret, st.(sequence := one.sequence), one.filled, one.rest)
      else
        var d := Drain(State(st.list[1..], one.sequence), one.rest);
        d.(filled := one.filled + d.filled)
  }

  function Put(filled: seq<seq<Byte>>, d: Drained): Drained { d.(filled := filled + d.filled) }

  lemma DrainStep(filled: seq<seq<Byte>>, st: State, bufs: seq<Buffer>)
    ensures Put([], Drain(st, bufs)) == Drain(st, bufs)
    ensures st.list == [] ==> Put(filled, Drain(st, bufs)) == Drained(Ok, st, filled, bufs)
    ensures st.list != [] ==>
      var one := SendFrom(st.list[0], 0, st.sequence, 0, bufs);
      Put(filled, Drain(st, bufs)) ==
        if one.ret != Ok then Drained(one.ret, st.(sequence := one.sequence), filled + one.filled, one.rest)
        else Put(filled + one.filled, Drain(State(st.list[1..], one.sequence), one.rest))
  {
  }

  class Queue {
    var sendList: seq<Message>
    var sequenceTx: nat

    function Current(): State
      reads this
    {
      State(sendList, sequenceTx)
    }

    constructor ()
      ensures Current() == State([], 0)
    {
      sendList, sequenceTx := [], 0;
    }

    /** `physical_channel_send`: refused, or at the end of the list. */
    method Send(m: Message, ready: bool, closed: bool, memory: bool) returns (ok: bool)
      modifies this
      ensures ok <==> ready && !closed && |m.payload| <= 5100 && memory
      ensures Current() == if ok then State(old(sendList) + [m], old(sequenceTx)) else old(Current())
    {
      ok := ready && !closed && |m.payload| <= MaxPayload && memory;
      if ok { sendList := sendList + [m]; }
    }

    method SendOne(m: Message, bufs: seq<Buffer>) returns (ret: Code, filled: seq<seq<Byte>>, rest: seq<Buffer>)
      modifies this`sequenceTx
      ensures Sent(ret, filled, sequenceTx, rest) == SendFrom(m, 0, old(sequenceTx), 0, bufs)
    {
      hide SendFrom, After, Wire, Next;
      var pos: nat, total: nat := 0, 0;
      ret, filled, rest := Ok, [], bufs;
      SendDone([], m, sequenceTx, 0, bufs);
      while pos < Size(m)
        invariant pos <= Size(m) && ret == Ok
        invariant SendFrom(m, 0, old(sequenceTx), 0, bufs) == After(filled, SendFrom(m, pos, sequenceTx, total, rest))
        decreases |rest|
      {
        SendStep(filled, m, pos, sequenceTx, total, rest);
        if rest == [] { return Again, filled, rest; }
        var b := rest[0];
        if Get(b) != Ok { return Get(b), filled, Skip(rest); }
        rest := rest[1..];
        sequenceTx := Next(sequenceTx);
        if !b.copyOk { return Fault, filled, rest; }
        if !b.usedOk { return AddUsed, filled, rest; }
        var n := Chunk(m, pos, b);
        filled := filled + [Wire(m, sequenceTx)[pos..pos + n]];
        total, pos := total + b.inLen + b.outLen, pos + n;
        if total >= Weight { return TooHeavy, filled, rest; }
      }
      SendDone(filled, m, sequenceTx, total, rest);
    }

    method RxWorker(bufs: seq<Buffer>) returns (ret: Code, filled: seq<seq<Byte>>, rest: seq<Buffer>)
      modifies this
      ensures Drained(ret, Current(), filled, rest) == Drain(old(Current()), bufs)
    {
      hide SendFrom, Drain, Put;
      ret, filled, rest := Ok, [], bufs;
      DrainStep([], Current(), bufs);
      while sendList != []
        invariant ret == Ok && Drain(old(Current()), bufs) == Put(filled, Drain(Current(), rest))
        decreases |sendList|
      {
        DrainStep(filled, Current(), rest);
        var more;
        ret, more, rest := SendOne(sendList[0], rest);
        filled := filled + more;
        if ret != Ok { return; }
        sendList := sendList[1..];
      }
      DrainStep(filled, Current(), rest);
    }
  }

  // ---------------------------------------------------------------- what the worker guarantees

  /** The guest finds the message in these bytes: its header words, the signature, its number, its payload. */
  predicate Carries(bytes: seq<Byte>, m: Message, number: nat) {
    && |bytes| == 20 + |m.payload| && bytes[..12] == m.head && bytes[20..] == m.payload
    && Value(bytes[12..16]) == 0xBEE1_BEE1 && Value(bytes[16..20]) == number
  }

  lemma WireCarries(m: Message, sequence: nat)
    requires |m.head| == 12 && sequence < 0x1_0000_0000
    ensures Carries(Wire(m, sequence), m, sequence)
  {
    ValueOfWord(0xBEE1_BEE1);
    ValueOfWord(sequence);
    hide Word, Value;
    var w := Wire(m, sequence);
    assert w[..12] == m.head && w[12..16] == Word(0xBEE1_BEE1) && w[16..20] == Word(sequence) && w[20..] == m.payload;
  }

  /** Every message fits each buffer whole, and no buffer reaches the weight limit or fails. */
  predicate Roomy(list: seq<Message>, bufs: seq<Buffer>) {
    && (forall b :: b in bufs ==> b.descOk && b.inNum > 0 && b.copyOk && b.usedOk && b.inLen + b.outLen < 0x8_0000)
    && (forall b, m :: b in bufs && m in list ==> 20 + |m.payload| <= b.inLen)
  }

  /** What the first buffer leads to, fault by fault. */
  lemma CodesExactly(m: Message, sequence: nat, b: Buffer, bufs: seq<Buffer>)
    requires |m.head| == 12
    ensures
      var r, next := SendFrom(m, 0, sequence, 0, [b] + bufs), (sequence + 1) % 0x1_0000_0000;
      && (!b.descOk ==> r == Sent(Io, [], sequence, [b] + bufs))
      && (b.descOk && b.inNum == 0 ==> r == Sent(Busy, [], sequence, bufs))
      && (b.descOk && b.inNum > 0 && b.inLen == 0 ==> r == Sent(Io, [], sequence, bufs))
      && (b.descOk && b.inNum > 0 && b.inLen > 0 && !b.copyOk ==> r == Sent(Fault, [], next, bufs))
      && (b.descOk && b.inNum > 0 && b.inLen > 0 && b.copyOk && !b.usedOk ==> r == Sent(AddUsed, [], next, bufs))
    ensures SendFrom(m, 0, sequence, 0, []) == Sent(Again, [], sequence, [])
  {
    assert ([b] + bufs)[1..] == bufs;
  }

  /** A message goes out whole in one buffer, and is done, exactly if that buffer has room and does not fail. */
  lemma WholeExactly(m: Message, sequence: nat, b: Buffer, bufs: seq<Buffer>)
    requires |m.head| == 12
    ensures
      var r, next := SendFrom(m, 0, sequence, 0, [b] + bufs), (sequence + 1) % 0x1_0000_0000;
      (r.ret == Ok && |r.filled| == 1 && Carries(r.filled[0], m, next) && r.sequence == next && r.rest == bufs)
      <==> b.descOk && b.inNum > 0 && 20 + |m.payload| <= b.inLen && b.copyOk && b.usedOk && b.inLen + b.outLen < 0x8_0000
  {
    var q, s := [b] + bufs, Next(sequence);
    assert q[1..] == bufs && q[0] == b;
    WireCarries(m, s);
    if Get(b) == Ok && b.copyOk && b.usedOk && b.inLen + b.outLen < Weight {
      var r := SendFrom(m, Chunk(m, 0, b), s, b.inLen + b.outLen, bufs);
      if Size(m) <= b.inLen {
        assert Wire(m, s)[0..Size(m)] == Wire(m, s);
      } else {
        assert |([Wire(m, s)[0..b.inLen]] + r.filled)[0]| == b.inLen;
      }
    }
    hide Carries, Wire;
  }

  /** A free-running 32-bit number. */
  function Wrap(x: nat): nat { x % 0x1_0000_0000 }

  /** Buffer `i` carries message `i`, numbered from `from + 1` on. */
  predicate InOrder(filled: seq<seq<Byte>>, list: seq<Message>, from: nat) {
    |filled| <= |list| && forall i :: 0 <= i < |filled| ==> Carries(filled[i], list[i], Wrap(from + i + 1))
  }

  lemma InOrderFirst(bytes: seq<Byte>, filled: seq<seq<Byte>>, list: seq<Message>, from: nat)
    requires list != [] && Carries(bytes, list[0], Wrap(from + 1)) && InOrder(filled, list[1..], from + 1)
    ensures InOrder([bytes] + filled, list, from)
  {
    hide Carries, Wrap;
    forall i | 0 <= i < 1 + |filled| ensures Carries(([bytes] + filled)[i], list[i], Wrap(from + i + 1)) {
      if i > 0 { assert Carries(filled[i - 1], list[1..][i - 1], Wrap(from + 1 + (i - 1) + 1)); }
    }
  }

  lemma InOrderMore(filled: seq<seq<Byte>>, more: seq<seq<Byte>>, all: seq<Message>)
    requires InOrder(filled, all, 0) && InOrder(more, all[|filled|..], |filled|)
    ensures InOrder(filled + more, all, 0)
  {
    hide Carries, Wrap;
    var n := |filled|;
    forall i | 0 <= i < n + |more| ensures Carries((filled + more)[i], all[i], Wrap(0 + i + 1)) {
      if i >= n { assert Carries(more[i - n], all[n..][i - n], Wrap(n + (i - n) + 1)); }
    }
  }

  lemma {:induction false} DrainRoomy(st: State, bufs: seq<Buffer>, from: nat)
    requires Roomy(st.list, bufs) && st.sequence == Wrap(from) && forall m :: m in st.list ==> |m.head| == 12
    ensures
      var n, d := if |st.list| <= |bufs| then |st.list| else |bufs|, Drain(st, bufs);
      && d.ret == (if n == |st.list| then Ok else Again) && d.state.list == st.list[n..] && d.rest == bufs[n..]
      && d.state.sequence == Wrap(from + n) && |d.filled| == n && InOrder(d.filled, st.list, from)
    decreases |st.list|
  {
    hide Carries, SendFrom, InOrder;
    if st.list != [] && bufs != [] {
      var m, rest := st.list[0], State(st.list[1..], Wrap(from + 1));
      assert bufs == [bufs[0]] + bufs[1..] && bufs[0] in bufs && m in st.list;
      WholeExactly(m, st.sequence, bufs[0], bufs[1..]);
      assert Wrap(from + 1) == (st.sequence + 1) % 0x1_0000_0000;
      DrainRoomy(rest, bufs[1..], from + 1);
      hide Roomy, Wrap;
      var d, e := Drain(st, bufs), Drain(rest, bufs[1..]);
      InOrderFirst(d.filled[0], e.filled, st.list, from);
      assert d.filled == [d.filled[0]] + e.filled;
    } else {
      assert InOrder([], st.list, from) by { NothingInOrder(st.list, from); }
      if st.list != [] { CodesEmpty(st.list[0], st.sequence); }
    }
  }

  lemma NothingInOrder(list: seq<Message>, from: nat)
    ensures InOrder([], list, from)
  {
  }

  lemma CodesEmpty(m: Message, sequence: nat)
    requires |m.head| == 12
    ensures SendFrom(m, 0, sequence, 0, []) == Sent(Again, [], sequence, [])
  {
  }

  /** The bytes of all the buffers, one after the other. */
  function Join(filled: seq<seq<Byte>>): seq<Byte> { if filled == [] then [] else filled[0] + Join(filled[1..]) }

  /** These bytes are the message's own from byte `pos` on, leaving out the signature and the number. */
  predicate Follows(m: Message, pos: nat, out: seq<Byte>) {
    && |m.head| == 12 && pos + |out| <= 20 + |m.payload|
    && forall k :: 0 <= k < |out| ==>
         && (pos + k < 12 ==> out[k] == m.head[pos + k])
         && (pos + k >= 20 ==> out[k] == m.payload[pos + k - 20])
  }

  lemma FollowsMore(m: Message, pos: nat, chunk: seq<Byte>, out: seq<Byte>)
    requires Follows(m, pos, chunk) && Follows(m, pos + |chunk|, out)
    ensures Follows(m, pos, chunk + out)
  {
  }

  /**
   However a message is split over buffers: what has gone out from byte `pos` on are the message's own header
   words and payload, in order, and all of them once it is done.
   */
  lemma {:induction false} SplitInOrder(m: Message, pos: nat, sequence: nat, total: nat, bufs: seq<Buffer>)
    requires |m.head| == 12 && pos <= 20 + |m.payload|
    ensures
      var r := SendFrom(m, pos, sequence, total, bufs);
      Follows(m, pos, Join(r.filled)) && (r.ret == Ok ==> pos + |Join(r.filled)| == 20 + |m.payload|)
    decreases |bufs|
  {
    hide Follows, Join;
    var r := SendFrom(m, pos, sequence, total, bufs);
    if r.filled == [] {
      assert Follows(m, pos, Join([])) && Join([]) == [] by { NothingFollows(m, pos); }
    } else {
      var b, n, s := bufs[0], Chunk(m, pos, bufs[0]), Next(sequence);
      var chunk := Wire(m, s)[pos..pos + n];
      WireFollows(m, s, pos, n);
      var more := r.filled[1..];
      assert r.filled[0] == chunk;
      JoinFirst(r.filled);
      if total + b.inLen + b.outLen < Weight {
        SplitInOrder(m, pos + n, s, total + b.inLen + b.outLen, bufs[1..]);
        assert more == SendFrom(m, pos + n, s, total + b.inLen + b.outLen, bufs[1..]).filled;
      } else {
        assert more == [];
        NothingFollows(m, pos + n);
      }
      hide Wire, SendFrom;
      FollowsMore(m, pos, chunk, Join(more));
    }
  }

  lemma NothingFollows(m: Message, pos: nat)
    requires |m.head| == 12 && pos <= 20 + |m.payload|
    ensures Join([]) == [] && Follows(m, pos, [])
  {
  }

  lemma JoinFirst(filled: seq<seq<Byte>>)
    requires filled != []
    ensures Join(filled) == filled[0] + Join(filled[1..])
  {
  }

  lemma WireFollows(m: Message, s: nat, pos: nat, n: nat)
    requires |m.head| == 12 && pos + n <= Size(m)
    ensures Follows(m, pos, Wire(m, s)[pos..pos + n]) && |Wire(m, s)[pos..pos + n]| == n
  {
  }

  // ---------------------------------------------------------------- runs

  datatype Event = Accept(m: Message) | Work(bufs: seq<Buffer>)

  /** The queue, what was accepted, and the buffers the guest received. */
  datatype History = History(st: State, accepted: seq<Message>, delivered: seq<seq<Byte>>)

  function Step(h: History, e: Event): History {
    match e
    case Accept(m) => History(h.st.(list := h.st.list + [m]), h.accepted + [m], h.delivered)
    case Work(bufs) => var d := Drain(h.st, bufs); History(d.state, h.accepted, h.delivered + d.filled)
  }

  function Replay(events: seq<Event>): History {
    if events == [] then History(State([], 0), [], []) else Step(Replay(events[..|events| - 1]), events[|events| - 1])
  }

  /** The hypotheses at every event of a run. */
  predicate Kind(events: seq<Event>) {
    events != [] ==>
      && Kind(events[..|events| - 1])
      && match events[|events| - 1]
         case Accept(m) => |m.head| == 12
         case Work(bufs) => Roomy(Replay(events[..|events| - 1]).st.list, bufs)
  }

  /** The messages that the senders passed, in order. */
  function Passed(events: seq<Event>): seq<Message> {
    if events == [] then []
    else Passed(events[..|events| - 1]) + (if events[|events| - 1].Accept? then [events[|events| - 1].m] else [])
  }

  /**
   Over any run of sends and worker runs, what the guest has received is exactly the messages passed up to some
   point, once each and in order: buffer `i` carries message `i`, its header words, the signature, the number
   `i + 1` and its payload; the rest is still in the list.
   */
  lemma {:induction false} ExactlyOnce(events: seq<Event>)
    requires Kind(events)
    ensures
      var h := Replay(events); var n := |h.delivered|;
      && h.accepted == Passed(events) && n <= |h.accepted| && h.st.list == h.accepted[n..]
      && (forall i :: 0 <= i < n ==> Carries(h.delivered[i], h.accepted[i], (i + 1) % 0x1_0000_0000))
      && h.st.sequence == n % 0x1_0000_0000
  {
    OnceInOrder(events);
    hide Carries;
    var h := Replay(events);
    forall i | 0 <= i < |h.delivered| ensures Carries(h.delivered[i], h.accepted[i], (i + 1) % 0x1_0000_0000) {
      assert Carries(h.delivered[i], h.accepted[i], Wrap(0 + i + 1));
    }
  }

  ghost predicate Once(h: History) {
    var n := |h.delivered|;
    && InOrder(h.delivered, h.accepted, 0) && h.st.list == h.accepted[n..] && h.st.sequence == Wrap(n)
    && forall m :: m in h.accepted ==> |m.head| == 12
  }

  lemma {:induction false} OnceInOrder(events: seq<Event>)
    requires Kind(events)
    ensures Replay(events).accepted == Passed(events) && Once(Replay(events))
    decreases |events|
  {
    if events != [] {
      hide Drain, Roomy, Carries, Wrap, Once;
      var before, e := Replay(events[..|events| - 1]), events[|events| - 1];
      OnceInOrder(events[..|events| - 1]);
      if e.Accept? { AcceptOnce(before, e.m); } else { WorkOnce(before, e.bufs); }
    }
  }

  lemma AcceptOnce(before: History, m: Message)
    requires Once(before) && |m.head| == 12
    ensures Once(Step(before, Accept(m))) && Step(before, Accept(m)).accepted == before.accepted + [m]
  {
    hide Carries, Wrap;
    var n, h := |before.delivered|, Step(before, Accept(m));
    assert h.accepted[n..] == before.accepted[n..] + [m];
  }

  lemma WorkOnce(before: History, bufs: seq<Buffer>)
    requires Once(before) && Roomy(before.st.list, bufs)
    ensures Once(Step(before, Work(bufs))) && Step(before, Work(bufs)).accepted == before.accepted
  {
    var list, all, n := before.st.list, before.accepted, |before.delivered|;
    hide Drain, Roomy, Carries, Wrap, InOrder;
    assert n <= |all| by { InOrderLength(before.delivered, all); }
    assert forall m :: m in list ==> m in all;
    DrainRoomy(before.st, bufs, n);
    var d := Drain(before.st, bufs);
    Split(all, n, |d.filled|);
    InOrderMore(before.delivered, d.filled, all);
  }

  lemma InOrderLength(filled: seq<seq<Byte>>, list: seq<Message>)
    requires InOrder(filled, list, 0)
    ensures |filled| <= |list|
  {
  }

  lemma Split(all: seq<Message>, n: nat, k: nat)
    requires n <= |all| && k <= |all| - n
    ensures all[..n + k] == all[..n] + all[n..][..k] && all[n + k..] == all[n..][k..]
  {
  }

  /** With no buffer available a run of the worker changes neither the list nor the counter. */
  lemma UnderrunChangesNothing(st: State)
    requires forall m :: m in st.list ==> |m.head| == 12
    ensures Drain(st, []) == Drained(if st.list == [] then Ok else Again, st, [], [])
  {
  }

  /** Without room for a whole message this fails: a part is delivered and numbered, and the message kept to be sent again. */
  lemma SplitThenUnderrun()
    ensures
      var m, b := Message([0, 0, 0, 0, 0, 0, 0, 0, 0, 0, 0, 0], [7]), Buffer(true, 1, 20, 0, true, true);
      var d := Drain(State([m], 0), [b]);
      d.state == State([m], 1) && d.filled == [m.head + [0xE1, 0xBE, 0xE1, 0xBE, 1, 0, 0, 0]]
  {
    var m, b := Message([0, 0, 0, 0, 0, 0, 0, 0, 0, 0, 0, 0], [7]), Buffer(true, 1, 20, 0, true, true);
    assert SendFrom(m, 20, 1, 20, []) == Sent(Again, [], 1, []);
    assert [b][1..] == [];
    assert Wire(m, 1)[0..20] == m.head + [0xE1, 0xBE, 0xE1, 0xBE, 1, 0, 0, 0];
  }
}
