/**
 Received messages: in one piece, or, when that much contiguous memory is not to be had, scattered
 over pages.  Allocation, reading from the channel, copying out and freeing.
 */
module ScatterMessage {
  import opened Common

  /** PAGE_SIZE and HAB_HEADER_SIZE_MAX */
  const PageSize: nat := 4096
  const HeaderSizeMax: nat := 0x7_D000

  /** `struct hab_message`: the data itself, or the page buffers it is in. */
  datatype Message = Whole(data: seq<Byte>) | Scatter(sizebytes: nat, bufs: seq<nat>)

  function PageCount(size: nat): nat { size / 4096 + (if size % 4096 == 0 then 0 else 1) }

  /** The length of page `i` of a message. */
  function PageLen(size: nat, i: nat): nat { if i < size / 4096 then 4096 else size % 4096 }

  /** What a page buffer holds after a read into it that may have come up short. */
  function Padded(bytes: seq<Byte>, n: nat): seq<Byte> { if |bytes| < n then bytes + seq(n - |bytes|, _ => 0) else bytes[..n] }

  function Zeros(n: nat): seq<Byte> { seq(n, _ => 0) }

  function SumOf(got: seq<seq<Byte>>): nat { if got == [] then 0 else SumOf(got[..|got| - 1]) + |got[|got| - 1]| }

  /** One read per page, none longer than its page. */
  predicate ReadsFor(size: nat, got: seq<seq<Byte>>) {
    |got| == PageCount(size) && forall i :: 0 <= i < |got| ==> |got[i]| <= PageLen(size, i)
  }

  predicate FullReads(size: nat, got: seq<seq<Byte>>) {
    |got| == PageCount(size) && forall i :: 0 <= i < |got| ==> |got[i]| == PageLen(size, i)
  }

  /** Buffers `base`, `base + 1`, ... with these contents. */
  function Buffers(base: nat, contents: seq<seq<Byte>>): (r: map<nat, seq<Byte>>)
    ensures forall h :: h in r <==> base <= h < base + |contents|
    ensures forall h :: h in r ==> r[h] == contents[h - base]
  {
    if contents == [] then map[]
    else Buffers(base, contents[..|contents| - 1])[base + |contents| - 1 := contents[|contents| - 1]]
  }

  function Handles(base: nat, n: nat): (r: seq<nat>)
    ensures |r| == n && forall i :: 0 <= i < n ==> r[i] == base + i
  {
    seq(n, i requires 0 <= i < n => base + i)
  }

  /** What the pages of a message of this size hold. */
  function Contents(size: nat, got: seq<seq<Byte>>): (r: seq<seq<Byte>>)
    requires ReadsFor(size, got)
    ensures |r| == |got|
  {
    seq(|got|, i requires 0 <= i < |got| => Padded(got[i], PageLen(size, i)))
  }

  /** Handles already used, the kernel's allocator and the pages in use. */
  class Heap {
    var live: map<nat, seq<Byte>>
    var next: nat

    predicate Valid() reads this { forall h :: h in live ==> h < next }

    constructor ()
      ensures Valid() && live == map[]
    {
      live, next := map[], 0;
    }

    method Alloc(n: nat, ok: bool) returns (h: Option<nat>)
      requires Valid()
      modifies this
      ensures Valid()
      ensures ok ==> h == Some(old(next)) && next == old(next) + 1 && live == old(live)[old(next) := Zeros(n)]
      ensures !ok ==> h == None && next == old(next) && live == old(live)
    {
      if ok {
        h, live, next := Some(next), live[next := Zeros(n)], next + 1;
      } else {
        h := None;
      }
    }

    method Free(h: nat)
      requires Valid() && h in live
      modifies this`live
      ensures Valid() && live == old(live) - {h}
    {
      live := live - {h};
    }

    /** The two allocation loops; on failure the pages allocated so far are freed again. */
    method AllocPages(size: nat, oks: seq<bool>) returns (ok: bool, bufs: seq<nat>)
      requires Valid() && |oks| == PageCount(size)
      modifies this
      ensures Valid() && (ok <==> forall i :: 0 <= i < |oks| ==> oks[i])
      ensures ok ==> next == old(next) + |oks| && bufs == Handles(old(next), |oks|)
      ensures ok ==> live == old(live) + Buffers(old(next), Blank(size, |oks|))
      ensures ok ==> forall i :: 0 <= i < |oks| ==> bufs[i] in live && live[bufs[i]] == seq(PageLen(size, i), _ => 0)
      ensures !ok ==> live == old(live)
    {
      hide Zeros, PageLen, Blank, Buffers;
      bufs := [];
      NoBuffers(live, next, size);
      while |bufs| < |oks|
        invariant Valid() && |bufs| <= |oks| && next == old(next) + |bufs| && bufs == Handles(old(next), |bufs|)
        invariant live == old(live) + Buffers(old(next), Blank(size, |bufs|))
        invariant forall j :: 0 <= j < |bufs| ==> oks[j]
      {
        var h := Alloc(PageLen(size, |bufs|), oks[|bufs|]);
        if h == None {
          FreePages(bufs, |bufs|);
          AllGone(old(live), old(next), Blank(size, |bufs|));
          return false, [];
        }
        OneMore(old(live), old(next), size, |bufs|);
        bufs := bufs + [h.value];
      }
      ok := true;
      BlankPages(old(live), old(next), size, |oks|);
    }

    /** The first `n` buffers are freed. */
    method FreePages(bufs: seq<nat>, n: nat)
      requires Valid() && n <= |bufs| && Distinct(bufs) && forall i :: 0 <= i < n ==> bufs[i] in live
      modifies this`live
      ensures Valid() && live == old(live) - set i | 0 <= i < n :: bufs[i]
    {
      var i := 0;
      while i < n
        invariant Valid() && 0 <= i <= n
        invariant live == old(live) - set k | 0 <= k < i :: bufs[k]
      {
        Free(bufs[i]);
        i := i + 1;
      }
    }

    /** The reads from the channel, one per page; the count is what they returned. */
    method ReadPages(size: nat, bufs: seq<nat>, got: seq<seq<Byte>>, ghost base: nat, ghost before: map<nat, seq<Byte>>)
      returns (sizebytes: nat)
      requires Valid() && ReadsFor(size, got) && bufs == Handles(base, |got|) && live == before + Buffers(base, Blank(size, |got|))
      modifies this`live
      ensures Valid() && sizebytes == SumOf(got) && live == before + Buffers(base, Contents(size, got))
    {
      hide Padded, PageLen, Buffers, Blank, Contents, Mixed, SumOf, PageCount;
      var i: nat := 0;
      sizebytes := 0;
      MixedEnds(size, got);
      SumNone(got);
      while i < |bufs|
        invariant Valid() && 0 <= i <= |bufs| && sizebytes == SumOf(got[..i])
        invariant live == before + Buffers(base, Mixed(size, got, i))
      {
        OneRead(before, base, size, got, i);
        live := live[bufs[i] := Padded(got[i], PageLen(size, i))];
        SumMore(got, i);
        sizebytes := sizebytes + |got[i]|;
        i := i + 1;
      }
      assert got[..i] == got;
    }

    /** `hab_scatter_msg_alloc`, given how its allocations and its reads turn out. */
    method ScatterAlloc(size: nat, room: bool, oks: seq<bool>, got: seq<seq<Byte>>) returns (m: Option<Message>)
      requires Valid() && |oks| == PageCount(size) && ReadsFor(size, got)
      modifies this
      ensures Valid() && (m.Some? <==> size > 4096 && room && forall i :: 0 <= i < |oks| ==> oks[i])
      ensures m == None ==> live == old(live)
      ensures m.Some? ==> m.value == Scatter(SumOf(got), Handles(old(next), PageCount(size)))
      ensures m.Some? ==> live == old(live) + Buffers(old(next), Contents(size, got))
    {
      m := None;
      if size <= PageSize || !room { return; }
      var ok, bufs := AllocPages(size, oks);
      if ok {
        var sizebytes := ReadPages(size, bufs, got, old(next), old(live));
        m := Some(Scatter(sizebytes, bufs));
      }
    }

    /** `hab_msg_free`: it frees as many pages as the bytes that were read fill. */
    method MsgFree(m: Message)
      requires Valid()
      requires m.Scatter? ==> PageCount(m.sizebytes) <= |m.bufs| && Distinct(m.bufs) && forall h :: h in m.bufs ==> h in live
      modifies this`live
      ensures Valid()
      ensures live == old(live) - if m.Scatter? then set i | 0 <= i < PageCount(m.sizebytes) :: m.bufs[i] else {}
    {
      if m.Scatter? { FreePages(m.bufs, PageCount(m.sizebytes)); }
    }

    /** `hab_copy_data` to a user buffer that can be written */
    method CopyOut(m: Message) returns (out: seq<Byte>)
      requires m.Scatter? ==> Copyable(live, m)
      ensures out == Copied(live, m)
    {
      if m.Whole? { return m.data; }
      hide PageLen;
      var i := 0;
      out := [];
      assert CopiedPages(live, m, 0) == [];
      while i < m.sizebytes / 4096
        invariant 0 <= i <= m.sizebytes / 4096 && out == CopiedPages(live, m, i)
      {
        out := out + live[m.bufs[i]][..4096];
        i := i + 1;
      }
      if m.sizebytes % 4096 != 0 { out := out + live[m.bufs[i]][..m.sizebytes % 4096]; }
    }
  }

  lemma OneMore(live: map<nat, seq<Byte>>, base: nat, size: nat, n: nat)
    ensures live + Buffers(base, Blank(size, n + 1)) == (live + Buffers(base, Blank(size, n)))[base + n := Zeros(PageLen(size, n))]
  {
  }

  lemma BlankPages(live: map<nat, seq<Byte>>, base: nat, size: nat, n: nat)
    ensures forall i :: 0 <= i < n ==>
      var h := Handles(base, n)[i];
      h in live + Buffers(base, Blank(size, n)) && (live + Buffers(base, Blank(size, n)))[h] == seq(PageLen(size, i), _ => 0)
  {
  }

  lemma NoBuffers(live: map<nat, seq<Byte>>, base: nat, size: nat)
    ensures live + Buffers(base, Blank(size, 0)) == live
  {
  }

  /** Freeing all the buffers of a message leaves what was there before. */
  lemma AllGone(live: map<nat, seq<Byte>>, base: nat, contents: seq<seq<Byte>>)
    requires forall h :: h in live ==> h < base
    ensures (live + Buffers(base, contents)) - (set i | 0 <= i < |contents| :: Handles(base, |contents|)[i]) == live
  {
    var gone := set i | 0 <= i < |contents| :: Handles(base, |contents|)[i];
    forall h | h in Buffers(base, contents) ensures h in gone {
      assert Handles(base, |contents|)[h - base] == h;
    }
  }

  /** The pages when the first `n` have been read into. */
  function Mixed(size: nat, got: seq<seq<Byte>>, n: nat): (r: seq<seq<Byte>>)
    requires ReadsFor(size, got) && n <= |got|
    ensures |r| == |got|
  {
    Contents(size, got)[..n] + Blank(size, |got|)[n..]
  }

  lemma MixedEnds(size: nat, got: seq<seq<Byte>>)
    requires ReadsFor(size, got)
    ensures Mixed(size, got, 0) == Blank(size, |got|) && Mixed(size, got, |got|) == Contents(size, got)
  {
  }

  lemma SumNone(got: seq<seq<Byte>>)
    ensures SumOf(got[..0]) == 0
  {
  }

  lemma SumMore(got: seq<seq<Byte>>, i: nat)
    requires i < |got|
    ensures SumOf(got[..i + 1]) == SumOf(got[..i]) + |got[i]|
  {
    assert got[..i + 1][..i] == got[..i];
  }

  lemma OneRead(before: map<nat, seq<Byte>>, base: nat, size: nat, got: seq<seq<Byte>>, i: nat)
    requires ReadsFor(size, got) && i < |got|
    ensures base + i in Buffers(base, Mixed(size, got, i))
    ensures (before + Buffers(base, Mixed(size, got, i)))[base + i := Padded(got[i], PageLen(size, i))]
      == before + Buffers(base, Mixed(size, got, i + 1))
  {
    hide Padded, PageLen, Buffers;
    var a, b := Mixed(size, got, i), Mixed(size, got, i + 1);
    assert b == a[i := Padded(got[i], PageLen(size, i))];
    hide Mixed;
    assert Buffers(base, a)[base + i := b[i]] == Buffers(base, b);
  }

  function Blank(size: nat, n: nat): (r: seq<seq<Byte>>)
    ensures |r| == n
  {
    seq(n, i requires 0 <= i < n => Zeros(PageLen(size, i)))
  }

  predicate Distinct(bufs: seq<nat>) { forall i, j :: 0 <= i < j < |bufs| ==> bufs[i] != bufs[j] }

  /** The buffers are there and as long as what is copied out of them. */
  predicate Copyable(live: map<nat, seq<Byte>>, m: Message)
    requires m.Scatter?
  {
    && PageCount(m.sizebytes) <= |m.bufs|
    && forall i :: 0 <= i < PageCount(m.sizebytes) ==> m.bufs[i] in live && PageLen(m.sizebytes, i) <= |live[m.bufs[i]]|
  }

  /** The first `n` whole pages, copied out. */
  function CopiedPages(live: map<nat, seq<Byte>>, m: Message, n: nat): seq<Byte>
    requires m.Scatter? && Copyable(live, m) && n <= m.sizebytes / 4096
  {
    if n == 0 then [] else CopiedPages(live, m, n - 1) + live[m.bufs[n - 1]][..4096]
  }

  function Copied(live: map<nat, seq<Byte>>, m: Message): seq<Byte>
    requires m.Scatter? ==> Copyable(live, m)
  {
    if m.Whole? then m.data
    else
      CopiedPages(live, m, m.sizebytes / 4096)
      + (if m.sizebytes % 4096 == 0 then [] else live[m.bufs[m.sizebytes / 4096]][..m.sizebytes % 4096])
  }

  // ---------------------------------------------------------------- what it amounts to

  lemma {:induction false} SumBound(size: nat, got: seq<seq<Byte>>, n: nat)
    requires ReadsFor(size, got) && n <= |got|
    ensures SumOf(got[..n]) <= if n <= size / 4096 then n * 4096 else size
  {
    if n > 0 {
      SumBound(size, got, n - 1);
      assert got[..n][..n - 1] == got[..n - 1];
    }
  }

  /** The bytes of all the reads, one after the other. */
  function Join(got: seq<seq<Byte>>): seq<Byte> { if got == [] then [] else Join(got[..|got| - 1]) + got[|got| - 1] }

  lemma {:induction false} JoinAt(got: seq<seq<Byte>>, i: nat, k: nat)
    requires i < |got| && k < |got[i]|
    ensures |Join(got)| == SumOf(got) && SumOf(got[..i]) + k < SumOf(got) && Join(got)[SumOf(got[..i]) + k] == got[i][k]
  {
    var n := |got| - 1;
    JoinSize(got[..n]);
    if i < n {
      JoinAt(got[..n], i, k);
      assert got[..n][..i] == got[..i];
    }
  }

  lemma {:induction false} JoinSize(got: seq<seq<Byte>>)
    ensures |Join(got)| == SumOf(got)
  {
    if got != [] { JoinSize(got[..|got| - 1]); }
  }

  /** Before the first short read the bytes are where the pages are. */
  lemma {:induction false} FullPrefix(size: nat, got: seq<seq<Byte>>, i: nat)
    requires ReadsFor(size, got) && i < |got| && forall j :: 0 <= j < i ==> |got[j]| == PageLen(size, j)
    ensures SumOf(got[..i]) == i * 4096
  {
    if i > 0 {
      FullPrefix(size, got, i - 1);
      SumMore(got, i - 1);
    }
  }

  /** Nothing is read after a read that comes up short. */
  predicate Packed(size: nat, got: seq<seq<Byte>>) {
    forall i, j :: 0 <= i < j < |got| && |got[i]| < PageLen(size, i) ==> got[j] == []
  }

  /** What is copied out at offset `i * 4096 + k` is what page `i` holds at `k`. */
  lemma {:induction false} CopiedPagesAt(live: map<nat, seq<Byte>>, m: Message, n: nat, i: nat, k: nat)
    requires m.Scatter? && Copyable(live, m) && n <= m.sizebytes / 4096 && i < n && k < 4096
    ensures |CopiedPages(live, m, n)| == n * 4096 && CopiedPages(live, m, n)[i * 4096 + k] == live[m.bufs[i]][k]
  {
    CopiedPagesSize(live, m, n - 1);
    if i < n - 1 { CopiedPagesAt(live, m, n - 1, i, k); }
  }

  lemma {:induction false} CopiedPagesSize(live: map<nat, seq<Byte>>, m: Message, n: nat)
    requires m.Scatter? && Copyable(live, m) && n <= m.sizebytes / 4096
    ensures |CopiedPages(live, m, n)| == n * 4096
  {
    if n > 0 { CopiedPagesSize(live, m, n - 1); }
  }

  lemma CopiedAt(live: map<nat, seq<Byte>>, m: Message, i: nat, k: nat)
    requires m.Scatter? && Copyable(live, m) && k < 4096 && i * 4096 + k < m.sizebytes
    ensures i < |m.bufs| && m.bufs[i] in live && k < |live[m.bufs[i]]|
    ensures |Copied(live, m)| == m.sizebytes && Copied(live, m)[i * 4096 + k] == live[m.bufs[i]][k]
  {
    CopiedSize(live, m);
    var n := m.sizebytes / 4096;
    assert i <= n && i < PageCount(m.sizebytes) && k < PageLen(m.sizebytes, i);
    CopiedPagesSize(live, m, n);
    if i < n { CopiedPagesAt(live, m, n, i, k); }
  }

  lemma CopiedSize(live: map<nat, seq<Byte>>, m: Message)
    requires m.Scatter? && Copyable(live, m)
    ensures |Copied(live, m)| == m.sizebytes
  {
    CopiedPagesSize(live, m, m.sizebytes / 4096);
  }

  /** A message with these reads, in buffers `base`, `base + 1`, ... */
  predicate Received(live: map<nat, seq<Byte>>, base: nat, size: nat, got: seq<seq<Byte>>, m: Message) {
    && ReadsFor(size, got) && m == Scatter(SumOf(got), Handles(base, |got|))
    && forall i :: 0 <= i < |got| ==> base + i in live && live[base + i] == Padded(got[i], PageLen(size, i))
  }

  lemma BuffersReceived(live: map<nat, seq<Byte>>, base: nat, size: nat, got: seq<seq<Byte>>)
    requires ReadsFor(size, got)
    ensures Received(live + Buffers(base, Contents(size, got)), base, size, got, Scatter(SumOf(got), Handles(base, |got|)))
  {
    hide Padded, PageLen;
  }

  lemma PagesGrow(a: nat, b: nat, i: nat)
    requires a <= b && i < PageCount(a)
    ensures i < PageCount(b) && PageLen(a, i) <= PageLen(b, i)
  {
    assert a / 4096 <= b / 4096;
  }

  lemma ReceivedCopyable(live: map<nat, seq<Byte>>, base: nat, size: nat, got: seq<seq<Byte>>, m: Message)
    requires Received(live, base, size, got, m)
    ensures Copyable(live, m) && m.sizebytes <= size
  {
    SumBound(size, got, |got|);
    assert got[..|got|] == got;
    if PageCount(m.sizebytes) > 0 { PagesGrow(m.sizebytes, size, PageCount(m.sizebytes) - 1); }
    forall i | 0 <= i < PageCount(m.sizebytes) ensures m.bufs[i] in live && PageLen(m.sizebytes, i) <= |live[m.bufs[i]]| {
      PagesGrow(m.sizebytes, size, i);
      PageAt(live, base, size, got, m, i);
    }
    hide PageLen, PageCount, SumOf, Handles, Padded;
  }

  lemma PageAt(live: map<nat, seq<Byte>>, base: nat, size: nat, got: seq<seq<Byte>>, m: Message, i: nat)
    requires Received(live, base, size, got, m) && i < |got|
    ensures m.bufs[i] in live && live[m.bufs[i]] == Padded(got[i], PageLen(size, i)) && |live[m.bufs[i]]| == PageLen(size, i)
  {
    assert |got[i]| <= PageLen(size, i);
    assert m.bufs[i] == base + i;
  }

  /** The byte at offset `k` of read `i`, all reads before it being full. */
  lemma CopiedByte(live: map<nat, seq<Byte>>, base: nat, size: nat, got: seq<seq<Byte>>, m: Message, i: nat, k: nat)
    requires Received(live, base, size, got, m) && i < |got| && k < PageLen(size, i) && i * 4096 + k < SumOf(got)
    ensures Copyable(live, m) && |Copied(live, m)| == SumOf(got)
    ensures Copied(live, m)[i * 4096 + k] == if k < |got[i]| then got[i][k] else 0
  {
    ReceivedCopyable(live, base, size, got, m);
    PageAt(live, base, size, got, m, i);
    assert PageLen(size, i) <= 4096;
    CopiedAt(live, m, i, k);
    hide Copied, Copyable, Handles, SumOf, PageLen, PageCount;
  }

  /** Scatter refinement: reads that fill the pages in turn come out as the bytes the whole form would have. */
  lemma {:induction false} CopiesAlike(live: map<nat, seq<Byte>>, base: nat, size: nat, got: seq<seq<Byte>>, m: Message)
    requires Received(live, base, size, got, m) && Packed(size, got)
    ensures Copyable(live, m) && Copied(live, m) == Copied(live, Whole(Join(got)))
  {
    hide Copied, Copyable, Join, Packed, CopiedPages;
    ReceivedCopyable(live, base, size, got, m);
    CopiedSize(live, m);
    JoinSize(got);
    forall p | 0 <= p < SumOf(got) ensures Copied(live, m)[p] == Join(got)[p] {
      SameByte(live, base, size, got, m, p);
    }
    WholeCopied(live, Join(got));
    hide Received, SumOf;
  }

  lemma SameByte(live: map<nat, seq<Byte>>, base: nat, size: nat, got: seq<seq<Byte>>, m: Message, p: nat)
    requires Received(live, base, size, got, m) && Packed(size, got) && p < SumOf(got)
    ensures Copyable(live, m) && |Copied(live, m)| == SumOf(got) == |Join(got)| && Copied(live, m)[p] == Join(got)[p]
  {
    hide Copied, Copyable, Join, CopiedPages, SumOf;
    AtPage(size, got, p);
    var i, k := p / 4096, p % 4096;
    assert p == i * 4096 + k;
    CopiedByte(live, base, size, got, m, i, k);
    FullPrefix(size, got, i);
    JoinAt(got, i, k);
    hide Received, Packed;
  }

  /** If nothing is read after a short read, the byte at offset `p` was read into page `p / 4096`. */
  lemma {:induction false} AtPage(size: nat, got: seq<seq<Byte>>, p: nat)
    requires ReadsFor(size, got) && Packed(size, got) && p < SumOf(got)
    ensures p / 4096 < |got| && p % 4096 < |got[p / 4096]| && forall j :: 0 <= j < p / 4096 ==> |got[j]| == PageLen(size, j)
  {
    var k := FirstShort(size, got, |got|);
    SumAfter(size, got, k, |got|);
    assert got[..|got|] == got;
  }

  /** The first read before `n` that comes up short, or `n`. */
  function FirstShort(size: nat, got: seq<seq<Byte>>, n: nat): (k: nat)
    requires ReadsFor(size, got) && n <= |got|
    ensures k <= n && (k < n ==> |got[k]| < PageLen(size, k)) && forall j :: 0 <= j < k ==> |got[j]| == PageLen(size, j)
  {
    if n == 0 then 0
    else
      var k := FirstShort(size, got, n - 1);
      if k < n - 1 || |got[k]| < PageLen(size, k) then k else n
  }

  /** The reads add up to the full pages and the one short read. */
  lemma {:induction false} SumAfter(size: nat, got: seq<seq<Byte>>, k: nat, n: nat)
    requires ReadsFor(size, got) && Packed(size, got) && k == FirstShort(size, got, |got|) && k <= n <= |got|
    ensures SumOf(got[..n]) == (if k == |got| then size else if n == k then k * 4096 else k * 4096 + |got[k]|)
  {
    if n > k {
      SumAfter(size, got, k, n - 1);
      SumMore(got, n - 1);
    } else if k < |got| {
      FullPrefix(size, got, k);
    } else {
      FullSum(size, got);
    }
  }

  lemma FullSum(size: nat, got: seq<seq<Byte>>)
    requires FullReads(size, got)
    ensures SumOf(got[..|got|]) == size
  {
    if got == [] {
    } else {
      FullPrefix(size, got, |got| - 1);
      SumMore(got, |got| - 1);
    }
  }

  /** Which reads come out right, whatever bytes they bring: those with nothing after a short one. */
  lemma {:induction false} CopiesExactly(live: map<nat, seq<Byte>>, base: nat, size: nat, got: seq<seq<Byte>>, m: Message)
    requires Received(live, base, size, got, m) && forall i, k :: 0 <= i < |got| && 0 <= k < |got[i]| ==> got[i][k] != 0
    ensures Copyable(live, m) && (Copied(live, m) == Join(got) <==> Packed(size, got))
  {
    ReceivedCopyable(live, base, size, got, m);
    if Packed(size, got) {
      CopiesAlike(live, base, size, got, m);
    } else {
      var i, j :| 0 <= i < j < |got| && |got[i]| < PageLen(size, i) && got[j] != [];
      Displaced(live, base, size, got, m, j);
    }
  }

  /** A byte read after a short read is copied out too far back: where it should be there is a zero. */
  lemma Displaced(live: map<nat, seq<Byte>>, base: nat, size: nat, got: seq<seq<Byte>>, m: Message, j: nat)
    requires Received(live, base, size, got, m) && forall i, k :: 0 <= i < |got| && 0 <= k < |got[i]| ==> got[i][k] != 0
    requires j < |got| && got[j] != [] && exists i :: 0 <= i < j && |got[i]| < PageLen(size, i)
    ensures Copyable(live, m) && Copied(live, m) != Join(got)
  {
    var i := FirstShort(size, got, j);
    var p := i * 4096 + |got[i]|;
    FullPrefix(size, got, i);
    SumMore(got, i);
    JoinNonzero(got);
    SumGrows(got, i + 1, j);
    JoinAt(got, j, 0);
    CopiedByte(live, base, size, got, m, i, |got[i]|);
    assert Join(got)[p] != 0;
  }

  lemma {:induction false} JoinNonzero(got: seq<seq<Byte>>)
    requires forall i, k :: 0 <= i < |got| && 0 <= k < |got[i]| ==> got[i][k] != 0
    ensures |Join(got)| == SumOf(got) && forall p :: 0 <= p < |Join(got)| ==> Join(got)[p] != 0
  {
    if got != [] { JoinNonzero(got[..|got| - 1]); }
  }

  lemma {:induction false} SumGrows(got: seq<seq<Byte>>, i: nat, j: nat)
    requires i <= j <= |got|
    ensures SumOf(got[..i]) <= SumOf(got[..j])
    decreases j
  {
    if i < j {
      SumGrows(got, i, j - 1);
      SumMore(got, j - 1);
    }
  }

  /**
   `hab_msg_alloc`: the whole form if it can be had, else the scattered one; `read` and `got` are what the
   one read and the reads per page return.
   */
  method MsgAlloc(heap: Heap, size: nat, whole: bool, read: seq<Byte>, room: bool, oks: seq<bool>, got: seq<seq<Byte>>)
    returns (m: Option<Message>)
    requires heap.Valid() && |oks| == PageCount(size) && |read| <= size && ReadsFor(size, got)
    modifies heap
    ensures heap.Valid()
    ensures m.Some? <==> size <= 0x7_D000 && (whole || (size > 4096 && room && forall i :: 0 <= i < |oks| ==> oks[i]))
    ensures m == None ==> heap.live == old(heap.live)
    ensures m.Some? && whole ==> m.value.Whole? && Copied(heap.live, m.value) == read
    ensures m.Some? && !whole ==> m.value.Scatter? && Copyable(heap.live, m.value) && |Copied(heap.live, m.value)| == SumOf(got)
    ensures m.Some? && !whole && Packed(size, got) ==> Copied(heap.live, m.value) == Join(got)
    ensures m.Some? ==> forall h :: h in old(heap.live) ==> h in heap.live && heap.live[h] == old(heap.live)[h]
  {
    hide Copied, Copyable, Contents, PageCount, Handles, Join, SumOf, Packed, Received;
    m := None;
    if size > HeaderSizeMax { return; }
    if whole {
      m := Some(Whole(read));
      WholeCopied(heap.live, read);
    } else {
      m := heap.ScatterAlloc(size, room, oks, got);
      if m.Some? {
        BuffersReceived(old(heap.live), old(heap.next), size, got);
        ReceivedCopyable(heap.live, old(heap.next), size, got, m.value);
        CopiedSize(heap.live, m.value);
        if Packed(size, got) {
          CopiesAlike(heap.live, old(heap.next), size, got, m.value);
          WholeCopied(heap.live, Join(got));
        }
      }
    }
  }

  lemma WholeCopied(live: map<nat, seq<Byte>>, data: seq<Byte>)
    ensures Copied(live, Whole(data)) == data
  {
  }

  /**
   Freeing a scattered message gives back exactly the pages it was allocated, whatever the reads
   returned, if and only if the bytes read fill as many pages as the size announced.
   */
  lemma FreesAllExactly(live: map<nat, seq<Byte>>, base: nat, size: nat, got: seq<seq<Byte>>)
    requires ReadsFor(size, got) && forall h :: h in live ==> h < base
    ensures PageCount(SumOf(got)) <= PageCount(size)
    ensures var bufs := Handles(base, PageCount(size));
      (live + Buffers(base, Contents(size, got))) - (set i | 0 <= i < PageCount(SumOf(got)) :: bufs[i]) == live
      <==> PageCount(SumOf(got)) == PageCount(size)
  {
    var bufs, n, k := Handles(base, PageCount(size)), PageCount(size), PageCount(SumOf(got));
    SumBound(size, got, |got|);
    assert got[..|got|] == got;
    assert k <= n;
    var left := (live + Buffers(base, Contents(size, got))) - (set i | 0 <= i < k :: bufs[i]);
    if k == n {
      AllGone(live, base, Contents(size, got));
    } else {
      assert base + (n - 1) in Buffers(base, Contents(size, got));
      assert base + (n - 1) in left && base + (n - 1) !in live;
    }
  }
}
