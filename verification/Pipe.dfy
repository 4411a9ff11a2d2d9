/** One direction of the shared-memory pipe, used by one writer and one reader in turn. */
module Pipe {
  import opened Common
  import opened PipeCells

  import H = Header

  const HEADER_BYTES := 20
  const MAX_RETRY := 1000

  /** The comparison with HAB_HEAD_SIGNATURE, byte by byte. */
  predicate Signed(header: seq<Byte>)
    requires |header| >= 16
  {
    header[12] == 0xE1 && header[13] == 0xBE && header[14] == 0xE1 && header[15] == 0xBE
  }

  /** It asks for one value of the word at offset 12. */
  lemma SignedExactly(header: seq<Byte>)
    requires |header| >= 16
    ensures Signed(header) <==> Value(header[12..16]) == 0xBEE1_BEE1
  {
    var b := header[12..16];
    WordOfValue(b);
    assert Word(0xBEE1_BEE1) == [0xE1, 0xBE, 0xE1, 0xBE];
    assert Value([0xE1, 0xBE, 0xE1, 0xBE]) == 0xBEE1_BEE1;
    assert Signed(header) <==> b == [0xE1, 0xBE, 0xE1, 0xBE];
    hide Word, Value;
  }

  /** What the reader makes of a stream: how far it has read and whether it lost track. */
  datatype Reader = Reader(consumed: nat, mismatch: bool)

  datatype Outcome = Got(bytes: seq<Byte>) | Lost(code: U32)

  /** A header read when at least a header's worth of bytes is committed. */
  function HeaderStep(stream: seq<Byte>, r: Reader): (Reader, Outcome)
    requires r.consumed + HEADER_BYTES <= |stream|
  {
    var head := stream[r.consumed..r.consumed + HEADER_BYTES];
    if Signed(head) then (Reader(r.consumed + HEADER_BYTES, false), Got(head))
    else (Reader(r.consumed + 1, true), Lost(if r.mismatch then 0xFFFF_FFFE else 0xFFFF_FFFF))
  }

  predicate SignedAt(stream: seq<Byte>, i: nat) {
    i + 20 <= |stream| && Value(stream[i + 12..i + 16]) == 0xBEE1_BEE1
  }

  lemma SignedHere(stream: seq<Byte>, i: nat)
    requires i + 20 <= |stream|
    ensures Signed(stream[i..i + 20]) <==> SignedAt(stream, i)
  {
    var b := stream[i..i + 20];
    SignedExactly(b);
    assert b[12..16] == [b[12], b[13], b[14], b[15]] == stream[i + 12..i + 16];
    hide Value, Signed;
  }

  /**
   A header in the stream, whatever its five words: it is returned whole if its signature is 0xBEE1BEE1,
   and loses one byte otherwise.
   */
  lemma HeaderFound(stream: seq<Byte>, at: nat, mismatch: bool, h: H.Fields)
    requires H.Fits(h) && at + 20 <= |stream| && stream[at..at + 20] == H.Packed(h)
    ensures
      HeaderStep(stream, Reader(at, mismatch)) ==
        if h.signature == 0xBEE1_BEE1 then (Reader(at + 20, false), Got(H.Packed(h)))
        else (Reader(at + 1, true), Lost(if mismatch then 0xFFFF_FFFE else 0xFFFF_FFFF))
  {
    var b := stream[at..at + 20];
    SignedExactly(b);
    H.PackedRoundTrip(h, b);
    hide H.Packed, Signed, Value;
  }

  /** The read that follows `n` unsuccessful header reads. */
  function HeaderReads(stream: seq<Byte>, r: Reader, n: nat): (Reader, Outcome)
    requires r.consumed + HEADER_BYTES + n <= |stream|
    requires forall m :: r.consumed <= m < r.consumed + n ==> !SignedAt(stream, m)
    decreases n
  {
    assert n > 0 ==> !SignedAt(stream, r.consumed);
    SignedHere(stream, r.consumed);
    if n == 0 then HeaderStep(stream, r) else HeaderReads(stream, HeaderStep(stream, r).0, n - 1)
  }

  /** Resync: with no signature at the next `k` offsets, each of `k` header reads skips one byte,
      and the read after them returns the header at offset `k` if that one is signed. */
  lemma {:induction false} Resync(stream: seq<Byte>, r: Reader, k: nat)
    requires r.consumed + k + HEADER_BYTES <= |stream|
    requires forall m :: r.consumed <= m < r.consumed + k ==> !SignedAt(stream, m)
    ensures HeaderReads(stream, r, k) == HeaderStep(stream, Reader(r.consumed + k, r.mismatch || k > 0))
    ensures SignedAt(stream, r.consumed + k) ==>
              var at := r.consumed + k;
              HeaderReads(stream, r, k) == (Reader(at + HEADER_BYTES, false), Got(stream[at..at + HEADER_BYTES]))
    decreases k
  {
    SignedHere(stream, r.consumed);
    if k > 0 {
      assert !SignedAt(stream, r.consumed);
      Resync(stream, HeaderStep(stream, r).0, k - 1);
    }
  }

  /** `signature_mismatch` of `hab_pipe_read`: one variable for every pipe of the machine. */
  class Signature {
    var mismatch: bool

    constructor ()
      ensures !mismatch
    {
      mismatch := false;
    }
  }

  class Ring {
    const sig: Signature
    // the shared buffer
    const data: array<Byte>
    var rdCount: U32
    var wrCount: U32
    // the writer's endpoint
    var txCount: U32
    var txIndex: nat
    // the reader's endpoint
    var rxIndex: nat
    // every byte accepted by a write; how many of them are committed and consumed
    ghost var stream: seq<Byte>
    ghost var committed: nat
    ghost var consumed: nat

    ghost predicate Valid()
      reads this, data
    {
      && 0 < data.Length < WORDS
      && consumed <= committed <= |stream| <= consumed + data.Length
      && txCount == Count(|stream|) && wrCount == Count(committed) && rdCount == Count(consumed)
      && rxIndex < data.Length && txIndex == Cell(data.Length, rxIndex, |stream| - consumed)
      && Holds(data[..], rxIndex, stream[consumed..])
    }

    /** Both ends initialised over `size` bytes. */
    constructor (size: nat, sig: Signature)
      requires 0 < size < WORDS
      ensures Valid() && fresh(data) && data.Length == size && this.sig == sig
      ensures stream == [] && committed == 0 && consumed == 0
    {
      this.sig := sig;
      data := new Byte[size](_ => 0);
      rdCount, wrCount, txCount, txIndex, rxIndex := 0, 0, 0, 0, 0;
      stream, committed, consumed := [], 0, 0;
    }

    /** The two `memcpy` calls of a write; no counter moves yet. */
    method Store(p: array<Byte>, num: nat, count1: nat)
      requires Valid() && p != data && 0 < num <= p.Length && num <= data.Length - (|stream| - consumed)
      requires count1 == Least(num, data.Length - txIndex)
      modifies data
      ensures Holds(data[..], rxIndex, stream[consumed..] + p[..num])
    {
      hide Count, Holds, Cell;
      ghost var before := data[..];
      CellsExist(before, rxIndex, stream[consumed..]);
      Copy(data, txIndex, p, 0, count1);
      ghost var middle := data[..];
      if num > count1 {
        Copy(data, 0, p, count1, num - count1);
      }
      Stored(before, middle, data[..], rxIndex, stream[consumed..], p[..num], txIndex, count1);
    }

    method Write(p: array?<Byte>, num: nat) returns (n: nat)
      requires Valid() && num < WORDS && (p != null ==> p != data && num <= p.Length)
      modifies this`txCount, this`txIndex, this`stream, data
      ensures Valid()
      ensures n == if p == null || num > data.Length - (old(|stream|) - consumed) then 0 else num
      ensures stream == old(stream) + if n == 0 then [] else p[..n]
    {
      hide Count, Add32, Sub32, Holds, Cell;
      CountDistance(|stream|, consumed);
      n := 0;
      if data.Length < Sub32(txCount, rdCount)
        || p == null || num > data.Length - Sub32(txCount, rdCount) || num == 0
        || data.Length < txIndex || data.Length < num
      {
        return;
      }
      CellIs(data.Length, rxIndex, |stream| - consumed);
      var count1 := if num <= data.Length - txIndex then num else data.Length - txIndex;
      Store(p, num, count1);
      CountAdvance(|stream|, num);
      CellIs(data.Length, txIndex, num);
      CellAdvance(data.Length, rxIndex, |stream| - consumed, num);
      assert (stream + p[..num])[consumed..] == stream[consumed..] + p[..num];
      stream := stream + p[..num];
      txCount := Add32(txCount, num);
      txIndex := if txIndex + num < data.Length then txIndex + num else txIndex + num - data.Length;
      n := num;
    }

    /** Publishes every byte written so far. */
    method Commit()
      requires Valid()
      modifies this`wrCount, this`committed
      ensures Valid() && committed == |stream|
    {
      wrCount := txCount;
      committed := |stream|;
    }

    /** The two `memcpy` calls of a read; the endpoint is not advanced. */
    method Fetch(p: array<Byte>, n: nat, count1: nat)
      requires Valid() && p != data && n <= p.Length && n <= committed - consumed
      requires count1 == Least(n, data.Length - rxIndex)
      modifies p
      ensures p[..n] == stream[consumed..consumed + n] && p[n..] == old(p[n..])
    {
      hide Count, Holds, Cell;
      Copy(p, 0, data, rxIndex, count1);
      if n > count1 {
        Copy(p, count1, data, 0, n - count1);
      }
      Fetched(data[..], rxIndex, stream[consumed..], n, count1);
      assert stream[consumed..][..n] == stream[consumed..consumed + n];
      assert p[..n] == p[..count1] + p[count1..n];
    }

    /** The signature check: the same bytes are copied again until the retries run out,
        or once only when the reader has already lost track. */
    method Check(p: array<Byte>, n: nat, count1: nat) returns (bad: bool, retries: nat)
      requires Valid() && p != data && n <= p.Length && n <= committed - consumed && p.Length >= HEADER_BYTES
      requires count1 == Least(n, data.Length - rxIndex) && p[..n] == stream[consumed..consumed + n]
      modifies p
      ensures p[..] == old(p[..]) && bad == !Signed(p[..HEADER_BYTES])
      ensures bad ==> retries == if sig.mismatch then 1 else 1002
    {
      retries := 0;
      bad := false;
      while !bad && !Signed(p[..HEADER_BYTES])
        invariant p[..] == old(p[..])
        invariant bad ==> !Signed(p[..HEADER_BYTES]) && retries == if sig.mismatch then 1 else MAX_RETRY + 2
        invariant !bad ==> retries <= MAX_RETRY + 1 && (sig.mismatch ==> retries == 0)
        decreases !bad, MAX_RETRY + 2 - retries
      {
        retries := retries + 1;
        if retries - 1 <= MAX_RETRY {
          Fetch(p, n, count1);
          assert p[..] == p[..n] + p[n..];
          if sig.mismatch {
            bad := true;
          }
        } else {
          bad := true;
        }
      }
    }

    /** The last step of a read: `n` bytes are consumed. */
    method Drop(n: nat)
      requires Valid() && n <= committed - consumed
      modifies this`rxIndex, this`rdCount, this`consumed
      ensures Valid() && consumed == old(consumed) + n
    {
      hide Count, Add32, Holds, Cell;
      CellIs(data.Length, rxIndex, n);
      CellAdvance(data.Length, rxIndex, n, |stream| - consumed - n);
      CountAdvance(consumed, n);
      Dropped(data[..], rxIndex, stream[consumed..], n);
      assert stream[consumed..][n..] == stream[consumed + n..];
      rxIndex := if rxIndex + n < data.Length then rxIndex + n else rxIndex + n - data.Length;
      rdCount := Add32(rdCount, n);
      consumed := consumed + n;
    }

    /** A read of `want` bytes into `p`; with `clear` and the size of a header it checks the signature. */
    method Read(p: array?<Byte>, want: nat, clear: bool) returns (r: U32)
      requires Valid() && want < WORDS && (p != null ==> p != data && want <= p.Length)
      modifies this`rxIndex, this`rdCount, this`consumed, sig, p
      ensures Valid()
      ensures p == null || want == 0 || committed == old(consumed) ==>
                r == 0 && consumed == old(consumed) && sig.mismatch == old(sig.mismatch) && (p != null ==> p[..] == old(p[..]))
      ensures p != null && want > 0 && committed > old(consumed) ==>
                var k := Least(committed - old(consumed), want);
                var header := clear && want == HEADER_BYTES;
                && p[..k] == stream[old(consumed)..old(consumed) + k]
                && p[k..] == old(p[k..])
                && sig.mismatch == (if header then Value(p[12..16]) != 0xBEE1_BEE1 else old(sig.mismatch))
                && consumed == old(consumed) + (if sig.mismatch then 1 else k)
                && r as int == if !sig.mismatch then k else if header && !old(sig.mismatch) then 0xFFFF_FFFF else 0xFFFF_FFFE
      ensures p != null && clear && want == HEADER_BYTES && committed >= old(consumed) + HEADER_BYTES ==>
                var (next, outcome) := HeaderStep(stream, Reader(old(consumed), old(sig.mismatch)));
                && next == Reader(consumed, sig.mismatch)
                && outcome == if sig.mismatch then Lost(r) else Got(p[..HEADER_BYTES])
    {
      hide Count, Sub32, Holds, Signed, Cell, Value;
      CountDistance(committed, consumed);
      var avail := Sub32(wrCount, rdCount);
      if p == null || avail == 0 || want == 0 || rxIndex > data.Length {
        return 0;
      }
      var toRead := if avail < want then avail else want;
      var count1 := if toRead <= data.Length - rxIndex then toRead else data.Length - rxIndex;
      var retries := 0;
      Fetch(p, toRead, count1);
      if clear && want == HEADER_BYTES {
        ghost var fetched := p[..];
        var bad;
        bad, retries := Check(p, toRead, count1);
        assert p[..toRead] == fetched[..toRead] && p[toRead..] == fetched[toRead..];
        SignedExactly(p[..HEADER_BYTES]);
        assert p[..HEADER_BYTES][12..16] == p[12..16];
        sig.mismatch := bad;
      }
      if sig.mismatch {
        Drop(1);
        r := if retries < MAX_RETRY then 0xFFFF_FFFE else 0xFFFF_FFFF;
      } else {
        Drop(toRead);
        r := toRead as U32;
      }
    }
  }

  /**
   The flag is shared: after a header read on one pipe has found no signature, a payload read on another
   one consumes one byte of it, whatever that pipe holds.
   */
  method Interference(a: Ring, p: array<Byte>, b: Ring, q: array<Byte>, want: nat) returns (r: U32)
    requires a != b && a.sig == b.sig && a.Valid() && b.Valid() && a.data != b.data && p != q
    requires p != a.data && p != b.data && q != a.data && q != b.data
    requires p.Length >= HEADER_BYTES && 0 < want <= q.Length && want < WORDS
    requires a.committed >= a.consumed + HEADER_BYTES && !SignedAt(a.stream, a.consumed) && b.committed > b.consumed
    modifies a`rxIndex, a`rdCount, a`consumed, b`rxIndex, b`rdCount, b`consumed, a.sig, p, q
    ensures a.Valid() && b.Valid() && b.consumed == old(b.consumed) + 1 && r == 0xFFFF_FFFE
    ensures q[..Least(b.committed - old(b.consumed), want)]
         == b.stream[old(b.consumed)..old(b.consumed) + Least(b.committed - old(b.consumed), want)]
  {
    var _ := a.Read(p, HEADER_BYTES, true);
    r := b.Read(q, want, false);
  }

  function Least(a: int, b: int): int { if a < b then a else b }

  /** `memcpy` between two buffers. */
  method Copy(dst: array<Byte>, at: nat, src: array<Byte>, from: nat, n: nat)
    requires dst != src && at + n <= dst.Length && from + n <= src.Length
    modifies dst
    ensures dst[..] == old(dst[..at]) + src[from..from + n] + old(dst[at + n..])
  {
    var i := 0;
    while i < n
      invariant 0 <= i <= n
      invariant dst[..at + i] == old(dst[..at]) + src[from..from + i]
      invariant dst[at + i..] == old(dst[at + i..])
    {
      dst[at + i] := src[from + i];
      i := i + 1;
    }
  }

  lemma CellIs(size: nat, index: nat, offset: nat)
    requires index < size && offset <= size
    ensures Cell(size, index, offset) == if index + offset < size then index + offset else index + offset - size
  {
  }

  lemma CellsExist(cells: seq<Byte>, index: nat, bytes: seq<Byte>)
    requires Holds(cells, index, bytes)
    ensures index < |cells| && |bytes| <= |cells|
  {
  }

  lemma Stored(before: seq<Byte>, middle: seq<Byte>, after: seq<Byte>, index: nat, held: seq<Byte>, more: seq<Byte>, at: nat, count1: nat)
    requires Holds(before, index, held) && |held| + |more| <= |before|
    requires at == Cell(|before|, index, |held|) && count1 == Least(|more|, |before| - at)
    requires middle == before[..at] + more[..count1] + before[at + count1..]
    requires after == if |more| > count1 then more[count1..] + middle[|more| - count1..] else middle
    ensures Holds(after, index, held + more)
  {
  }

  /** A copy from cell `index` that wraps after `count1` bytes reads what the ring holds. */
  lemma Fetched(cells: seq<Byte>, index: nat, held: seq<Byte>, n: nat, count1: nat)
    requires Holds(cells, index, held) && n <= |held| && count1 == Least(n, |cells| - index)
    ensures cells[index..index + count1] + cells[..n - count1] == held[..n]
  {
  }

  lemma Dropped(cells: seq<Byte>, index: nat, held: seq<Byte>, n: nat)
    requires Holds(cells, index, held) && n <= |held|
    ensures Holds(cells, Cell(|cells|, index, n), held[n..])
  {
  }
}
