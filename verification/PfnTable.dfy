/**
 The run-length table of page frame numbers that an exporter builds and an
 importer expands.  A page is identified with its frame number.  `unsigned long`
 is 64 bits wide and `int` 32; signed overflow wraps, as the kernel is compiled.
 */
module PfnTable {
  const TWO31: int := 0x8000_0000
  const TWO32: int := 0x1_0000_0000
  const TWO63: int := 0x8000_0000_0000_0000
  const TWO64: int := 0x1_0000_0000_0000_0000

  newtype Pfn = x: int | 0 <= x < 0x1_0000_0000_0000_0000

  /** Conversion to `unsigned long`. */
  function Wrap64(x: int): (r: Pfn)
    ensures 0 <= x < TWO64 ==> r as int == x
  {
    (x % 0x1_0000_0000_0000_0000) as Pfn
  }

  /** Conversion to `int`. */
  function Wrap32(x: int): (r: int)
    ensures -TWO31 <= r < TWO31
    ensures -TWO31 <= x < TWO31 ==> r == x
  {
    (x + 0x8000_0000) % 0x1_0000_0000 - 0x8000_0000
  }

  /** An `unsigned long` difference read as a signed distance. */
  function Signed64(x: int): int { (x + TWO63) % 0x1_0000_0000_0000_0000 - TWO63 }

  /** `unsigned long` arithmetic on frame numbers. */
  function Add(p: Pfn, n: int): Pfn { Wrap64(p as int + n) }

  function Gap(q: Pfn, last: Pfn): int { Wrap64(q as int - last as int - 1) as int }

  /** The distance from `p` to `q` survives being stored in an `int`. */
  predicate Reachable(p: Pfn, q: Pfn) { -TWO31 <= Signed64(q as int - p as int) < TWO31 }

  /** A region of the table: `size` frames, then `space` frames that are skipped. */
  datatype Region = Region(size: int, space: int)

  /** `n` consecutive frames from `p`. */
  function Run(p: Pfn, n: nat): (r: seq<Pfn>)
    ensures |r| == n
  {
    if n == 0 then [] else Run(p, n - 1) + [Add(p, n - 1)]
  }

  /** Where the region after `r` starts, when `r` starts at `p`. */
  function Next(p: Pfn, r: Region): Pfn { Add(p, Wrap32(r.size + r.space)) }

  /** The pages a table denotes. */
  function Pages(p: Pfn, rs: seq<Region>): seq<Pfn>
    requires Positive(rs)
    decreases |rs|
  {
    if rs == [] then [] else Run(p, rs[0].size) + Pages(Next(p, rs[0]), rs[1..])
  }

  function Total(rs: seq<Region>): int {
    if rs == [] then 0 else rs[0].size + Total(rs[1..])
  }

  /** What the importer insists on before it uses a table, checked region by region. */
  predicate Expandable(rs: seq<Region>, count: int) {
    && Positive(rs)
    && Total(rs) == count
  }

  lemma {:induction false} TotalAtLeast(rs: seq<Region>)
    requires Positive(rs)
    ensures Total(rs) >= |rs|
  {
    if rs != [] {
      TotalAtLeast(rs[1..]);
    }
  }

  /** Stores one region; everything around it stays. */
  method StoreRun(pages: array<Pfn>, k: nat, p: Pfn, n: nat)
    requires k + n <= pages.Length
    modifies pages
    ensures pages[..k + n] == old(pages[..k]) + Run(p, n)
  {
    var j := 0;
    while j < n
      invariant 0 <= j <= n
      invariant pages[..k + j] == old(pages[..k]) + Run(p, j)
    {
      pages[k + j] := Add(p, j);
      assert pages[..k + j + 1] == pages[..k + j] + [Add(p, j)];
      j := j + 1;
    }
  }

  predicate Positive(rs: seq<Region>) { forall i :: 0 <= i < |rs| ==> rs[i].size > 0 }

  /** What one round of the loop adds. */
  lemma PagesStep(done: seq<Pfn>, p: Pfn, rs: seq<Region>, i: nat)
    requires i < |rs| && Positive(rs)
    ensures done + Pages(p, rs[i..]) == done + Run(p, rs[i].size) + Pages(Next(p, rs[i]), rs[i + 1..])
  {
  }

  lemma TotalStep(rs: seq<Region>, i: nat)
    requires i < |rs|
    ensures Total(rs[i..]) == rs[i].size + Total(rs[i + 1..])
  {
  }

  /** The importer's expansion.  `pages` holds exactly `payload_count` slots, so every
      store is also a proof that nothing is written past them. */
  method Expand(first: Pfn, rs: seq<Region>, pages: array<Pfn>) returns (ok: bool)
    modifies pages
    ensures ok <==> Expandable(rs, pages.Length)
    ensures ok ==> pages[..] == Pages(first, rs)
  {
    hide Next, Total, Pages, Run;
    var pfn := first;
    var i, k := 0, 0;
    assert rs[0..] == rs && (Positive(rs) ==> pages[..0] + Pages(first, rs) == Pages(first, rs));
    while i < |rs|
      invariant 0 <= i <= |rs| && 0 <= k <= pages.Length
      invariant forall m :: 0 <= m < i ==> rs[m].size > 0
      invariant k + Total(rs[i..]) == Total(rs)
      invariant Positive(rs) ==> pages[..k] + Pages(pfn, rs[i..]) == Pages(first, rs)
    {
      TotalStep(rs, i);
      if rs[i].size <= 0 {
        return false;
      }
      if k + rs[i].size > pages.Length {
        if Positive(rs) {
          TotalAtLeast(rs[i + 1..]);
        }
        return false;
      }
      if Positive(rs) {
        PagesStep(pages[..k], pfn, rs, i);
      }
      StoreRun(pages, k, pfn, rs[i].size);
      k := k + rs[i].size;
      pfn := Next(pfn, rs[i]);
      i := i + 1;
    }
    EmptyTable(pfn, rs[i..]);
    assert pages[..k] + [] == pages[..k];
    ok := k == pages.Length;
  }

  lemma EmptyTable(p: Pfn, rs: seq<Region>)
    requires rs == []
    ensures Total(rs) == 0 && Pages(p, rs) == []
  {
  }

  // ---------------------------------------------------------------- what a table is built from

  /** A stretch of consecutive frames: a run of pages, or a page-aligned scatterlist entry. */
  datatype Entry = Entry(pfn: Pfn, pages: nat)

  /** The pages of a list of entries, in order. */
  function Flat(es: seq<Entry>): seq<Pfn> {
    if es == [] then [] else Run(es[0].pfn, es[0].pages) + Flat(es[1..])
  }

  /** Region `k` of the table of `es`.  Its gap is measured from `skew` frames before the
      end of the entry when `k` is the first one. */
  function RegionOf(es: seq<Entry>, skew: nat, k: nat): Region
    requires k < |es|
  {
    var last := Add(es[k].pfn, es[k].pages - 1 - if k == 0 then skew else 0);
    Region(es[k].pages, if k + 1 < |es| then Wrap32(Gap(es[k + 1].pfn, last)) else 0)
  }

  /** `pre` is the frame from which the gap after entry `k` is measured. */
  predicate GapBase(es: seq<Entry>, skew: nat, k: nat, pre: Pfn) {
    k < |es| && pre == Add(es[k].pfn, es[k].pages - 1 - if k == 0 then skew else 0)
  }

  lemma BaseOfEntry(es: seq<Entry>, skew: nat, k: nat, p: Pfn, offset: nat)
    requires k < |es| && es[k].pfn == Add(p, offset) && offset == if k == 0 then skew else 0
    ensures GapBase(es, skew, k, Add(p, es[k].pages - 1))
  {
  }

  lemma BaseOfRun(es: seq<Entry>, k: nat, last: Pfn)
    requires k < |es| && last == Add(es[k].pfn, es[k].pages - 1)
    ensures GapBase(es, 0, k, last)
  {
  }

  /** A region once the entry after it is known, and the last region. */
  lemma RegionIs(es: seq<Entry>, skew: nat, k: nat, pre: Pfn)
    requires k < |es|
    ensures k + 1 < |es| && GapBase(es, skew, k, pre)
            ==> RegionOf(es, skew, k) == Region(es[k].pages, Wrap32(Gap(es[k + 1].pfn, pre)))
    ensures k + 1 == |es| ==> RegionOf(es, skew, k) == Region(es[k].pages, 0)
  {
  }

  predicate IsTable(rs: seq<Region>, es: seq<Entry>, skew: nat) {
    |rs| == |es| && forall k :: 0 <= k < |rs| ==> rs[k] == RegionOf(es, skew, k)
  }

  predicate NonEmpty(es: seq<Entry>) { forall k :: 0 <= k < |es| ==> es[k].pages > 0 }

  /** Consecutive entries are within reach of an `int`. */
  predicate InReach(es: seq<Entry>) {
    |es| > 1 ==> Reachable(es[0].pfn, es[1].pfn) && InReach(es[1..])
  }

  lemma {:induction false} TableTotal(rs: seq<Region>, es: seq<Entry>, skew: nat)
    requires IsTable(rs, es, skew) && NonEmpty(es)
    ensures Expandable(rs, |Flat(es)|) && |rs| <= |Flat(es)|
    decreases |es|
  {
    if rs != [] {
      TableTotal(TailTable(es, skew), es[1..], 0);
      TotalCongruent(rs[1..], TailTable(es, skew));
    }
  }

  /** The table of all entries but the first. */
  function TailTable(es: seq<Entry>, skew: nat): (rs: seq<Region>)
    requires es != []
    ensures IsTable(rs, es[1..], 0)
  {
    seq(|es| - 1, k requires 0 <= k < |es| - 1 => RegionOf(es[1..], 0, k))
  }

  lemma {:induction false} TotalCongruent(rs: seq<Region>, ts: seq<Region>)
    requires |rs| == |ts| && forall k :: 0 <= k < |rs| ==> rs[k].size == ts[k].size
    ensures Total(rs) == Total(ts)
  {
    if rs != [] {
      TotalCongruent(rs[1..], ts[1..]);
    }
  }

  /** The importer gets the exporter's pages back exactly when nothing is skewed and all gaps fit. */
  lemma {:induction false} RoundTrip(rs: seq<Region>, es: seq<Entry>, skew: nat)
    requires es != [] && IsTable(rs, es, skew) && NonEmpty(es) && skew <= MAX_ENTRY_PAGES
    ensures Pages(es[0].pfn, rs) == Flat(es) <==> ((skew == 0 || |es| == 1) && InReach(es))
    decreases |es|
  {
    hide Add, Gap, Wrap64, Wrap32;
    var p, q := es[0].pfn, Next(es[0].pfn, rs[0]);
    if |es| == 1 {
      assert Pages(p, rs) == Run(p, es[0].pages) + [];
    } else {
      assert rs[1..] == TailTable(es, skew);
      RoundTrip(rs[1..], es[1..], 0);
      FirstPage(q, rs[1..]);
      FirstFlat(es[1..]);
      SamePrefix(Run(p, es[0].pages), Pages(q, rs[1..]), Flat(es[1..]));
      assert Pages(p, rs) == Flat(es) <==> Pages(q, rs[1..]) == Flat(es[1..]);
      if skew == 0 {
        SpaceReaches(p, es[1].pfn, es[0].pages);
      } else {
        SkewNeverLinks(p, es[1].pfn, skew, es[0].pages);
      }
    }
  }

  lemma FirstPage(p: Pfn, rs: seq<Region>)
    requires rs != [] && Positive(rs)
    ensures Pages(p, rs) != [] && Pages(p, rs)[0] == p
  {
    RunAt(p, rs[0].size, 0);
  }

  lemma FirstFlat(es: seq<Entry>)
    requires es != [] && es[0].pages > 0
    ensures Flat(es) != [] && Flat(es)[0] == es[0].pfn
  {
    RunAt(es[0].pfn, es[0].pages, 0);
  }

  lemma {:induction false} RunAt(p: Pfn, n: nat, i: nat)
    requires i < n
    ensures Run(p, n)[i] == Add(p, i)
  {
    if i < n - 1 {
      RunAt(p, n - 1, i);
    }
  }

  lemma SamePrefix<T>(a: seq<T>, b: seq<T>, c: seq<T>)
    ensures a + b == a + c <==> b == c
  {
    assert b == (a + b)[|a|..] && c == (a + c)[|a|..];
  }

  // ---------------------------------------------------------------- machine arithmetic

  lemma SameLowBits(e: int, d: int, t: int)
    requires e == d + t * TWO32 && -TWO31 <= e < TWO31
    ensures e == d <==> -TWO31 <= d < TWO31
  {
  }

  lemma SameWord(p: Pfn, q: Pfn, e: int, d: int, b: int)
    requires q as int == p as int + d + b * TWO64 && -TWO31 <= e < TWO31 && -TWO63 <= d < TWO63
    ensures Add(p, e) == q <==> e == d
  {
  }

  /** The gap to `q`, up to whole words, measured from `back` frames after `p`. */
  lemma GapWords(p: Pfn, q: Pfn, back: int) returns (z: int)
    ensures Gap(q, Add(p, back)) == q as int - p as int - back - 1 + z * TWO64
  {
    var last := Add(p, back);
    var a1, a2 := (p as int + back) / 0x1_0000_0000_0000_0000, (q as int - last as int - 1) / 0x1_0000_0000_0000_0000;
    assert last as int == p as int + back - a1 * TWO64;
    assert Gap(q, last) == q as int - last as int - 1 - a2 * TWO64;
    z := a1 - a2;
  }

  /** The wrapped sum of the two fields, given the true gap. */
  lemma SumWords(size: int, gap: int) returns (z: int)
    ensures Wrap32(size + Wrap32(gap)) == size + gap + z * TWO32
  {
    var space := Wrap32(gap);
    var a3, m := (gap + TWO31) / 0x1_0000_0000, (size + space + TWO31) / 0x1_0000_0000;
    assert space == gap - a3 * TWO32 && Wrap32(size + space) == size + space - m * TWO32;
    z := -a3 - m;
  }

  /** The `int` fields lose nothing exactly when the two region starts are in reach. */
  lemma {:induction false} SpaceReaches(p: Pfn, q: Pfn, size: int)
    ensures Next(p, Region(size, Wrap32(Gap(q, Add(p, size - 1))))) == q <==> Reachable(p, q)
  {
    var gap := Gap(q, Add(p, size - 1));
    var z1 := GapWords(p, q, size - 1);
    var z2 := SumWords(size, gap);
    var b := (q as int - p as int + TWO63) / 0x1_0000_0000_0000_0000;
    var d, e := Signed64(q as int - p as int), Wrap32(size + Wrap32(gap));
    assert d == q as int - p as int - b * TWO64;
    SameLowBits(e, d, (z1 + b) * TWO32 + z2);
    SameWord(p, q, e, d, b);
  }

  /** A skipped part of the first entry displaces every later region. */
  lemma SkewNeverLinks(p: Pfn, q: Pfn, skew: nat, size: int)
    requires 0 < skew <= MAX_ENTRY_PAGES
    ensures Next(p, Region(size, Wrap32(Gap(q, Add(p, size - 1 - skew))))) != q
  {
    var gap := Gap(q, Add(p, size - 1 - skew));
    var z1 := GapWords(p, q, size - 1 - skew);
    var z2 := SumWords(size, gap);
    var e := Wrap32(size + Wrap32(gap));
    var c := (p as int + e) / 0x1_0000_0000_0000_0000;
    assert Add(p, e) as int == p as int + e - c * TWO64;
    MultipleTooSmall(skew, (c - z1) * TWO32 - z2);
  }

  lemma MultipleTooSmall(skew: nat, t: int)
    requires 0 < skew <= MAX_ENTRY_PAGES
    ensures skew != t * TWO32
  {
  }

  lemma AddZero(p: Pfn)
    ensures Add(p, 0) == p
  {
  }

  lemma AddAdd(p: Pfn, a: int, b: int)
    ensures Add(Add(p, a), b) == Add(p, a + b)
  {
  }

  // ---------------------------------------------------------------- the page-array branch

  /** The length of the run that `pages` starts with. */
  function HeadRun(pages: seq<Pfn>): (n: nat)
    ensures n <= |pages| && (pages != [] ==> n > 0)
  {
    if pages == [] then 0
    else if |pages| > 1 && Add(pages[1], -1) == pages[0] then 1 + HeadRun(pages[1..])
    else 1
  }

  /** `pages` cut into maximal runs. */
  function Runs(pages: seq<Pfn>): (es: seq<Entry>)
    ensures NonEmpty(es) && (pages != [] ==> es != [] && es[0].pfn == pages[0])
  {
    if pages == [] then [] else [Entry(pages[0], HeadRun(pages))] + Runs(pages[HeadRun(pages)..])
  }

  lemma {:induction false} HeadRunIsRun(pages: seq<Pfn>, n: nat)
    requires n <= HeadRun(pages)
    ensures pages[..n] == if n == 0 then [] else Run(pages[0], n)
  {
    if n > 0 {
      HeadRunIsRun(pages, n - 1);
      if n > 1 {
        HeadRunAt(pages, n - 1);
        assert pages[n - 1] == Add(pages[0], n - 1);
      } else {
        assert Run(pages[0], 1) == [] + [Add(pages[0], 0)];
      }
      assert pages[..n] == pages[..n - 1] + [pages[n - 1]];
    }
  }

  lemma {:induction false} HeadRunAt(pages: seq<Pfn>, i: nat)
    requires i < HeadRun(pages)
    ensures pages[i] == Add(pages[0], i)
  {
    hide Add;
    if i == 0 {
      AddZero(pages[0]);
    } else {
      HeadRunAt(pages[1..], i - 1);
      AddAdd(pages[1], -1, 1);
      AddZero(pages[1]);
      AddAdd(pages[0], 1, i - 1);
    }
  }

  lemma {:induction false} RunsFlat(pages: seq<Pfn>)
    ensures Flat(Runs(pages)) == pages
    decreases |pages|
  {
    hide Add, Run, HeadRun;
    if pages != [] {
      var n := HeadRun(pages);
      HeadRunIsRun(pages, n);
      RunsFlat(pages[n..]);
      FlatCons(Entry(pages[0], n), Runs(pages[n..]));
    }
  }

  lemma FlatCons(e: Entry, es: seq<Entry>)
    ensures Flat([e] + es) == Run(e.pfn, e.pages) + Flat(es)
  {
  }

  /** What the loop compares at page `i`. */
  lemma HeadRunStep(pages: seq<Pfn>, i: nat)
    requires i < |pages|
    ensures HeadRun(pages[i..]) ==
            if i + 1 < |pages| && Add(pages[i + 1], -1) == pages[i] then 1 + HeadRun(pages[i + 1..]) else 1
  {
  }

  /** The run that starts at `start` is known to end at `i`. */
  lemma RunEnds(es: seq<Entry>, j: nat, pages: seq<Pfn>, start: nat, i: nat)
    requires start < i <= |pages| && HeadRun(pages[start..]) == i - start
    requires j <= |es| && es[j..] == Runs(pages[start..])
    ensures j < |es| && es[j] == Entry(pages[start], i - start) && es[j + 1..] == Runs(pages[i..])
    ensures if i == |pages| then |es| == j + 1 else j + 1 < |es| && es[j + 1].pfn == pages[i]
  {
  }

  method CompressPages(pages: array<Pfn>, region: array<Region>) returns (first: Pfn, nregions: nat)
    requires 0 < pages.Length == region.Length < TWO31
    modifies region
    ensures first == pages[0] && 0 < nregions <= pages.Length
    ensures IsTable(region[..nregions], Runs(pages[..]), 0)
  {
    hide Add, Gap, Wrap64, Wrap32, HeadRun, Runs, RegionOf, GapBase;
    var j, i, size := 0, 1, 1;
    first := pages[0];
    ghost var ps, es := pages[..], Runs(pages[..]);
    AddZero(ps[0]);
    assert ps[0..] == ps && es[0..] == es;
    while i < pages.Length
      invariant 0 <= j < i <= pages.Length && 0 < size <= i && j <= |es|
      invariant es[j..] == Runs(ps[i - size..])
      invariant HeadRun(ps[i - size..]) == size - 1 + HeadRun(ps[i - 1..])
      invariant ps[i - 1] == Add(ps[i - size], size - 1)
      invariant forall k :: 0 <= k < j ==> region[k] == RegionOf(es, 0, k)
    {
      HeadRunStep(ps, i - 1);
      AddZero(ps[i]);
      if Add(pages[i], -1) == pages[i - 1] {
        size := size + 1;
        AddAdd(ps[i], -1, 1);
        AddAdd(ps[i + 1 - size], size - 2, 1);
      } else {
        RunEnds(es, j, ps, i - size, i);
        BaseOfRun(es, j, ps[i - 1]);
        RegionIs(es, 0, j, ps[i - 1]);
        region[j] := Region(size, Wrap32(Gap(pages[i], pages[i - 1])));
        j := j + 1;
        size := 1;
      }
      i := i + 1;
    }
    HeadRunStep(ps, i - 1);
    RunEnds(es, j, ps, i - size, i);
    RegionIs(es, 0, j, ps[i - 1]);
    region[j] := Region(size, 0);
    nregions := j + 1;
  }

  /** Page-array round trip: the importer accepts the table with the right page count whatever
      the gaps are, and gets the exporter's list back exactly when the gaps fit. */
  lemma {:induction false} PageArrayRoundTrip(pages: seq<Pfn>, rs: seq<Region>)
    requires pages != [] && IsTable(rs, Runs(pages), 0)
    ensures |rs| <= |pages| && Expandable(rs, |pages|)
    ensures Pages(pages[0], rs) == pages <==> InReach(Runs(pages))
  {
    RunsFlat(pages);
    TableTotal(rs, Runs(pages), 0);
    RoundTrip(rs, Runs(pages), 0);
  }

  /** A gap that fits an `int` is not enough: two isolated pages whose gap is the largest
      `int` come back with the second page displaced. */
  lemma {:induction false} LargestGapIsLost()
    ensures var pages: seq<Pfn> := [0, 0x8000_0000]; var rs := [Region(1, TWO31 - 1), Region(1, 0)];
            IsTable(rs, Runs(pages), 0) && Pages(pages[0], rs) != pages
  {
    var pages: seq<Pfn> := [0, 0x8000_0000];
    var rs := [Region(1, TWO31 - 1), Region(1, 0)];
    assert pages[1..] == [0x8000_0000];
    assert Runs(pages[1..]) == [Entry(0x8000_0000, 1)] + Runs([]);
    assert Runs(pages) == [Entry(0, 1), Entry(0x8000_0000, 1)];
    assert !Reachable(Runs(pages)[0].pfn, Runs(pages)[1].pfn);
    PageArrayRoundTrip(pages, rs);
  }

  // ---------------------------------------------------------------- the scatterlist branch

  /** An entry's length in bytes is an `unsigned int`. */
  const MAX_ENTRY_PAGES := 0xF_FFFF

  /** The frames before page `offset` inside the entry that holds it. */
  function Residual(sg: seq<Entry>, offset: nat): nat {
    if sg == [] then 0
    else if offset >= sg[0].pages then Residual(sg[1..], offset - sg[0].pages)
    else offset
  }

  /** The part of every entry that `count` pages from page `offset` fall on. */
  function Exported(sg: seq<Entry>, offset: nat, count: nat): (es: seq<Entry>)
    ensures NonEmpty(es)
    decreases |sg|
  {
    if sg == [] || count == 0 then []
    else if offset >= sg[0].pages then Exported(sg[1..], offset - sg[0].pages, count)
    else
      var n := Part(sg[0].pages - offset, count);
      [Entry(Add(sg[0].pfn, offset), n)] + Exported(sg[1..], 0, count - n)
  }

  /** The part of one entry, of `have` frames, that is exported. */
  function Part(have: nat, count: nat): nat { if have >= count then count else have }

  /** What the loop does at entry `i`, when the entries before it were worth `j` regions. */
  lemma ExportStep(es: seq<Entry>, j: nat, sg: seq<Entry>, i: nat, offset: nat, count: nat)
    requires i < |sg| && count > 0 && j <= |es| && es[j..] == Exported(sg[i..], offset, count)
    ensures |Flat(sg[i..])| == sg[i].pages + |Flat(sg[i + 1..])|
    ensures offset >= sg[i].pages ==>
              && es[j..] == Exported(sg[i + 1..], offset - sg[i].pages, count)
              && Residual(sg[i..], offset) == Residual(sg[i + 1..], offset - sg[i].pages)
    ensures offset < sg[i].pages ==>
              var n := Part(sg[i].pages - offset, count);
              && j < |es| && es[j] == Entry(Add(sg[i].pfn, offset), n)
              && es[j + 1..] == Exported(sg[i + 1..], 0, count - n)
              && (n == count ==> |es| == j + 1)
              && Residual(sg[i..], offset) == offset
  {
  }

  lemma {:induction false} ExportedFlat(sg: seq<Entry>, offset: nat, count: nat)
    requires offset + count <= |Flat(sg)|
    ensures Flat(Exported(sg, offset, count)) == Flat(sg)[offset..offset + count]
    decreases |sg|
  {
    hide Add, Run;
    if sg != [] && count > 0 {
      var run, rest := Run(sg[0].pfn, sg[0].pages), Flat(sg[1..]);
      if offset >= sg[0].pages {
        ExportedFlat(sg[1..], offset - sg[0].pages, count);
      } else {
        var n := Part(sg[0].pages - offset, count);
        ExportedFlat(sg[1..], 0, count - n);
        RunPart(sg[0].pfn, sg[0].pages, offset, n);
        SlicePart(run, rest, offset, n, count);
        FlatCons(Entry(Add(sg[0].pfn, offset), n), Exported(sg[1..], 0, count - n));
      }
    }
  }

  /** A slice that may go beyond the first of two sequences. */
  lemma SlicePart(run: seq<Pfn>, rest: seq<Pfn>, offset: nat, n: nat, count: nat)
    requires offset + n <= |run| && n <= count && count - n <= |rest| && (n == count || offset + n == |run|)
    ensures (run + rest)[offset..offset + count] == run[offset..offset + n] + rest[..count - n]
  {
  }

  lemma {:induction false} RunPart(p: Pfn, n: nat, skip: nat, m: nat)
    requires skip + m <= n
    ensures Run(p, n)[skip..skip + m] == Run(Add(p, skip), m)
  {
    if m > 0 {
      RunPart(p, n, skip, m - 1);
      RunAt(p, n, skip + m - 1);
      AddAdd(p, skip, m - 1);
      assert Run(p, n)[skip..skip + m] == Run(p, n)[skip..skip + m - 1] + [Run(p, n)[skip + m - 1]];
    }
  }

  method CompressScatter(sg: seq<Entry>, offset: nat, count: int, region: array<Region>)
    returns (first: Pfn, nregions: nat)
    requires 0 < count == region.Length < TWO31
    requires forall i :: 0 <= i < region.Length ==> region[i] == Region(0, 0)
    modifies region
    ensures 0 < nregions <= count
    ensures offset + count > |Flat(sg)| ==> region[nregions - 1].size == 0
    ensures offset + count <= |Flat(sg)| ==>
              && IsTable(region[..nregions], Exported(sg, offset, count), Residual(sg, offset))
              && first == Exported(sg, offset, count)[0].pfn
  {
    hide Add, Gap, Wrap64, Wrap32, Exported, Residual, Flat, RegionOf, GapBase;
    ghost var skew, es := Residual(sg, offset), Exported(sg, offset, count);
    var pageOffset, pageCount, i, j := offset, count, 0, 0;
    var pre: Pfn := 0;
    first := 0;
    assert sg[0..] == sg && es[0..] == es;
    while i < |sg|
      invariant 0 <= i <= |sg| && 0 <= j <= |es| && 0 < pageCount <= count - j && 0 <= pageOffset
      invariant es[j..] == Exported(sg[i..], pageOffset, pageCount)
      invariant offset + count - |Flat(sg)| == pageOffset + pageCount - |Flat(sg[i..])|
      invariant if j == 0 then skew == Residual(sg[i..], pageOffset) else pageOffset == 0 && first == es[0].pfn
      invariant j > 0 ==> region[j - 1].size == es[j - 1].pages && GapBase(es, skew, j - 1, pre)
      invariant forall k :: 0 <= k < j - 1 ==> region[k] == RegionOf(es, skew, k)
      invariant forall k :: j <= k < count ==> region[k] == Region(0, 0)
    {
      ExportStep(es, j, sg, i, pageOffset, pageCount);
      var spage := sg[i].pages;
      if pageOffset >= spage {
        pageOffset := pageOffset - spage;
        i := i + 1;
        continue;
      }
      var size := spage - pageOffset;
      if j == 0 {
        first := Add(sg[i].pfn, pageOffset);
      } else {
        AddZero(sg[i].pfn);
        RegionIs(es, skew, j - 1, pre);
        region[j - 1] := region[j - 1].(space := Wrap32(Gap(sg[i].pfn, pre)));
      }
      region[j] := region[j].(size := size);
      if size >= pageCount {
        region[j] := Region(pageCount, 0);
        RegionIs(es, skew, j, pre);
        nregions := j + 1;
        return;
      }
      pre := Add(sg[i].pfn, size - 1);
      BaseOfEntry(es, skew, j, sg[i].pfn, pageOffset);
      pageCount := pageCount - size;
      pageOffset := 0;
      j := j + 1;
      i := i + 1;
    }
    NothingLeft(sg[i..]);
    nregions := j + 1;
  }

  lemma NothingLeft(sg: seq<Entry>)
    requires sg == []
    ensures |Flat(sg)| == 0
  {
  }

  /** Scatterlist round trip, exactly: the pages come back iff the export starts on an entry
      boundary or stays inside one entry, and consecutive entries are within reach of an `int`. */
  lemma {:induction false} ScatterRoundTrip(sg: seq<Entry>, offset: nat, count: nat, rs: seq<Region>)
    requires 0 < count && offset + count <= |Flat(sg)|
    requires forall i :: 0 <= i < |sg| ==> sg[i].pages <= MAX_ENTRY_PAGES
    requires IsTable(rs, Exported(sg, offset, count), Residual(sg, offset))
    ensures |rs| <= count && Expandable(rs, count)
    ensures var es := Exported(sg, offset, count);
            && es != []
            && (Pages(es[0].pfn, rs) == Flat(sg)[offset..offset + count]
                <==> ((Residual(sg, offset) == 0 || |es| == 1) && InReach(es)))
  {
    var es := Exported(sg, offset, count);
    ExportedFlat(sg, offset, count);
    ResidualBound(sg, offset);
    TableTotal(rs, es, Residual(sg, offset));
    assert es != [];
    RoundTrip(rs, es, Residual(sg, offset));
  }

  lemma {:induction false} ResidualBound(sg: seq<Entry>, offset: nat)
    requires forall i :: 0 <= i < |sg| ==> sg[i].pages <= MAX_ENTRY_PAGES
    ensures Residual(sg, offset) <= MAX_ENTRY_PAGES
    decreases |sg|
  {
    if sg != [] && offset >= sg[0].pages {
      ResidualBound(sg[1..], offset - sg[0].pages);
    }
  }
}
