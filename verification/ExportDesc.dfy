/** An export descriptor on its way: what the exporter sends, the receive-side checks, the expansion. */
module ExportDesc {
  import opened PfnTable

  /** Sizes of the packed descriptor, of the table header and of one region on a 64-bit build. */
  const DescSize := 89
  const TableSize := 16
  const RegionSize := 8

  /** HAB_HEADER_SIZE_MAX and MAX_EXP_PAYLOAD_COUNT */
  const HeaderSizeMax := 0x7_D000
  const MaxPayloadCount := 0xF_FFFF

  /**
   A received message: the size its header gives, the numbers in it, and the whole regions its
   bytes hold.  Nothing in it can be trusted.
   */
  datatype Message = Message(sizebytes: nat, payloadCount: int, first: Pfn, nregions: int, words: seq<Region>)

  predicate WellFormed(m: Message) {
    && -TWO31 <= m.payloadCount < TWO31 && -TWO31 <= m.nregions < TWO31
    && |m.words| == if m.sizebytes < DescSize + TableSize then 0 else (m.sizebytes - DescSize - TableSize) / 8
  }

  datatype Verdict = Accepted | BadSize | NoMemory | ShortRead | BadRegions | TooManyRegions | TooManyPages | SizeMismatch

  /** `hab_receive_export_desc` up to the warehouse, check by check. */
  function Receive(m: Message, memory: bool, readInFull: bool): Verdict {
    if m.sizebytes > HeaderSizeMax || m.sizebytes < DescSize + TableSize then BadSize
    else if !memory then NoMemory
    else if !readInFull then ShortRead
    else if m.nregions <= 0 then BadRegions
    else if m.nregions > m.payloadCount then TooManyRegions
    else if m.payloadCount > MaxPayloadCount then TooManyPages
    else if m.sizebytes != DescSize + TableSize + m.nregions * RegionSize then SizeMismatch
    else Accepted
  }

  /** The size of the message for a table of this many regions, and whether the exporter sends it. */
  function SizeFor(nregions: nat): nat { DescSize + TableSize + nregions * RegionSize }

  predicate Sendable(nregions: nat) { SizeFor(nregions) <= HeaderSizeMax }

  /** The message for the pages that `rs` was built from. */
  function Sent(pages: seq<Pfn>, rs: seq<Region>): (m: Message)
    requires 0 < |pages| < TWO31 && |rs| <= |pages|
    ensures WellFormed(m)
  {
    Message(SizeFor(|rs|), |pages|, pages[0], |rs|, rs)
  }

  /**
   An accepted message holds exactly the regions it announces, so the table is inside the bytes
   received, and no more regions than pages, within the limits.
   */
  lemma AcceptedIsInBounds(m: Message)
    requires WellFormed(m) && Receive(m, true, true) == Accepted
    ensures |m.words| == m.nregions && 0 < m.nregions <= m.payloadCount <= 0xF_FFFF
  {
  }

  /**
   Every table the page-array branch builds for at most MAX_EXP_PAYLOAD_COUNT pages passes every
   receive-side check exactly if the exporter's own size check lets it through, and then passes
   the checks of the expansion too; it expands to the exported pages exactly if their runs are in
   reach of one another.
   */
  lemma {:induction false} SentIsAccepted(pages: seq<Pfn>, rs: seq<Region>)
    requires 0 < |pages| <= 0xF_FFFF && IsTable(rs, Runs(pages), 0) && |rs| <= |pages|
    ensures Receive(Sent(pages, rs), true, true) == Accepted <==> 105 + 8 * |rs| <= 0x7_D000
    ensures Sendable(|rs|) <==> 105 + 8 * |rs| <= 0x7_D000
    ensures Expandable(Sent(pages, rs).words, Sent(pages, rs).payloadCount)
    ensures Pages(Sent(pages, rs).first, Sent(pages, rs).words) == pages <==> InReach(Runs(pages))
  {
    PageArrayRoundTrip(pages, rs);
    hide Pages, Runs, Total, IsTable, InReach;
    RunsAreMany(pages, rs);
  }

  lemma RunsAreMany(pages: seq<Pfn>, rs: seq<Region>)
    requires pages != [] && IsTable(rs, Runs(pages), 0)
    ensures rs != []
  {
  }

  /**
   The receiving side in full: the checks, then `pages_list_create`, which expands the table into exactly
   `payload_count` slots.  `valid` says which frames are memory; only the first one is asked about.
   Whatever arrives, nothing is written past the slots, and the pages are handed out only if the regions
   fill them exactly.
   */
  method Import(m: Message, memory: bool, readInFull: bool, valid: Pfn -> bool, slotsRoom: bool, listRoom: bool)
    returns (verdict: Verdict, pages: array?<Pfn>)
    requires WellFormed(m)
    ensures verdict == BadSize <==> !(105 <= m.sizebytes <= 0x7_D000)
    ensures verdict == NoMemory <==> 105 <= m.sizebytes <= 0x7_D000 && !memory
    ensures verdict == ShortRead <==> 105 <= m.sizebytes <= 0x7_D000 && memory && !readInFull
    ensures 105 <= m.sizebytes <= 0x7_D000 && memory && readInFull ==>
      && (verdict == BadRegions <==> m.nregions <= 0)
      && (verdict == TooManyRegions <==> 0 < m.nregions && m.payloadCount < m.nregions)
      && (verdict == TooManyPages <==> 0 < m.nregions <= m.payloadCount && m.payloadCount > 0xF_FFFF)
      && (verdict == SizeMismatch <==> 0 < m.nregions <= m.payloadCount <= 0xF_FFFF && m.sizebytes != 105 + 8 * m.nregions)
      && (verdict == Accepted <==> 0 < m.nregions <= m.payloadCount <= 0xF_FFFF && m.sizebytes == 105 + 8 * m.nregions)
    ensures pages != null ==> fresh(pages)
    ensures pages != null <==> verdict == Accepted && valid(m.first) && slotsRoom && listRoom && Expandable(m.words, m.payloadCount)
    ensures pages != null ==> pages.Length == m.payloadCount && pages[..] == Pages(m.first, m.words)
  {
    hide Pages, Total;
    verdict, pages := Receive(m, memory, readInFull), null;
    if verdict == Accepted && valid(m.first) && slotsRoom && listRoom {
      AcceptedIsInBounds(m);
      var slots := new Pfn[m.payloadCount](_ => 0);
      var ok := Expand(m.first, m.words, slots);
      if ok { pages := slots; }
    }
  }

  /** From one side to the other: compress, check the size, send, receive, expand. */
  method Share(pages: array<Pfn>, valid: Pfn -> bool) returns (sent: bool, verdict: Verdict, imported: array?<Pfn>)
    requires 0 < pages.Length <= 0xF_FFFF
    ensures sent <==> 105 + 8 * |Runs(pages[..])| <= 0x7_D000
    ensures sent ==> verdict == Accepted && (imported != null <==> valid(pages[0]))
    ensures sent && imported != null ==> imported.Length == pages.Length && (imported[..] == pages[..] <==> InReach(Runs(pages[..])))
  {
    hide Pages, Total, InReach, Runs, IsTable, RegionOf;
    var region := new Region[pages.Length](_ => Region(0, 0));
    var first, nregions := CompressPages(pages, region);
    var rs := region[..nregions];
    TableLength(rs, Runs(pages[..]));
    SentIsAccepted(pages[..], rs);
    sent, verdict, imported := SizeFor(nregions) <= HeaderSizeMax, BadSize, null;
    if sent {
      verdict, imported := Import(Message(SizeFor(nregions), pages.Length, first, nregions, rs), true, true, valid, true, true);
    }
  }

  lemma TableLength(rs: seq<Region>, es: seq<Entry>)
    requires IsTable(rs, es, 0)
    ensures |rs| == |es|
  {
  }
}
