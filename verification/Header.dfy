/** A message header in memory, its packed first word, and virtual channel ids. */
module Header {
  import opened Common

  /** `struct hab_header` */
  datatype Fields = Fields(idType: nat, payloadSize: nat, sessionId: nat, signature: nat, sequence: nat)

  predicate Fits(h: Fields) {
    && h.idType < 0x1_0000_0000 && h.payloadSize < 0x1_0000_0000 && h.sessionId < 0x1_0000_0000
    && h.signature < 0x1_0000_0000 && h.sequence < 0x1_0000_0000
  }

  function Packed(h: Fields): (r: Bytes)
    ensures |r| == 20
  {
    Word(h.idType) + Word(h.payloadSize) + Word(h.sessionId) + Word(h.signature) + Word(h.sequence)
  }

  function Unpacked(b: Bytes): Fields
    requires |b| == 20
  {
    Fields(Value(b[..4]), Value(b[4..8]), Value(b[8..12]), Value(b[12..16]), Value(b[16..]))
  }

  /** Twenty bytes and five words are the same thing. */
  lemma PackedRoundTrip(h: Fields, b: Bytes)
    requires Fits(h) && |b| == 20
    ensures Unpacked(Packed(h)) == h
    ensures Fits(Unpacked(b)) && Packed(Unpacked(b)) == b
  {
    ValueOfWord(h.idType); ValueOfWord(h.payloadSize); ValueOfWord(h.sessionId); ValueOfWord(h.signature); ValueOfWord(h.sequence);
    WordOfValue(b[..4]); WordOfValue(b[4..8]); WordOfValue(b[8..12]); WordOfValue(b[12..16]); WordOfValue(b[16..]);
    hide Word, Value;
    var w := Packed(h);
    assert w[..4] == Word(h.idType) && w[4..8] == Word(h.payloadSize) && w[8..12] == Word(h.sessionId)
        && w[12..16] == Word(h.signature) && w[16..] == Word(h.sequence);
    assert b == b[..4] + b[4..8] + b[8..12] + b[12..16] + b[16..];
  }

  /** HAB_VCID_GET_ID */
  function VcidId(vcid: bv32): bv32 { vcid & 0xFFF }

  /** The id `hab_vchan_alloc` composes; the three fields have 12, 8 and 12 bits. */
  function Vcid(id: bv32, domId: bv32, mmid: bv32): bv32 {
    (id & 0xFFF) | ((domId << 12) & 0xF_F000) | ((mmid << 20) & 0xFFF0_0000)
  }

  /** HAB_HEADER_SET_TYPE: four low bits at 16, four high bits at 0 */
  function SetType(w: bv32, kind: bv32): bv32 {
    (w & !(0xF_0000 | 0xF)) | ((kind << 16) & 0xF_0000) | ((kind >> 4) & 0xF)
  }

  /** HAB_HEADER_GET_TYPE */
  function GetType(w: bv32): bv32 { ((w & 0xF_0000) >> 16) | ((w & 0xF) << 4) }

  /** HAB_HEADER_SET_ID: the 12-bit id of a virtual channel id, at 20 */
  function SetId(w: bv32, vcid: bv32): bv32 { (w & !0xFFF0_0000) | ((VcidId(vcid) << 20) & 0xFFF0_0000) }

  /** HAB_HEADER_GET_ID */
  function GetId(w: bv32): bv32 { ((w & 0xFFF0_0000) >> 20) & 0xFFF }

  lemma TypeRoundTrip(w: bv32, kind: bv32)
    ensures GetType(SetType(w, kind)) == kind & 0xFF
  {
  }

  lemma IdRoundTrip(w: bv32, vcid: bv32)
    ensures GetId(SetId(w, vcid)) == VcidId(vcid)
  {
  }

  lemma IdKeepsType(w: bv32, vcid: bv32)
    ensures GetType(SetId(w, vcid)) == GetType(w)
  {
  }

  lemma TypeKeepsId(w: bv32, kind: bv32)
    ensures GetId(SetType(w, kind)) == GetId(w)
  {
  }

  lemma LowByte(kind: bv32)
    ensures kind & 0xFF == kind <==> kind <= 0xFF
  {
  }

  lemma LowBits(vcid: bv32)
    ensures VcidId(vcid) == vcid <==> vcid <= 0xFFF
  {
  }

  /**
   Setting type and id, in whichever order, gives them back if and only if the type fits its 8
   bits; of a virtual channel id exactly the 12-bit table id comes back.
   */
  lemma {:induction false} HeaderRoundTrip(w: bv32, kind: bv32, vcid: bv32)
    ensures var h := SetId(SetType(w, kind), vcid);
      (GetType(h) == kind <==> kind <= 0xFF) && GetId(h) == VcidId(vcid) && (GetId(h) == vcid <==> vcid <= 0xFFF)
    ensures var h := SetType(SetId(w, vcid), kind);
      (GetType(h) == kind <==> kind <= 0xFF) && GetId(h) == VcidId(vcid) && (GetId(h) == vcid <==> vcid <= 0xFFF)
  {
    hide GetType, GetId, SetType, SetId, VcidId;
    TypeRoundTrip(w, kind);
    TypeRoundTrip(SetId(w, vcid), kind);
    IdRoundTrip(w, vcid);
    IdRoundTrip(SetType(w, kind), vcid);
    IdKeepsType(SetType(w, kind), vcid);
    TypeKeepsId(SetId(w, vcid), kind);
    LowByte(kind);
    LowBits(vcid);
  }

  /** Where in the word the two are: the id on top, the low half of the type under it, its high half at the bottom. */
  lemma HeaderLayout(w: bv32, kind: bv32, vcid: bv32)
    requires kind <= 0xFF
    ensures var h := SetId(SetType(w, kind), vcid);
      && h >> 20 == vcid & 0xFFF && (h >> 16) & 0xF == kind & 0xF && h & 0xF == kind >> 4
      && h & 0xFFF0 == w & 0xFFF0
  {
  }

  /** The three fields of a virtual channel id come back, each exactly if it fits its bits; so does the id from a header. */
  lemma VcidRoundTrip(id: bv32, domId: bv32, mmid: bv32)
    ensures var v := Vcid(id, domId, mmid);
      && (VcidId(v) == id <==> id <= 0xFFF) && ((v >> 12) & 0xFF == domId <==> domId <= 0xFF) && (v >> 20 == mmid <==> mmid <= 0xFFF)
    ensures GetId(SetId(0, Vcid(id, domId, mmid))) == VcidId(Vcid(id, domId, mmid))
  {
  }
}
