/** The bit layout of device commands and page-table entries: the header encoders of the
    command set, the masks that the work thread checks, and the packing of addresses. */
module Words {
  import opened Basics

  // Command types, in the low four bits of a header.
  const TYPE_MASK: Word := 0xF
  const NOP: Word := 0x0
  const BIND_SLOT: Word := 0x1
  const GET_DIE: Word := 0x2
  const FENCE: Word := 0x3
  const NEW_SET: Word := 0x4
  const UNBIND_SLOT: Word := 0x5

  // The masks of the work thread, written as the source writes them: they cover three of the four bits of each slot
  // field, and the whole number field but its lowest bit.
  const GET_DIE_SLOT_MASK: Word := (((1 as bv32) << 28) - 1) ^ (((1 as bv32) << 25) - 1)
  const GET_DIE_NUM_MASK: Word := (((1 as bv32) << 20) - 1) ^ (((1 as bv32) << 5) - 1)
  const NEW_SET_SLOT_MASK: Word := (((1 as bv32) << 8) - 1) ^ (((1 as bv32) << 5) - 1)

  function TypeOf(header: Word): Word { header & TYPE_MASK }

  /** Truncation of a 64-bit value to a `uint32_t`. */
  function Low32(x: bv64): Word { (x & 0xFFFF_FFFF) as bv32 }

  /** The number whose binary digits a word holds. */
  function Value(w: Word): nat
    decreases w
  {
    if w == 0 then 0 else 2 * Value(w >> 1) + (if w & 1 == 1 then 1 else 0)
  }

  /** A slot number as the value of a four-bit field. */
  function SlotBits(slot: Slot): (w: Word)
    ensures w <= 0xF
  {
    slot as bv32
  }

  /** The slot number that a four-bit field holds. */
  function SlotIndex(w: Word): (slot: Slot)
    requires w <= 0xF
    ensures SlotBits(slot) == w
  {
    w as int
  }

  lemma SlotIndexOf(slot: Slot)
    ensures SlotIndex(SlotBits(slot)) == slot
  {
  }

  /** The number that a word holds. */
  function Number(w: Word): int { w as int }

  lemma SlotBitsNumber(slot: Slot)
    ensures Number(SlotBits(slot)) == slot
  {
  }

  // ---------- Header encoders, on slot bits ----------

  /** The header is computed in 64 bits, because the seed is a `size_t`, and then truncated. */
  function BindHeader(slot: Word, seed: bv64): Word {
    Low32((BIND_SLOT as bv64) | ((slot as bv64) << 4) | (seed << 12))
  }

  function UnbindHeader(slot: Word): Word { UNBIND_SLOT | (slot << 4) }

  function FenceHeader(value: Word): Word { FENCE | (value << 4) }

  function GetDieHeader(num: Word, outputType: Word): Word { GET_DIE | (num << 4) | (outputType << 20) }

  function GetDieHeaderWithSlot(num: Word, outputType: Word, slot: Word): Word {
    GET_DIE | (num << 4) | (outputType << 20) | (slot << 24)
  }

  // The work thread inserts the slot of the output buffer into a user's header.

  function InsertGetDieSlot(header: Word, slot: Word): Word { header | (slot << 24) }

  function InsertNewSetSlot(header: Word, slot: Word): Word { header | (slot << 4) }

  // What the device reads from a header.

  function SlotAt4(header: Word): Word { (header >> 4) & 0xF }

  function SlotAt24(header: Word): Word { (header >> 24) & 0xF }

  function SeedField(header: Word): Word { header >> 12 }

  function FenceField(header: Word): Word { header >> 4 }

  /** A BIND header carries its type, its slot and the seed modulo 2^20, whatever the seed. */
  lemma BindHeaderRoundTrip(slot: Word, seed: bv64)
    requires slot <= 0xF
    ensures TypeOf(BindHeader(slot, seed)) == BIND_SLOT
    ensures SlotAt4(BindHeader(slot, seed)) == slot
    ensures SeedField(BindHeader(slot, seed)) == Low32(seed & 0xF_FFFF)
  {
  }

  lemma UnbindHeaderRoundTrip(slot: Word)
    requires slot <= 0xF
    ensures TypeOf(UnbindHeader(slot)) == UNBIND_SLOT
    ensures SlotAt4(UnbindHeader(slot)) == slot
  {
  }

  /** A FENCE header keeps its value exactly when the value fits in 28 bits. */
  lemma FenceHeaderRoundTrip(value: Word)
    ensures TypeOf(FenceHeader(value)) == FENCE
    ensures FenceField(FenceHeader(value)) == value <==> value < 0x1000_0000
  {
  }

  // ---------- Insertion of the slot ----------

  /** The low bit of the slot field of a user's header, which the masks of the work thread leave out. */
  predicate GetDieLowBit(header: Word) { (header >> 24) & 1 != 0 }

  predicate NewSetLowBit(header: Word) { (header >> 4) & 1 != 0 }

  predicate Odd(slot: Word) { slot & 1 == 1 }

  /** Insertion into a GET_DIE header changes the slot field alone. */
  lemma InsertGetDieSlotKeeps(header: Word, slot: Word)
    requires slot <= 0xF
    ensures InsertGetDieSlot(header, slot) & 0xF0FF_FFFF == header & 0xF0FF_FFFF
    ensures TypeOf(InsertGetDieSlot(header, slot)) == TypeOf(header)
  {
    KeepBitsAt24(header, slot);
  }

  lemma KeepBitsAt24(h: Word, b: Word)
    requires b <= 0xF
    ensures (h | (b << 24)) & 0xF0FF_FFFF == h & 0xF0FF_FFFF
    ensures (h | (b << 24)) & 0xF == h & 0xF
  {
  }

  /** In every GET_DIE header that passes the check, the slot field after insertion names the inserted
      slot exactly when the user left the low bit of the field clear or the slot is odd. */
  lemma InsertGetDieSlotExact(header: Word, slot: Word)
    requires header & GET_DIE_SLOT_MASK == 0 && slot <= 0xF
    ensures SlotAt24(InsertGetDieSlot(header, slot)) == slot <==> !GetDieLowBit(header) || Odd(slot)
  {
    InsertBitsAt24(header, slot);
  }

  lemma InsertBitsAt24(h: Word, b: Word)
    requires b <= 0xF && h & 0x0E00_0000 == 0
    ensures ((h | (b << 24)) >> 24) & 0xF == b <==> (h >> 24) & 1 == 0 || b & 1 == 1
  {
  }

  /** Insertion into a NEW_SET header changes the slot field alone. */
  lemma InsertNewSetSlotKeeps(header: Word, slot: Word)
    requires slot <= 0xF
    ensures InsertNewSetSlot(header, slot) & 0xFFFF_FF0F == header & 0xFFFF_FF0F
    ensures TypeOf(InsertNewSetSlot(header, slot)) == TypeOf(header)
  {
  }

  /** The NEW_SET slot field starts at bit 4, and its mask too leaves out the low bit. */
  lemma InsertNewSetSlotExact(header: Word, slot: Word)
    requires header & NEW_SET_SLOT_MASK == 0 && slot <= 0xF
    ensures SlotAt4(InsertNewSetSlot(header, slot)) == slot <==> !NewSetLowBit(header) || Odd(slot)
  {
  }

  /** A header that passes the check and yet ends up naming another slot than the one inserted. */
  lemma LowBitNamesAnotherSlot()
    ensures 0x0100_0012 & GET_DIE_SLOT_MASK == 0 && TypeOf(0x0100_0012) == GET_DIE
    ensures SlotAt24(InsertGetDieSlot(0x0100_0012, 2)) == 3
  {
  }

  /** The user macro never sets the slot field, so insertion into its headers yields the full header macro. */
  lemma UserMacroTakesSlot(num: Word, outputType: Word, slot: Word)
    requires num < 0x1_0000 && outputType < 0x10 && slot <= 0xF
    ensures GetDieHeader(num, outputType) & GET_DIE_SLOT_MASK == 0
    ensures !GetDieLowBit(GetDieHeader(num, outputType))
    ensures InsertGetDieSlot(GetDieHeader(num, outputType), slot) == GetDieHeaderWithSlot(num, outputType, slot)
    ensures SlotAt24(GetDieHeaderWithSlot(num, outputType, slot)) == slot
  {
    UserMacroBits(num, outputType, slot);
  }

  lemma UserMacroBits(num: Word, outputType: Word, b: Word)
    requires num < 0x1_0000 && outputType < 0x10 && b <= 0xF
    ensures (2 | (num << 4) | (outputType << 20)) & 0x0E00_0000 == 0
    ensures ((2 | (num << 4) | (outputType << 20)) >> 24) & 1 == 0
    ensures ((2 | (num << 4) | (outputType << 20) | (b << 24)) >> 24) & 0xF == b
  {
  }

  // ---------- Addresses ----------

  const PRESENT_MASK: Word := 0x1

  predicate Present(entry: Word) { entry & PRESENT_MASK != 0 }

  /** `0x1 | (addr >> 8)`, stored in a 32-bit entry. */
  function MakePtEntry(addr: bv64): Word { Low32(1 | (addr >> 8)) }

  /** The address the device reads from an entry. */
  function EntryAddress(entry: Word): bv64 { ((entry & 0xFFFF_FFF0) as bv64) << 8 }

  /** Every entry made has the present bit, and the device reads the address back from the entry exactly
      when the address is page aligned and fits in the 40 bits of the DMA mask. */
  lemma PtEntryRoundTrip(addr: bv64)
    ensures Present(MakePtEntry(addr))
    ensures EntryAddress(MakePtEntry(addr)) == addr <==> addr & 0xFFF == 0 && addr < 0x100_0000_0000
  {
  }

  /** The two address words of a BIND command. */
  function JoinAddress(low: Word, high: Word): bv64 { (low as bv64) | ((high as bv64) << 32) }

  lemma BindAddressRoundTrip(addr: bv64)
    ensures JoinAddress(Low32(addr), Low32(addr >> 32)) == addr
  {
  }
}
