/**
 * The Debug Port and Access Port registers this layer touches, with the field
 * layouts of the ARM Debug Interface v5 (ADIv5) architecture specification:
 * the DP registers DPIDR, ABORT, CTRL/STAT and SELECT (section B2.2) and the
 * AP registers IDR, BASE and the upper half of BASE. A register travels as a
 * raw 32-bit value; the functions below read and build its fields.
 */
module Registers {
  import opened Common

  /** Whether the one-bit `mask` (a power of two) is set in `v`. */
  function HasBit(v: nat, mask: nat): bool
    requires mask > 0
  {
    v / mask % 2 == 1
  }

  // Debug Port register addresses.
  const DpidrAddress: u8 := 0x0
  const AbortAddress: u8 := 0x0
  const CtrlStatAddress: u8 := 0x4
  const SelectAddress: u8 := 0x8

  // ABORT bits.
  const DapAbort: u32 := 0x01
  const StkCmpClr: u32 := 0x02
  const StkErrClr: u32 := 0x04
  const WdErrClr: u32 := 0x08
  const OrunErrClr: u32 := 0x10

  /** `Abort(0)` with the four sticky-flag clear bits set (the bits are
      disjoint, so their sum is their bitwise or). */
  const ClearStickyErrors: u32 := OrunErrClr + WdErrClr + StkErrClr + StkCmpClr

  // CTRL/STAT bits.
  const CdbgPwrUpReq: u32 := 0x1000_0000
  const CdbgPwrUpAck: u32 := 0x2000_0000
  const CsysPwrUpReq: u32 := 0x4000_0000
  const CsysPwrUpAck: u32 := 0x8000_0000

  /** `Ctrl::default()` with `csyspwrupreq` and `cdbgpwrupreq` set. */
  const PowerUpRequest: u32 := CsysPwrUpReq + CdbgPwrUpReq

  /** Both power-up acknowledge bits of a CTRL/STAT readback are set. */
  predicate PowerUpAcked(ctrl: u32) {
    HasBit(ctrl, CsysPwrUpAck) && HasBit(ctrl, CdbgPwrUpAck)
  }

  /** The ABORT value clears exactly the four sticky flags and does not abort
      the current transaction. */
  lemma ClearStickyErrorsBits()
    ensures HasBit(ClearStickyErrors, OrunErrClr) && HasBit(ClearStickyErrors, WdErrClr)
    ensures HasBit(ClearStickyErrors, StkErrClr) && HasBit(ClearStickyErrors, StkCmpClr)
    ensures !HasBit(ClearStickyErrors, DapAbort)
    ensures ClearStickyErrors == 0x1E
  {
  }

  /** The CTRL/STAT value requests both power domains and sets no other bit
      of the four power-up bits. */
  lemma PowerUpRequestBits()
    ensures HasBit(PowerUpRequest, CsysPwrUpReq) && HasBit(PowerUpRequest, CdbgPwrUpReq)
    ensures !HasBit(PowerUpRequest, CsysPwrUpAck) && !HasBit(PowerUpRequest, CdbgPwrUpAck)
  {
  }

  /** SELECT with APSEL in bits [31:24], APBANKSEL in bits [7:4] and
      DPBANKSEL in bits [3:0] left at 0. The bank setter keeps only the four
      bits of its field. */
  function SelectValue(apSel: u8, apBankSel: u8): u32 {
    apSel * 0x100_0000 + apBankSel % 0x10 * 0x10
  }

  function SelectApSel(v: u32): u8 { v / 0x100_0000 }

  function SelectApBankSel(v: u32): u8 { v / 0x10 % 0x10 }

  function SelectDpBankSel(v: u32): u8 { v % 0x10 }

  /** A SELECT value built from an AP number and an AP bank carries both, and
      selects Debug Port bank 0. */
  lemma SelectFields(apSel: u8, apBankSel: u8)
    ensures SelectApSel(SelectValue(apSel, apBankSel)) == apSel
    ensures SelectApBankSel(SelectValue(apSel, apBankSel)) == apBankSel % 0x10
    ensures SelectDpBankSel(SelectValue(apSel, apBankSel)) == 0
  {
    var b := apBankSel % 0x10;
    assert SelectValue(apSel, apBankSel) == apSel * 0x100_0000 + b * 0x10;
    assert (apSel * 0x100_0000 + b * 0x10) / 0x10 == apSel * 0x10_0000 + b;
  }

  /** Two selections put the same value on the wire exactly when they name the
      same AP and the same (four-bit) bank. */
  lemma SelectValueInjective(a1: u8, b1: u8, a2: u8, b2: u8)
    ensures SelectValue(a1, b1) == SelectValue(a2, b2) <==> a1 == a2 && b1 % 0x10 == b2 % 0x10
  {
    SelectFields(a1, b1);
    SelectFields(a2, b2);
  }

  /** The all-zero SELECT written during power-up is the selection of AP 0,
      bank 0. */
  lemma SelectZero()
    ensures SelectValue(0, 0) == 0
    ensures SelectApSel(SelectValue(0, 0)) == 0 && SelectApBankSel(SelectValue(0, 0)) == 0
    ensures SelectDpBankSel(SelectValue(0, 0)) == 0
  {
    SelectFields(0, 0);
  }

  /** An AP register: the bank it lives in and the address handed to the
      transport. */
  datatype ApRegister = ApRegister(bank: u8, address: u8)

  /** A register at byte offset `offset` of the AP register space: the bank is
      offset bits [7:4]. */
  function ApRegisterAt(offset: u8): ApRegister {
    ApRegister(offset / 0x10, offset)
  }

  const Idr: ApRegister := ApRegisterAt(0xFC)
  const Base: ApRegister := ApRegisterAt(0xF8)
  const Base2: ApRegister := ApRegisterAt(0xF0)

  /** IDR, BASE and BASE2 share bank 0xF, so reading them from one port needs
      at most one selection. */
  lemma IdentificationBank()
    ensures Idr.bank == Base.bank == Base2.bank == 0xF
  {
  }

  /** The IDR CLASS field, bits [16:13]. */
  function IdrClass(idr: u32): nat { idr / 0x2000 % 0x10 }

  /** CLASS value of a Memory Access Port. */
  const MemApClass: nat := 0x8

  datatype BaseaddrFormat = Legacy | ADIv5

  /** The BASE Format bit, bit [1]. */
  function BaseFormat(base: u32): BaseaddrFormat {
    if HasBit(base, 0x2) then ADIv5 else Legacy
  }

  /** The BASE BASEADDR field, bits [31:12]. */
  function BaseAddrField(base: u32): u32 { base / 0x1000 }

  /**
   * The ROM table base address: the low word is `BASE.BASEADDR << 12`
   * computed on 32 bits, and `high` (the BASE2 value, read only for the ADIv5
   * format) is shifted into the upper word. The two words do not overlap, so
   * their bitwise or is their sum.
   */
  function BaseAddress(baseAddr: u32, high: Option<u32>): u64 {
    var low := baseAddr * 0x1000 % 0x1_0000_0000;
    match high
    case None => low
    case Some(h) => h * 0x1_0000_0000 + low
  }

  /** The base address is 4 KiB aligned; its low word is the shifted BASE
      field and its high word is BASE2 (zero in the legacy format). */
  lemma BaseAddressLayout(baseAddr: u32, high: Option<u32>)
    ensures BaseAddress(baseAddr, high) % 0x1000 == 0
    ensures BaseAddress(baseAddr, high) % 0x1_0000_0000 == baseAddr * 0x1000 % 0x1_0000_0000
    ensures BaseAddress(baseAddr, high) / 0x1_0000_0000 == if high.Some? then high.value else 0
  {
    var low := baseAddr * 0x1000 % 0x1_0000_0000;
    LowWord(baseAddr);
    if high.Some? {
      WordSplit(high.value, low);
    }
  }

  /** The shifted BASE field keeps its low twenty bits, moved up by twelve. */
  lemma LowWord(baseAddr: u32)
    ensures baseAddr * 0x1000 % 0x1_0000_0000 == (baseAddr % 0x10_0000) * 0x1000
    ensures baseAddr * 0x1000 % 0x1_0000_0000 % 0x1000 == 0
  {
    var q := baseAddr / 0x10_0000;
    var r := baseAddr % 0x10_0000;
    assert baseAddr * 0x1000 == q * 0x1_0000_0000 + r * 0x1000;
    WordSplit(q, r * 0x1000);
  }

  /** A high word and a low word below 2^32 are recovered from their
      combination. */
  lemma WordSplit(h: nat, low: nat)
    requires low < 0x1_0000_0000
    ensures (h * 0x1_0000_0000 + low) % 0x1_0000_0000 == low
    ensures (h * 0x1_0000_0000 + low) / 0x1_0000_0000 == h
    ensures low % 0x1000 == 0 ==> (h * 0x1_0000_0000 + low) % 0x1000 == 0
  {
    assert h * 0x1_0000_0000 == (h * 0x10_0000) * 0x1000;
  }

  /** With the ADIv5 layout the legacy base address is the BASE register with
      its low twelve bits cleared. */
  lemma LegacyBaseIsMaskedRegister(base: u32)
    ensures BaseAddress(BaseAddrField(base), None) == base - base % 0x1000
  {
    assert BaseAddrField(base) * 0x1000 == base - base % 0x1000;
  }

  /** A legacy BASE field of 0xE00FF locates the ROM table at 0xE00FF000. */
  lemma LegacyBaseExample()
    ensures BaseAddress(0xE00FF, None) == 0xE00FF000
  {
  }
}
