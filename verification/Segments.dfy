/** Access rights, segment limits and the TSS descriptor (vmm/vmx.c:167-269). */
module Segments {
  import opened Words
  import opened CpuDefs

  /** get_segment_ar on the value LAR returned. */
  function AccessRights(lar: Dword): Word { Word(((lar.bits as u64) >> 8) & 0xf0ff) }

  /** The limit given to a CS or SS with these access rights. */
  function FlatLimit(accessRights: Word): Word {
    if Has(accessRights, 0x8000) then Word(0xffff_ffff) else Word(0xffff)
  }

  /** SDM section 26.3.1.2: bits 11:8 and 31:17 of an access-rights field are reserved. */
  predicate ReservedClear(accessRights: Word) { !Has(accessRights, 0xfffe_0f00) }

  /** SDM section 26.3.1.2: G must be 0 if a bit of limit 11:0 is 0, and 1 if a bit of 31:20 is 1. */
  predicate GranularityOk(accessRights: Word, limit: Word) {
    && (limit.bits & 0xfff != 0xfff ==> !Has(accessRights, 0x8000))
    && (Has(limit, 0xfff0_0000) ==> Has(accessRights, 0x8000))
  }

  /** For whatever LAR returns, the rights and limit written for CS and SS pass
      the checks of a VM entry, and type, S, DPL, P, AVL, L, D/B and G are kept. */
  lemma SegmentLegal(lar: Dword)
    ensures var ar := AccessRights(lar);
      && ReservedClear(ar) && !Has(ar, UNUSABLE_AR.bits)
      && GranularityOk(ar, FlatLimit(ar))
      && ar.bits & 0xf0ff == ((lar.bits as u64) >> 8) & 0xf0ff
  {
  }

  /** The selector written to a host field: RPL and TI cleared. */
  function HostSelector(selector: Half): Word { Word((selector.bits & !7) as u64) }

  function Wide(h: Half): Word { Word(h.bits as u64) }

  /** LSL with a 16-bit destination, as __lsl has. */
  function Limit16(limit: Dword): Half { LowHalf(Word(limit.bits as u64)) }

  /** A host selector passes the checks of SDM section 26.2.3. */
  lemma HostSelectorLegal(selector: Half)
    ensures !Has(HostSelector(selector), 7)
  {
  }

  /** A VM exit gives back the original selector exactly when its RPL and TI were clear. */
  lemma HostSelectorKept(selector: Half)
    ensures LowHalf(HostSelector(selector)) == selector <==> selector.bits & 7 == 0
  {
  }

  lemma WideKept(selector: Half)
    ensures LowHalf(Wide(selector)) == selector
  {
  }

  /** The base that initialize_vmcs extracts from the two words of a TSS descriptor. */
  function TssBase(low: Word, high: Word): Word {
    Word(((low.bits >> 16) & 0xff_ffff) | (((low.bits >> 56) & 0xff) << 24) | (high.bits << 32))
  }

  /** A 16-byte TSS descriptor of 64-bit mode (SDM section 7.2.3). */
  datatype TssDescriptor = TssDescriptor(base: u64, limit: u64, access: u64, flags: u64, reserved: u64)

  function TssLow(d: TssDescriptor): Word {
    Word((d.limit & 0xffff) | ((d.base & 0xff_ffff) << 16) | ((d.access & 0xff) << 40)
         | (((d.limit >> 16) & 0xf) << 48) | ((d.flags & 0xf) << 52) | (((d.base >> 24) & 0xff) << 56))
  }

  function TssHigh(d: TssDescriptor): Word { Word((d.base >> 32) | (d.reserved << 32)) }

  /** Decoding gives back the base, whatever limit, attributes and reserved bits surround it. */
  lemma TssRoundTrip(d: TssDescriptor)
    ensures TssBase(TssLow(d), TssHigh(d)) == Word(d.base)
  {
  }
}
