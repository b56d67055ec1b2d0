/** The model against plain numbers. What the definitions of the other modules come to is said
    here once more in literal bits and header numbers, without their names: each field of the
    VMCS after initialize_vmcs, and the MSR behind each control word. */
module Literals {
  import opened Words
  import opened CpuDefs
  import opened VmcsRegions
  import opened Processor
  import opened Segments
  import opened Controls
  import opened VmcsImage
  import opened FieldNumbers

  // ------------------------------------------------------- values in plain bits

  lemma HostSelectorBits(selector: Half)
    ensures HostSelector(selector) == Word((selector.bits & 0xfff8) as u64)
  {
  }

  /** A host selector keeps its index; RPL and TI are cleared. */
  lemma HostSelectorIndex(selector: Half)
    ensures HostSelector(selector).bits >> 3 == (selector.bits as u64) >> 3 && HostSelector(selector).bits & 7 == 0
  {
  }

  lemma RightsBits(lar: Dword)
    ensures AccessRights(lar) == Word((lar.bits as u64 >> 8) & 0xf0ff)
    ensures FlatLimit(AccessRights(lar)) == Word(if lar.bits & 0x80_0000 != 0 then 0xffff_ffff else 0xffff)
  {
  }

  lemma HalfBits(x: u64)
    ensures Wide(LowHalf(Word(x))) == Word(x & 0xffff)
  {
  }

  lemma LimitOf(limit: Dword, x: u64)
    requires x == limit.bits as u64
    ensures Limit16(limit) == LowHalf(Word(x))
  {
    hide LowHalf;
  }

  lemma LimitBits(limit: Dword)
    ensures Wide(Limit16(limit)) == Word((limit.bits as u64) & 0xffff)
  {
    hide *;
    var x := limit.bits as u64;
    HalfBits(x);
    LimitOf(limit, x);
  }

  /** A control word is what both halves of the MSR have, and bit 9 where it is forced. */
  lemma ControlBits(msr: Word)
    ensures Wide32(ControlWord(Allowed0(msr), Allowed1(msr), NO_BITS))
         == Word(msr.bits & (msr.bits >> 32) & 0xffff_ffff)
    ensures Wide32(ControlWord(Allowed0(msr), Allowed1(msr), HOST_ADDR_SPACE_SIZE))
         == Wide32(ControlWord(Allowed0(msr), Allowed1(msr), IA32E_MODE_GUEST))
         == Word((msr.bits & (msr.bits >> 32) & 0xffff_ffff) | 0x200)
  {
  }

  /** The MSRs read: the TRUE ones where bit 55 of IA32_VMX_BASIC is set, but for the
      processor-based controls. */
  lemma MsrsRead(caps: Capabilities)
    ensures PinMsr(caps) == if caps.basic.bits & 0x80_0000_0000_0000 != 0 then caps.truePin else caps.pin
    ensures ProcMsr(caps) == caps.proc
    ensures ExitMsr(caps) == if caps.basic.bits & 0x80_0000_0000_0000 != 0 then caps.trueExit else caps.exit
    ensures EntryMsr(caps) == if caps.basic.bits & 0x80_0000_0000_0000 != 0 then caps.trueEntry else caps.entry
  {
  }

  lemma LowHalfOfMsr(msr: Word)
    ensures Allowed0(msr).bits as u64 == msr.bits & 0xffff_ffff
  {
  }

  lemma HighHalfOfMsr(msr: Word)
    ensures Allowed1(msr).bits as u64 == msr.bits >> 32
  {
  }

  predicate HalvesOf(msr: Word, low: Dword, high: Dword) {
    low.bits as u64 == msr.bits & 0xffff_ffff && high.bits as u64 == msr.bits >> 32
  }

  lemma MsrHalves(msr: Word)
    ensures HalvesOf(msr, Allowed0(msr), Allowed1(msr))
  {
    LowHalfOfMsr(msr);
    HighHalfOfMsr(msr);
    hide Allowed0, Allowed1;
  }

  lemma WordsMade(caps: Capabilities)
    ensures PinWord(caps) == ControlWord(Allowed0(PinMsr(caps)), Allowed1(PinMsr(caps)), NO_BITS)
    ensures ProcWord(caps) == ControlWord(Allowed0(ProcMsr(caps)), Allowed1(ProcMsr(caps)), NO_BITS)
    ensures ExitWord(caps) == ControlWord(Allowed0(ExitMsr(caps)), Allowed1(ExitMsr(caps)), HOST_ADDR_SPACE_SIZE)
    ensures EntryWord(caps) == ControlWord(Allowed0(EntryMsr(caps)), Allowed1(EntryMsr(caps)), IA32E_MODE_GUEST)
  {
    hide ControlWord, Allowed0, Allowed1, PinMsr, ProcMsr, ExitMsr, EntryMsr;
  }

  lemma PinBits(caps: Capabilities)
    ensures var msr := if caps.basic.bits & 0x80_0000_0000_0000 != 0 then caps.truePin else caps.pin;
      Wide32(PinWord(caps)) == Word(msr.bits & (msr.bits >> 32) & 0xffff_ffff)
  {
    hide *;
    MsrsRead(caps);
    WordsMade(caps);
    ControlBits(PinMsr(caps));
  }

  lemma ProcBits(caps: Capabilities)
    ensures Wide32(ProcWord(caps)) == Word(caps.proc.bits & (caps.proc.bits >> 32) & 0xffff_ffff)
  {
    hide *;
    MsrsRead(caps);
    WordsMade(caps);
    ControlBits(ProcMsr(caps));
  }

  lemma ExitBits(caps: Capabilities)
    ensures var msr := if caps.basic.bits & 0x80_0000_0000_0000 != 0 then caps.trueExit else caps.exit;
      Wide32(ExitWord(caps)) == Word((msr.bits & (msr.bits >> 32) & 0xffff_ffff) | 0x200)
  {
    hide *;
    MsrsRead(caps);
    WordsMade(caps);
    ControlBits(ExitMsr(caps));
  }

  lemma EntryBits(caps: Capabilities)
    ensures var msr := if caps.basic.bits & 0x80_0000_0000_0000 != 0 then caps.trueEntry else caps.entry;
      Wide32(EntryWord(caps)) == Word((msr.bits & (msr.bits >> 32) & 0xffff_ffff) | 0x200)
  {
    hide *;
    MsrsRead(caps);
    WordsMade(caps);
    ControlBits(EntryMsr(caps));
  }

  /** Bits 15:0, 23:16, 31:24 and 63:32 of the base of a TSS descriptor. */
  lemma TssBits(low: u64, high: u64)
    ensures var base := TssBase(Word(low), Word(high)).bits;
      && base & 0xffff == (low >> 16) & 0xffff && (base >> 16) & 0xff == (low >> 32) & 0xff
      && (base >> 24) & 0xff == low >> 56 && base >> 32 == high & 0xffff_ffff
  {
  }

  // ------------------------------------------- the VMCS after initialize_vmcs

  lemma WideBits(h: Half)
    ensures Wide(h).bits == h.bits as u64
  {
  }

  lemma SelectorsInImage(p: Plan, v: Vmcs)
    ensures var g, r := Image(p, v).guest16, p.regs;
      && g.es == Wide(r.es) && g.cs == Wide(r.cs) && g.ss == Wide(r.ss) && g.ds == Wide(r.ds)
      && g.fs == Wide(r.fs) && g.gs == Wide(r.gs) && g.ldtr == Wide(r.ldtr) && g.tr == HostSelector(r.tr)
  {
    hide Wide, HostSelector, TrBase, Wide32, Control32Image, HostNaturalImage, GuestNaturalImage, Guest32Image;
  }

  lemma ControlsInImage(p: Plan, v: Vmcs)
    ensures var f, c := Image(p, v).control32, p.env.caps;
      && f.pinBasedVmCtls == Wide32(PinWord(c)) && f.procBasedVmCtls == Wide32(ProcWord(c))
      && f.vmexitCtls == Wide32(ExitWord(c)) && f.vmentryCtls == Wide32(EntryWord(c))
  {
    hide Wide32, PinWord, ProcWord, ExitWord, EntryWord, Guest16Image, Host16Image, HostNaturalImage,
      GuestNaturalImage, Guest32Image;
  }

  lemma TrBaseInImage(p: Plan, v: Vmcs)
    ensures Image(p, v).guestNatural.bases.tr == Image(p, v).hostNatural.trBase == TrBase(p.env, p.regs)
  {
    hide TrBase, Guest16Image, Host16Image, Control32Image, Guest32Image;
  }

  lemma ImageGuestSelectors(p: Plan, v: Vmcs)
    ensures var i, r := Image(p, v), p.regs;
      && At(i, 0x0800).bits == r.es.bits as u64 && At(i, 0x0802).bits == r.cs.bits as u64
      && At(i, 0x0804).bits == r.ss.bits as u64 && At(i, 0x0806).bits == r.ds.bits as u64
      && At(i, 0x0808).bits == r.fs.bits as u64 && At(i, 0x080a).bits == r.gs.bits as u64
      && At(i, 0x080c).bits == r.ldtr.bits as u64 && At(i, 0x080e).bits == (r.tr.bits & 0xfff8) as u64
  {
    hide *;
    ReadGuest16(Image(p, v));
    SelectorsInImage(p, v);
    WideBits(p.regs.es);
    WideBits(p.regs.cs);
    WideBits(p.regs.ss);
    WideBits(p.regs.ds);
    WideBits(p.regs.fs);
    WideBits(p.regs.gs);
    WideBits(p.regs.ldtr);
    HostSelectorBits(p.regs.tr);
  }

  lemma ImageHostSelectors(p: Plan, v: Vmcs)
    ensures var i, r := Image(p, v), p.regs;
      && At(i, 0x0c00).bits == (r.es.bits & 0xfff8) as u64 && At(i, 0x0c02).bits == (r.cs.bits & 0xfff8) as u64
      && At(i, 0x0c04).bits == (r.ss.bits & 0xfff8) as u64 && At(i, 0x0c06).bits == (r.ds.bits & 0xfff8) as u64
      && At(i, 0x0c08).bits == (r.fs.bits & 0xfff8) as u64 && At(i, 0x0c0a).bits == (r.gs.bits & 0xfff8) as u64
      && At(i, 0x0c0c).bits == r.tr.bits as u64
  {
    ReadHost16(Image(p, v));
    HostSelectorBits(p.regs.es);
    HostSelectorBits(p.regs.cs);
    HostSelectorBits(p.regs.ss);
    HostSelectorBits(p.regs.ds);
    HostSelectorBits(p.regs.fs);
    HostSelectorBits(p.regs.gs);
    hide At, HostSelector;
  }

  lemma ImageFlatLimits(p: Plan, v: Vmcs)
    ensures var i, r := Image(p, v), p.regs;
      && At(i, 0x4800) == At(i, 0x4806) == At(i, 0x4808) == At(i, 0x480a) == At(i, 0x480c) == Word(0xffff_ffff)
      && At(i, 0x4802) == Word(if p.env.lar(r.cs).bits & 0x80_0000 != 0 then 0xffff_ffff else 0xffff)
      && At(i, 0x4804) == Word(if p.env.lar(r.ss).bits & 0x80_0000 != 0 then 0xffff_ffff else 0xffff)
  {
    ReadLimits(Image(p, v));
    RightsBits(p.env.lar(p.regs.cs));
    RightsBits(p.env.lar(p.regs.ss));
    hide At, AccessRights, FlatLimit, Limit16;
  }

  lemma ImageTrLimit(p: Plan, v: Vmcs)
    ensures At(Image(p, v), 0x480e) == Word((p.env.lsl(p.regs.tr).bits as u64) & 0xffff)
  {
    ReadLimits(Image(p, v));
    LimitBits(p.env.lsl(p.regs.tr));
    hide At, AccessRights, FlatLimit, Limit16;
  }

  lemma ImageTableLimits(p: Plan, v: Vmcs)
    ensures var i, r := Image(p, v), p.regs;
      At(i, 0x4810).bits == r.gdtr.limit.bits as u64 && At(i, 0x4812).bits == r.idtr.limit.bits as u64
  {
    ReadLimits(Image(p, v));
    hide At, AccessRights, FlatLimit, Limit16;
  }

  lemma ImageRights(p: Plan, v: Vmcs)
    ensures var i, r := Image(p, v), p.regs;
      && At(i, 0x4814) == At(i, 0x481a) == At(i, 0x481c) == At(i, 0x481e) == At(i, 0x4820) == Word(0x10000)
      && At(i, 0x4816) == Word((p.env.lar(r.cs).bits as u64 >> 8) & 0xf0ff)
      && At(i, 0x4818) == Word((p.env.lar(r.ss).bits as u64 >> 8) & 0xf0ff)
      && At(i, 0x4822) == Word((p.env.lar(r.tr).bits as u64 >> 8) & 0xf0ff)
  {
    ReadRights(Image(p, v));
    RightsBits(p.env.lar(p.regs.cs));
    RightsBits(p.env.lar(p.regs.ss));
    RightsBits(p.env.lar(p.regs.tr));
    hide At, AccessRights, FlatLimit;
  }

  lemma ImageGuestState(p: Plan, v: Vmcs)
    ensures var i := Image(p, v);
      && At(i, 0x4824) == At(i, 0x4826) == At(i, 0x4828) == Word(0)
      && At(i, 0x482a) == Word(p.regs.sysenterCs.bits & 0xffff_ffff)
  {
    ReadRights(Image(p, v));
    hide At, AccessRights, FlatLimit;
  }

  lemma ImageGuestNatural(p: Plan, v: Vmcs)
    ensures var i, r := Image(p, v), p.regs;
      && At(i, 0x6800) == r.cr0 && At(i, 0x6802) == r.cr3 && At(i, 0x6804) == r.cr4
      && At(i, 0x6806) == At(i, 0x6808) == At(i, 0x680a) == At(i, 0x680c) == At(i, 0x6812) == Word(0)
      && At(i, 0x680e) == r.fsBase && At(i, 0x6810) == r.gsBase
      && At(i, 0x6816) == r.gdtr.base && At(i, 0x6818) == r.idtr.base
      && At(i, 0x681a) == Word(0x400) && At(i, 0x681c) == Word(0) && At(i, 0x681e) == p.env.guestCode
      && At(i, 0x6820) == p.rflags && At(i, 0x6822) == Word(0)
      && At(i, 0x6824) == r.sysenterEsp && At(i, 0x6826) == r.sysenterEsp
  {
    ReadGuestNatural(Image(p, v));
    hide At, TrBase;
  }

  lemma ImageHostNatural(p: Plan, v: Vmcs)
    ensures var i, r := Image(p, v), p.regs;
      && At(i, 0x6c00) == r.cr0 && At(i, 0x6c02) == r.cr3 && At(i, 0x6c04) == r.cr4
      && At(i, 0x6c06) == r.fsBase && At(i, 0x6c08) == r.gsBase
      && At(i, 0x6c0c) == r.gdtr.base && At(i, 0x6c0e) == r.idtr.base
      && At(i, 0x6c10) == r.sysenterEsp && At(i, 0x6c12) == r.sysenterEip
      && At(i, 0x6c14) == At(v, 0x6c14) && At(i, 0x6c16) == p.env.code(9)
  {
    ReadHostNatural(Image(p, v));
    ReadHostNatural(v);
    hide At, TrBase;
  }

  lemma TrBaseRead(env: Env, r: Regs, at: u64)
    requires Word(at) == Plus(r.gdtr.base, Wide(r.tr).bits)
    ensures TrBase(env, r) == TssBase(env.qword(Word(at)), env.qword(Plus(Word(at), 8)))
  {
    hide TssBase, Plus, Wide;
  }

  lemma HighWordAt(at: u64)
    ensures Plus(Word(at), 8) == Word(at + 8)
  {
  }

  /** The bases of TR in guest and host: from the two words of the GDT at TR, RPL and TI included. */
  lemma ImageTrBases(p: Plan, v: Vmcs, tr: u64, at: u64, low: u64, high: u64)
    requires tr == p.regs.tr.bits as u64 && Word(at) == Plus(p.regs.gdtr.base, tr)
    requires p.env.qword(Word(at)) == Word(low) && p.env.qword(Word(at + 8)) == Word(high)
    ensures At(Image(p, v), 0x6814) == At(Image(p, v), 0x6c0a) == TssBase(Word(low), Word(high))
  {
    hide *;
    ReadGuestNatural(Image(p, v));
    ReadHostNatural(Image(p, v));
    TrBaseInImage(p, v);
    WideBits(p.regs.tr);
    HighWordAt(at);
    TrBaseRead(p.env, p.regs, at);
  }

  lemma ImageWide(p: Plan, v: Vmcs)
    ensures var i := Image(p, v);
      && At(i, 0x2000) == p.ioA && At(i, 0x2002) == p.ioB && At(i, 0x200c) == At(i, 0x2010) == Word(0)
      && At(i, 0x2800) == Word(0xffff_ffff_ffff_ffff) && At(i, 0x2802) == Word(0)
      && At(i, 0x4c00) == Word(p.regs.sysenterCs.bits & 0xffff_ffff)
      && At(i, 0x4400) == At(v, 0x4400) && At(i, 0x4402) == At(v, 0x4402)
  {
    ReadWide(Image(p, v));
    ReadWide(v);
    hide At;
  }

  /** Each control word in the image is made of the MSR that vmm/vmx.c:417-466 reads for it. */
  lemma ImagePinProcWords(p: Plan, v: Vmcs)
    ensures var i, c := Image(p, v), p.env.caps;
      var pin := if c.basic.bits & 0x80_0000_0000_0000 != 0 then c.truePin else c.pin;
      && At(i, 0x4000) == Word(pin.bits & (pin.bits >> 32) & 0xffff_ffff)
      && At(i, 0x4002) == Word(c.proc.bits & (c.proc.bits >> 32) & 0xffff_ffff)
  {
    hide *;
    ReadControl32(Image(p, v));
    ControlsInImage(p, v);
    PinBits(p.env.caps);
    ProcBits(p.env.caps);
  }

  lemma ImageExitWord(p: Plan, v: Vmcs)
    ensures var i, c := Image(p, v), p.env.caps;
      var exit := if c.basic.bits & 0x80_0000_0000_0000 != 0 then c.trueExit else c.exit;
      At(i, 0x400c) == Word((exit.bits & (exit.bits >> 32) & 0xffff_ffff) | 0x200)
  {
    hide *;
    ReadControl32(Image(p, v));
    ControlsInImage(p, v);
    ExitBits(p.env.caps);
  }

  lemma ImageEntryWord(p: Plan, v: Vmcs)
    ensures var i, c := Image(p, v), p.env.caps;
      var entry := if c.basic.bits & 0x80_0000_0000_0000 != 0 then c.trueEntry else c.entry;
      At(i, 0x4012) == Word((entry.bits & (entry.bits >> 32) & 0xffff_ffff) | 0x200)
  {
    hide *;
    ReadControl32(Image(p, v));
    ControlsInImage(p, v);
    EntryBits(p.env.caps);
  }

  lemma Halves(msr: u64, lo: u64, hi: u64)
    requires lo == msr & 0xffff_ffff && hi == msr >> 32
    ensures msr & (msr >> 32) & 0xffff_ffff == lo & hi
  {
  }

  /** Every bit of `a` is set in `b`. */
  predicate PartOf(a: u64, b: u64) { a & b == a }

  lemma BothPart(lo: u64, hi: u64)
    ensures PartOf(lo & hi, hi) && PartOf(lo & hi, lo)
  {
  }

  lemma PartOfBoth(lo: u64, hi: u64)
    ensures PartOf(lo, hi) ==> PartOf(lo, lo & hi)
  {
  }

  lemma PartTransitive(a: u64, b: u64, c: u64)
    requires PartOf(a, b) && PartOf(b, c)
    ensures PartOf(a, c)
  {
  }

  lemma WithBit9(x: u64)
    ensures PartOf(0x200, x | 0x200) && PartOf(x, x | 0x200)
  {
  }

  lemma Bit9Joined(x: u64, w: u64)
    ensures PartOf(x, w) && PartOf(0x200, w) ==> PartOf(x | 0x200, w)
  {
  }

  lemma LeastOfHalves(lo: u64, hi: u64, w: u64)
    ensures var x := lo & hi; (PartOf(lo, hi) ==> PartOf(lo, x)) && PartOf(x, hi) && (PartOf(lo, w) ==> PartOf(x, w))
  {
    hide *;
    BothPart(lo, hi);
    PartOfBoth(lo, hi);
    if PartOf(lo, w) { PartTransitive(lo & hi, lo, w); }
  }

  lemma LeastWithBit9(lo: u64, hi: u64, w: u64)
    ensures var x := (lo & hi) | 0x200;
      && PartOf(0x200, x)
      && (PartOf(lo, hi) ==> PartOf(lo, x) && (PartOf(x, hi) <==> PartOf(0x200, hi)))
      && (PartOf(lo, w) && PartOf(0x200, w) ==> PartOf(x, w))
  {
    hide *;
    var y := lo & hi;
    LeastOfHalves(lo, hi, w);
    WithBit9(y);
    if PartOf(lo, hi) { PartTransitive(lo, y, y | 0x200); }
    if PartOf(y | 0x200, hi) { PartTransitive(0x200, y | 0x200, hi); }
    Bit9Joined(y, hi);
    Bit9Joined(y, w);
  }

  /** SDM appendix A.3 to A.5, on the MSRs themselves: if the low half of the MSR read, the bits that
      must be 1, is part of the high half, those that may be, then the word in the image has the
      former, has only the latter, and is part of every word `w` that has the former. */
  lemma PinLeast(p: Plan, v: Vmcs, msr: u64, lo: u64, hi: u64, w: u64)
    requires var c := p.env.caps;
      Word(msr) == if c.basic.bits & 0x80_0000_0000_0000 != 0 then c.truePin else c.pin
    requires lo == msr & 0xffff_ffff && hi == msr >> 32
    ensures var x := At(Image(p, v), 0x4000).bits;
      (PartOf(lo, hi) ==> PartOf(lo, x)) && PartOf(x, hi) && (PartOf(lo, w) ==> PartOf(x, w))
  {
    hide *;
    ImagePinProcWords(p, v);
    Halves(msr, lo, hi);
    LeastOfHalves(lo, hi, w);
  }

  lemma ProcLeast(p: Plan, v: Vmcs, msr: u64, lo: u64, hi: u64, w: u64)
    requires Word(msr) == p.env.caps.proc && lo == msr & 0xffff_ffff && hi == msr >> 32
    ensures var x := At(Image(p, v), 0x4002).bits;
      (PartOf(lo, hi) ==> PartOf(lo, x)) && PartOf(x, hi) && (PartOf(lo, w) ==> PartOf(x, w))
  {
    hide *;
    ImagePinProcWords(p, v);
    Halves(msr, lo, hi);
    LeastOfHalves(lo, hi, w);
  }

  /** The exit and entry words have bit 9, and have only allowed bits exactly if the MSR allows it. */
  lemma ExitLeast(p: Plan, v: Vmcs, msr: u64, lo: u64, hi: u64, w: u64)
    requires var c := p.env.caps;
      Word(msr) == if c.basic.bits & 0x80_0000_0000_0000 != 0 then c.trueExit else c.exit
    requires lo == msr & 0xffff_ffff && hi == msr >> 32
    ensures var x := At(Image(p, v), 0x400c).bits;
      && PartOf(0x200, x)
      && (PartOf(lo, hi) ==> PartOf(lo, x) && (PartOf(x, hi) <==> PartOf(0x200, hi)))
      && (PartOf(lo, w) && PartOf(0x200, w) ==> PartOf(x, w))
  {
    hide *;
    ImageExitWord(p, v);
    Halves(msr, lo, hi);
    LeastWithBit9(lo, hi, w);
  }

  lemma EntryLeast(p: Plan, v: Vmcs, msr: u64, lo: u64, hi: u64, w: u64)
    requires var c := p.env.caps;
      Word(msr) == if c.basic.bits & 0x80_0000_0000_0000 != 0 then c.trueEntry else c.entry
    requires lo == msr & 0xffff_ffff && hi == msr >> 32
    ensures var x := At(Image(p, v), 0x4012).bits;
      && PartOf(0x200, x)
      && (PartOf(lo, hi) ==> PartOf(lo, x) && (PartOf(x, hi) <==> PartOf(0x200, hi)))
      && (PartOf(lo, w) && PartOf(0x200, w) ==> PartOf(x, w))
  {
    hide *;
    ImageEntryWord(p, v);
    Halves(msr, lo, hi);
    LeastWithBit9(lo, hi, w);
  }

  lemma ImageControlConstants(p: Plan, v: Vmcs)
    ensures var i := Image(p, v);
      && At(i, 0x4004) == Word(0xffff_ffff)
      && At(i, 0x4006) == At(i, 0x4008) == At(i, 0x400a) == At(i, 0x400e) == At(i, 0x4010) == Word(0)
      && At(i, 0x4014) == At(i, 0x4016) == At(i, 0x4018) == At(i, 0x401a) == Word(0)
      && At(i, 0x6000) == At(i, 0x6002) == At(i, 0x6004) == At(i, 0x6006) == Word(0)
      && At(i, 0x6008) == At(i, 0x600a) == At(i, 0x600c) == At(i, 0x600e) == Word(0)
  {
    ReadControl32(Image(p, v));
    ReadControlNatural(Image(p, v));
    hide At, PinWord, ProcWord, ExitWord, EntryWord;
  }

  lemma PlanHolds(env: Env, m: Machine, ioA: Word, ioB: Word)
    ensures PlanOf(env, m, ioA, ioB) == Plan(env, m.regs, m.core.rflags, ioA, ioB)
  {
  }

  predicate FlatLimitsSet(env: Env, r: Regs, f: Vmcs) {
    && At(f, 0x4802) == Word(if env.lar(r.cs).bits & 0x80_0000 != 0 then 0xffff_ffff else 0xffff)
    && At(f, 0x4804) == Word(if env.lar(r.ss).bits & 0x80_0000 != 0 then 0xffff_ffff else 0xffff)
  }

  predicate TrLimitSet(limit: u64, f: Vmcs) { At(f, 0x480e) == Word(limit & 0xffff) }

  /** ES, DS, FS, GS and LDTR. */
  predicate UnusableSet(f: Vmcs) {
    At(f, 0x4814) == At(f, 0x481a) == At(f, 0x481c) == At(f, 0x481e) == At(f, 0x4820) == Word(0x10000)
  }

  predicate PinProcSet(caps: Capabilities, f: Vmcs) {
    var pin := if caps.basic.bits & 0x80_0000_0000_0000 != 0 then caps.truePin else caps.pin;
    && At(f, 0x4000) == Word(pin.bits & (pin.bits >> 32) & 0xffff_ffff)
    && At(f, 0x4002) == Word(caps.proc.bits & (caps.proc.bits >> 32) & 0xffff_ffff)
  }

  predicate ExitSet(caps: Capabilities, f: Vmcs) {
    var exit := if caps.basic.bits & 0x80_0000_0000_0000 != 0 then caps.trueExit else caps.exit;
    At(f, 0x400c) == Word((exit.bits & (exit.bits >> 32) & 0xffff_ffff) | 0x200)
  }

  predicate EntrySet(caps: Capabilities, f: Vmcs) {
    var entry := if caps.basic.bits & 0x80_0000_0000_0000 != 0 then caps.trueEntry else caps.entry;
    At(f, 0x4012) == Word((entry.bits & (entry.bits >> 32) & 0xffff_ffff) | 0x200)
  }

  lemma FlatLimitsInImage(p: Plan, v: Vmcs)
    ensures FlatLimitsSet(p.env, p.regs, Image(p, v))
  {
    ImageFlatLimits(p, v);
    hide At, Image;
  }

  lemma TrLimitHeld(limit: u64, f: Vmcs)
    requires At(f, 0x480e) == Word(limit & 0xffff)
    ensures TrLimitSet(limit, f)
  {
    hide At;
  }

  lemma TrLimitInImage(p: Plan, v: Vmcs)
    ensures TrLimitSet(p.env.lsl(p.regs.tr).bits as u64, Image(p, v))
  {
    hide *;
    ImageTrLimit(p, v);
    TrLimitHeld(p.env.lsl(p.regs.tr).bits as u64, Image(p, v));
  }

  lemma UnusableInImage(p: Plan, v: Vmcs)
    ensures UnusableSet(Image(p, v))
  {
    ImageRights(p, v);
    hide At, Image;
  }

  lemma PinProcInImage(p: Plan, v: Vmcs)
    ensures PinProcSet(p.env.caps, Image(p, v))
  {
    ImagePinProcWords(p, v);
    hide At, Image;
  }

  lemma ExitInImage(p: Plan, v: Vmcs)
    ensures ExitSet(p.env.caps, Image(p, v))
  {
    ImageExitWord(p, v);
    hide At, Image;
  }

  lemma EntryInImage(p: Plan, v: Vmcs)
    ensures EntrySet(p.env.caps, Image(p, v))
  {
    ImageEntryWord(p, v);
    hide At, Image;
  }

  /** The fields whose values the driver computes. */
  lemma ComputedFields(env: Env, m: Machine, ioA: Word, ioB: Word, v: Vmcs)
    ensures var f := Image(PlanOf(env, m, ioA, ioB), v);
      && At(f, 0x2000) == ioA && At(f, 0x2002) == ioB && UnusableSet(f)
      && FlatLimitsSet(env, m.regs, f) && TrLimitSet(env.lsl(m.regs.tr).bits as u64, f)
      && PinProcSet(env.caps, f) && ExitSet(env.caps, f) && EntrySet(env.caps, f)
  {
    hide *;
    var p := PlanOf(env, m, ioA, ioB);
    PlanHolds(env, m, ioA, ioB);
    ImageWide(p, v);
    FlatLimitsInImage(p, v);
    TrLimitInImage(p, v);
    UnusableInImage(p, v);
    PinProcInImage(p, v);
    ExitInImage(p, v);
    EntryInImage(p, v);
  }

  lemma FieldsOf(m: Machine, v: Vmcs)
    ensures WithFields(m, v).vmx.fields == v
  {
  }
}
