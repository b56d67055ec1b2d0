/** Values that fit the width of the VMCS field they are written to (SDM section 24.11.2). */
module Widths {
  import opened Words
  import opened CpuDefs
  import opened VmcsRegions
  import opened Processor
  import opened Segments
  import opened VmcsImage

  predicate Small16(v: Word) { Masked(v, 0xffff) == v }

  predicate Small32(v: Word) { Masked(v, 0xffff_ffff) == v }

  predicate Fits(f: Field, v: Word) {
    match WidthOf(f.group)
    case Bits16 => Small16(v)
    case Bits32 => Small32(v)
    case _ => true
  }

  predicate Writable(m: Machine) { m.vmx.on && m.vmx.current.Some? && InterruptsOff(m) }

  lemma SmallWide(h: Half)
    ensures Small16(Wide(h)) && Small32(Wide(h))
  {
  }

  lemma SmallSelector(h: Half)
    ensures Small16(HostSelector(h))
  {
  }

  lemma SmallRights(lar: Dword)
    ensures Small32(AccessRights(lar))
  {
  }

  lemma SmallLimit(accessRights: Word)
    ensures Small32(FlatLimit(accessRights))
  {
  }

  lemma SmallControl(w: Dword)
    ensures Small32(Wide32(w))
  {
  }

  lemma SmallSysenter(r: Regs)
    ensures Small32(SysenterCs(r))
  {
  }

  lemma SmallConstants()
    ensures Small32(ZERO) && Small32(UNUSABLE_AR) && Small32(Word(0xffff_ffff))
  {
  }

  lemma WriteFits(m: Machine, f: Field, v: Word)
    requires Writable(m) && AreaOf(f.group) != ReadOnly && Fits(f, v)
    ensures Vmwrite(m, f, v) == WithFields(m, Put(m.vmx.fields, f, v))
  {
    hide Put;
  }
}
