/** What initialize_vmcs must leave in the VMCS: one function of the state before
    it, group by group and in the order of appendix B of the SDM, which is not the
    order in which the driver writes the fields. */
module VmcsImage {
  import opened Words
  import opened CpuDefs
  import opened VmcsRegions
  import opened Processor
  import opened Segments
  import opened Controls
  import opened Trampoline

  /** Everything the values written depend on. */
  datatype Plan = Plan(env: Env, regs: Regs, rflags: Word, ioA: Word, ioB: Word)

  function PlanOf(env: Env, m: Machine, ioA: Word, ioB: Word): Plan { Plan(env, m.regs, m.core.rflags, ioA, ioB) }

  function Wide32(x: Dword): Word { Word(x.bits as u64) }

  function Ar(env: Env, selector: Half): Word { AccessRights(env.lar(selector)) }

  /** The part of IA32_SYSENTER_CS that its 32-bit fields hold. */
  function SysenterCs(r: Regs): Word { Masked(r.sysenterCs, 0xffff_ffff) }

  /** The TR base as it stands in the GDT, at the unmasked selector. */
  function TrBase(env: Env, r: Regs): Word {
    var at := Plus(r.gdtr.base, Wide(r.tr).bits);
    TssBase(env.qword(at), env.qword(Plus(at, 8)))
  }

  function Guest16Image(p: Plan): Guest16State {
    var r := p.regs;
    Guest16State(Wide(r.es), Wide(r.cs), Wide(r.ss), Wide(r.ds), Wide(r.fs), Wide(r.gs), Wide(r.ldtr),
                 HostSelector(r.tr))
  }

  function Guest32Image(p: Plan): Guest32State {
    var r := p.regs;
    Guest32State(
      Limits(Word(0xffff_ffff), FlatLimit(Ar(p.env, r.cs)), FlatLimit(Ar(p.env, r.ss)), Word(0xffff_ffff),
             Word(0xffff_ffff), Word(0xffff_ffff), Word(0xffff_ffff), Wide(Limit16(p.env.lsl(r.tr))),
             Wide(r.gdtr.limit), Wide(r.idtr.limit)),
      Rights(UNUSABLE_AR, Ar(p.env, r.cs), Ar(p.env, r.ss), UNUSABLE_AR,
             UNUSABLE_AR, UNUSABLE_AR, UNUSABLE_AR, Ar(p.env, r.tr)),
      // interruptibility, activity, SMBASE, SYSENTER_CS
      ZERO, ZERO, ZERO, SysenterCs(r))
  }

  /** The last member is the guest's SYSENTER_EIP: the driver gives it the ESP value. */
  function GuestNaturalImage(p: Plan): GuestNaturalState {
    var r := p.regs;
    GuestNaturalState(
      r.cr0, r.cr3, r.cr4,
      Bases(ZERO, ZERO, ZERO, ZERO, r.fsBase, r.gsBase, ZERO, TrBase(p.env, r), r.gdtr.base, r.idtr.base),
      Word(0x400), ZERO, p.env.guestCode, p.rflags, ZERO, r.sysenterEsp, r.sysenterEsp)
  }

  function Host16Image(p: Plan): Host16State {
    var r := p.regs;
    Host16State(HostSelector(r.es), HostSelector(r.cs), HostSelector(r.ss), HostSelector(r.ds),
                HostSelector(r.fs), HostSelector(r.gs), Wide(r.tr))
  }

  /** HOST_RSP keeps its value until the trampoline writes it. */
  function HostNaturalImage(p: Plan, hostRsp: Word): HostNaturalState {
    var r := p.regs;
    HostNaturalState(
      r.cr0, r.cr3, r.cr4, r.fsBase, r.gsBase, TrBase(p.env, r), r.gdtr.base, r.idtr.base,
      r.sysenterEsp, r.sysenterEip, hostRsp, p.env.code(VMX_EXIT))
  }

  function Control32Image(p: Plan): Control32State {
    var caps := p.env.caps;
    Control32State(
      Wide32(PinWord(caps)), Wide32(ProcWord(caps)), Word(0xffff_ffff), ZERO, ZERO, ZERO,
      Wide32(ExitWord(caps)), ZERO, ZERO, Wide32(EntryWord(caps)), ZERO, ZERO, ZERO, ZERO)
  }

  /** The VMCS after initialize_vmcs, if it was `v` before: of the whole VMCS only
      HOST_RSP and the read-only fields are left as they were. */
  function Image(p: Plan, v: Vmcs): Vmcs {
    Vmcs(Guest16Image(p), Guest64State(Word(0xffff_ffff_ffff_ffff), ZERO), Guest32Image(p), GuestNaturalImage(p),
         Host16Image(p), Host32State(SysenterCs(p.regs)), HostNaturalImage(p, v.hostNatural.rsp),
         Control64State(p.ioA, p.ioB, ZERO, ZERO), Control32Image(p), ControlNaturalState(ZERO, ZERO, ZERO, ZERO,
           ZERO, ZERO, ZERO, ZERO),
         v.data32)
  }

  // ------------------------------------------------------ what the image means

  /** What a VM exit makes of the host registers `r`. */
  function HostView(env: Env, r: Regs): Regs {
    Regs(r.cr0, r.cr3, r.cr4,
         LowHalf(HostSelector(r.es)), LowHalf(HostSelector(r.cs)), LowHalf(HostSelector(r.ss)),
         LowHalf(HostSelector(r.ds)), LowHalf(HostSelector(r.fs)), LowHalf(HostSelector(r.gs)), Half(0), r.tr,
         r.fsBase, r.gsBase, TrBase(env, r), Word(0x67),
         Descriptor(Half(0xffff), r.gdtr.base), Descriptor(Half(0xffff), r.idtr.base),
         SysenterCs(r), r.sysenterEsp, r.sysenterEip, Word(0x400), ZERO)
  }

  lemma ImageHostRegs(p: Plan, v: Vmcs)
    ensures HostRegs(Image(p, v)) == HostView(p.env, p.regs)
  {
    WideKept(p.regs.tr);
  }

  lemma ImageArmed(p: Plan, v: Vmcs)
    requires Has(p.regs.cr4, CR4_VMXE) && !Has(p.rflags, RFLAGS_IF)
    ensures Armed(p.env, Image(p, v), HostView(p.env, p.regs))
  {
    ImageHostRegs(p, v);
    hide HostRegs;
  }
}
