/** The processor and kernel primitives the driver is written against: one pure
    step function for each inline of vmm/asm-inlines.h and each service of
    linux/api.c, over one record of machine state.

    Steps follow the Intel SDM, volume 3C. A step that the architecture forbids
    (an instruction that would raise #UD or #GP, a VM entry from the wrong launch
    state, ...) is recorded in `log`, which no step ever shortens. An unchanged
    log at the end of a run therefore says that no such step was taken anywhere
    in it; see Protocol.LogIsExact. */
module Processor {
  import opened Words
  import opened CpuDefs
  import opened VmcsRegions

  datatype Descriptor = Descriptor(limit: Half, base: Word)

  /** The registers that a VM exit loads, fully or in part. */
  datatype Regs = Regs(
    cr0: Word, cr3: Word, cr4: Word,
    es: Half, cs: Half, ss: Half, ds: Half, fs: Half, gs: Half, ldtr: Half, tr: Half,
    fsBase: Word, gsBase: Word, trBase: Word, trLimit: Word,
    gdtr: Descriptor, idtr: Descriptor,
    sysenterCs: Word, sysenterEsp: Word, sysenterEip: Word,
    dr7: Word, debugctl: Word)

  datatype CalleeSaved = CalleeSaved(rbx: Word, rbp: Word, r12: Word, r13: Word, r14: Word, r15: Word)

  datatype Core = Core(rip: Word, rsp: Word, rax: Word, rflags: Word, saved: CalleeSaved, mem: map<Address, Word>)

  datatype VmcsRegion = VmcsRegion(launched: bool, fields: Vmcs)

  /** VMX state. The processor holds the contents of the current VMCS in
      `launched` and `fields`; every other VMCS sits in `store`. */
  datatype Vmx = Vmx(
    on: bool, region: Address, current: Option<Address>, launched: bool, fields: Vmcs,
    active: set<Address>, store: map<Address, VmcsRegion>)

  datatype Kernel = Kernel(pages: set<Address>, allocations: nat, preemptDepth: int)

  datatype Violation =
    | VmxeClearedInVmx
    | VmxonWithoutVmxe
    | OutsideVmx
    | NoCurrentVmcs
    | LaunchNotClear
    | ResumeNotLaunched
    | VmxoffWhileActive
    | InterruptsEnabled
    | GuestProgressed
    | FreedForeignPage
    | FreedActiveVmcs
    | FreedVmxonRegion

  datatype Machine = Machine(
    regs: Regs, core: Core, vmx: Vmx, kernel: Kernel,
    revision: map<Address, Dword>,  // first word of each page
    guest: bool, event: Option<Word>,
    tsc: nat,
    entries: nat,  // VM entries attempted
    visits: nat,   // those that reached the guest
    log: set<Violation>)

  /** What the processor does with a VM entry whose launch state is right:
      refuse it (VMfail), abort it while loading guest state, or run the guest,
      possibly with an event that causes an exit before its first instruction. */
  datatype Outcome = Refused(error: Word) | Aborted(reason: Word) | Runs(event: Option<Word>)

  datatype Capabilities = Capabilities(
    basic: Word, pin: Word, proc: Word, exit: Word, entry: Word,
    truePin: Word, trueProc: Word, trueExit: Word, trueEntry: Word)

  /** Everything a run cannot influence: code addresses, descriptor tables,
      capability MSRs, and an oracle for each nondeterministic outcome.
      `bothFlags` selects how VMXON inside VMX operation reports its failure:
      by CF and ZF together, as vmm/asm-inlines.h:78-79 expects, or by VMfail,
      as the SDM says. */
  datatype Env = Env(
    code: nat -> Word, slot: Word -> nat, guestCode: Word, guestRet: Word,
    lar: Half -> Dword, lsl: Half -> Dword, qword: Address -> Word,
    caps: Capabilities, addressMask: Word, bothFlags: bool,
    outcome: nat -> Outcome, cycles: nat -> nat, overhead: nat -> nat,
    allocate: nat -> Option<Address>)

  /** The state after an instruction and the CF and ZF it leaves. */
  datatype Reply = Reply(m: Machine, flags: u64)

  // ---------------------------------------------------------------- monitor

  predicate InterruptsOff(m: Machine) { !Has(m.core.rflags, RFLAGS_IF) }

  function Flag(m: Machine, bad: bool, v: Violation): Machine {
    if bad then m.(log := m.log + {v}) else m
  }

  /** Every step between preempt_disable and preempt_enable must see IF = 0. */
  function Observe(m: Machine): Machine { Flag(m, !InterruptsOff(m), InterruptsEnabled) }

  /** Monitor of the instructions that need VMX operation and a current VMCS. */
  function ObserveVmcs(m: Machine): Machine {
    Flag(Flag(Observe(m), !m.vmx.on, OutsideVmx), m.vmx.current.None?, NoCurrentVmcs)
  }

  // ------------------------------------------------------------ VMCS access

  function Region(vmx: Vmx, pa: Address): VmcsRegion {
    if vmx.current == Some(pa) then VmcsRegion(vmx.launched, vmx.fields)
    else if pa in vmx.store then vmx.store[pa]
    else VmcsRegion(false, BLANK)
  }

  function WithError(v: Vmcs, error: Word): Vmcs { v.(data32 := v.data32.(vmInstructionError := error)) }

  function WithExitReason(v: Vmcs, reason: Word): Vmcs { v.(data32 := v.data32.(exitReason := reason)) }

  function WithHostRsp(v: Vmcs, rsp: Word): Vmcs { v.(hostNatural := v.hostNatural.(rsp := rsp)) }

  function SaveGuest(v: Vmcs, rip: Word, rsp: Word, rflags: Word): Vmcs {
    v.(guestNatural := v.guestNatural.(rip := rip, rsp := rsp, rflags := rflags))
  }

  function WithFields(m: Machine, v: Vmcs): Machine { m.(vmx := m.vmx.(fields := v)) }

  /** VMfail (SDM section 30.2): VMfailValid(error) if there is a current VMCS,
      VMfailInvalid otherwise. */
  function VmFail(m: Machine, error: Word): Reply {
    if m.vmx.current.Some? then Reply(WithFields(m, WithError(m.vmx.fields, error)), RFLAGS_ZF)
    else Reply(m, RFLAGS_CF)
  }

  function Vmread(m: Machine, field: Field): (Machine, Word) {
    (ObserveVmcs(m), Get(m.vmx.fields, field))
  }

  function Vmwrite(m: Machine, field: Field, value: Word): Machine {
    var m1 := ObserveVmcs(m);
    if !m.vmx.on || m.vmx.current.None? then m1
    else if AreaOf(field.group) == ReadOnly then VmFail(m1, Word(13)).m
    else WithFields(m1, Put(m1.vmx.fields, field, Fit(field, value)))
  }

  // ------------------------------------------------- entering VMX operation

  predicate AddressOk(env: Env, pa: Address) { !Has(pa, 0xfff) && !Has(pa, !env.addressMask.bits) }

  /** The identifier the processor wants in the first word of a VMXON region or
      VMCS: bits 30:0 of IA32_VMX_BASIC. */
  function RequiredRevision(basic: Word): Dword { Low32(basic.bits & 0x7fff_ffff) }

  predicate RevisionOk(env: Env, m: Machine, pa: Address) {
    pa in m.revision && m.revision[pa] == RequiredRevision(env.caps.basic)
  }

  function SetCr4(m: Machine, value: Word): Machine {
    var m1 := Flag(Observe(m), m.vmx.on && !Has(value, CR4_VMXE), VmxeClearedInVmx);
    m1.(regs := m1.regs.(cr4 := value))
  }

  function Vmxon(env: Env, m: Machine, pa: Address): Reply {
    var m1 := Flag(Observe(m), !Has(m.regs.cr4, CR4_VMXE), VmxonWithoutVmxe);
    if m.vmx.on then
      if env.bothFlags then Reply(m1, RFLAGS_CF | RFLAGS_ZF) else VmFail(m1, Word(15))
    else if !Has(m.regs.cr4, CR4_VMXE) || !AddressOk(env, pa) || !RevisionOk(env, m, pa) then Reply(m1, RFLAGS_CF)
    else Reply(m1.(vmx := m1.vmx.(on := true, region := pa, current := None, launched := false, fields := BLANK)), 0)
  }

  function Vmxoff(m: Machine): Machine {
    var m1 := Flag(Flag(Observe(m), !m.vmx.on, OutsideVmx), m.vmx.active != {}, VmxoffWhileActive);
    if m.vmx.on then m1.(vmx := Suspend(m1.vmx).(on := false)) else m1
  }

  /** Writes the current VMCS back to its region and leaves none current. */
  function Suspend(vmx: Vmx): Vmx {
    if vmx.current.None? then vmx
    else vmx.(store := vmx.store[vmx.current.value := VmcsRegion(vmx.launched, vmx.fields)],
              current := None, launched := false, fields := BLANK)
  }

  function Vmptrld(env: Env, m: Machine, pa: Address): Reply {
    var m1 := Flag(Observe(m), !m.vmx.on, OutsideVmx);
    if !m.vmx.on then Reply(m1, RFLAGS_CF)
    else if !AddressOk(env, pa) then VmFail(m1, Word(9))
    else if pa == m.vmx.region then VmFail(m1, Word(10))
    else if !RevisionOk(env, m, pa) then VmFail(m1, Word(11))
    else
      var r := Region(m1.vmx, pa);
      Reply(m1.(vmx := Suspend(m1.vmx).(current := Some(pa), launched := r.launched, fields := r.fields,
                                        active := m1.vmx.active + {pa})), 0)
  }

  function Vmclear(env: Env, m: Machine, pa: Address): Reply {
    var m1 := Flag(Observe(m), !m.vmx.on, OutsideVmx);
    if !m.vmx.on then Reply(m1, RFLAGS_CF)
    else if !AddressOk(env, pa) then VmFail(m1, Word(2))
    else if pa == m.vmx.region then VmFail(m1, Word(3))
    else
      var r := Region(m1.vmx, pa);
      var vmx := if m1.vmx.current == Some(pa) then Suspend(m1.vmx) else m1.vmx;
      Reply(m1.(vmx := vmx.(store := vmx.store[pa := r.(launched := false)], active := vmx.active - {pa})), 0)
  }

  // ---------------------------------------------------------- world switch

  datatype EntryOp = Launch | Resume

  /** Guest registers, as a VM entry loads them (SDM section 26.3.2). DR7 and
      IA32_DEBUGCTL stay as they are unless the VM-entry controls say to load them. */
  function GuestRegs(f: Vmcs, r: Regs): Regs {
    var loads := Has(f.control32.vmentryCtls, LOAD_DEBUG_CONTROLS);
    Regs(f.guestNatural.cr0, f.guestNatural.cr3, f.guestNatural.cr4,
         LowHalf(f.guest16.es), LowHalf(f.guest16.cs), LowHalf(f.guest16.ss), LowHalf(f.guest16.ds),
         LowHalf(f.guest16.fs), LowHalf(f.guest16.gs), LowHalf(f.guest16.ldtr), LowHalf(f.guest16.tr),
         f.guestNatural.bases.fs, f.guestNatural.bases.gs, f.guestNatural.bases.tr, f.guest32.limits.tr,
         Descriptor(LowHalf(f.guest32.limits.gdtr), f.guestNatural.bases.gdtr),
         Descriptor(LowHalf(f.guest32.limits.idtr), f.guestNatural.bases.idtr),
         f.guest32.sysenterCs, f.guestNatural.sysenterEsp, f.guestNatural.sysenterEip,
         if loads then f.guestNatural.dr7 else r.dr7, if loads then f.guest64.debugctl else r.debugctl)
  }

  /** Host registers, as a VM exit loads them (SDM sections 27.5.1 and 27.5.2):
      LDTR is cleared, the GDTR and IDTR limits become 0xffff, the TR limit 0x67. */
  function HostRegs(f: Vmcs): Regs {
    Regs(f.hostNatural.cr0, f.hostNatural.cr3, f.hostNatural.cr4,
         LowHalf(f.host16.es), LowHalf(f.host16.cs), LowHalf(f.host16.ss), LowHalf(f.host16.ds),
         LowHalf(f.host16.fs), LowHalf(f.host16.gs), Half(0), LowHalf(f.host16.tr),
         f.hostNatural.fsBase, f.hostNatural.gsBase, f.hostNatural.trBase, Word(0x67),
         Descriptor(Half(0xffff), f.hostNatural.gdtrBase), Descriptor(Half(0xffff), f.hostNatural.idtrBase),
         f.host32.sysenterCs, f.hostNatural.sysenterEsp, f.hostNatural.sysenterEip,
         Word(0x400), ZERO)
  }

  /** Loads host state: the common end of a VM exit and of an aborted entry
      (SDM sections 27.5 and 26.7). RFLAGS is cleared except for bit 1. */
  function LoadHost(m: Machine, reason: Word): Machine {
    var f := m.vmx.fields;
    var m1 := Flag(m, !Has(f.hostNatural.cr4, CR4_VMXE), VmxeClearedInVmx);
    WithFields(m1, WithExitReason(f, Fit(EXIT_REASON, reason)))
      .(regs := HostRegs(f), guest := false, event := None,
        core := m.core.(rip := f.hostNatural.rip, rsp := f.hostNatural.rsp, rflags := Word(2)))
  }

  /** A VM exit: saves RIP, RSP and RFLAGS of the guest, then loads host state. */
  function VmExit(m: Machine, reason: Word): Machine {
    var f := SaveGuest(m.vmx.fields, m.core.rip, m.core.rsp, m.core.rflags);
    LoadHost(Observe(m).(vmx := m.vmx.(fields := f)), reason)
  }

  /** VMLAUNCH and VMRESUME. On VMfail control falls through to the next
      instruction; otherwise it leaves the instruction stream. */
  function VmEntry(env: Env, m: Machine, op: EntryOp, fallThrough: Word): Machine {
    var m0 := ObserveVmcs(m);
    var m1 := m0.(entries := m.entries + 1, tsc := m.tsc + env.cycles(m.entries));
    var next := m1.(core := m1.core.(rip := fallThrough));
    if !m.vmx.on || m.vmx.current.None? then next
    else if op == Launch && m.vmx.launched then VmFail(Flag(next, true, LaunchNotClear), Word(4)).m
    else if op == Resume && !m.vmx.launched then VmFail(Flag(next, true, ResumeNotLaunched), Word(5)).m
    else match env.outcome(m.entries)
      case Refused(error) => VmFail(next, error).m
      case Aborted(reason) => LoadHost(m1, With(reason, 0x8000_0000))
      case Runs(event) =>
        var f := m.vmx.fields;
        var m2 := Flag(m1, !Has(f.guestNatural.cr4, CR4_VMXE), VmxeClearedInVmx);
        m2.(regs := GuestRegs(f, m.regs), guest := true, event := event, visits := m2.visits + 1,
            vmx := m2.vmx.(launched := true),
            core := m2.core.(rip := f.guestNatural.rip, rsp := f.guestNatural.rsp, rflags := f.guestNatural.rflags))
  }

  // ------------------------------------------------------- other registers

  function SetGdt(m: Machine, d: Descriptor): Machine { Observe(m).(regs := m.regs.(gdtr := d)) }

  function SetIdt(m: Machine, d: Descriptor): Machine { Observe(m).(regs := m.regs.(idtr := d)) }

  // ---------------------------------------------------------- linux/api.c

  /** alloc_page returns a zeroed page that nobody holds, or fails. A freshly
      zeroed page is taken to be a VMCS region in the clear state. */
  function AllocatePage(env: Env, m: Machine): (Machine, Option<Address>) {
    var answer := env.allocate(m.kernel.allocations);
    var m1 := m.(kernel := m.kernel.(allocations := m.kernel.allocations + 1));
    if answer.None? || answer.value in m.kernel.pages then (m1, None)
    else
      var pa := answer.value;
      (m1.(kernel := m1.kernel.(pages := m1.kernel.pages + {pa}), revision := m1.revision[pa := Dword(0)],
           vmx := m1.vmx.(store := m1.vmx.store[pa := VmcsRegion(false, BLANK)])), Some(pa))
  }

  function FreePage(m: Machine, pa: Address): Machine {
    var m1 := Flag(Flag(Flag(m, pa !in m.kernel.pages, FreedForeignPage),
                        pa in m.vmx.active, FreedActiveVmcs),
                   m.vmx.on && m.vmx.region == pa, FreedVmxonRegion);
    m1.(kernel := m1.kernel.(pages := m1.kernel.pages - {pa}))
  }

  function WriteRevision(m: Machine, pa: Address, id: Dword): Machine { m.(revision := m.revision[pa := id]) }

  /** preempt_disable, then local_irq_save: RFLAGS is saved and IF cleared. */
  function PreemptDisable(m: Machine): (Machine, Word) {
    (m.(kernel := m.kernel.(preemptDepth := m.kernel.preemptDepth + 1),
        core := m.core.(rflags := Without(m.core.rflags, RFLAGS_IF))), m.core.rflags)
  }

  /** local_irq_restore, then preempt_enable. */
  function PreemptEnable(m: Machine, saved: Word): Machine {
    m.(kernel := m.kernel.(preemptDepth := m.kernel.preemptDepth - 1), core := m.core.(rflags := saved))
  }
}
