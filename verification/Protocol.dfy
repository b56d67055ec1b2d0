/** Runs as sequences of steps, and what the log of violations means: over any such
    sequence it collects exactly the offences that were committed. */
module Protocol {
  import opened Words
  import opened CpuDefs
  import opened VmcsRegions
  import Cpu = Processor
  import opened Processor
  import opened Trampoline
  import opened Measurement

  /** One step: an inline of vmm/asm-inlines.h, a service of linux/api.c, a CALL of the
      assembly code, the next instruction of that code or of the guest, or the passage of
      time. VM entries and exits are not steps of their own: some instruction does them. */
  datatype Op =
    | SetCr4(value: Word)
    | Vmxon(pa: Address)
    | Vmxoff
    | Vmptrld(pa: Address)
    | Vmclear(pa: Address)
    | Vmread(field: Field)
    | Vmwrite(field: Field, value: Word)
    | Enter(entry: EntryOp, fallThrough: Word)
    | Exit(reason: Word)
    | SetGdt(table: Descriptor)
    | SetIdt(table: Descriptor)
    | Allocate
    | Free(pa: Address)
    | WriteRevision(pa: Address, id: Dword)
    | DisableInterrupts
    | EnableInterrupts(saved: Word)
    | CallAsm(entry: EntryOp)
    | NextInstr
    | Pass(cycles: nat)

  function Apply(env: Env, m: Machine, op: Op): Machine {
    match op
    case SetCr4(value) => Cpu.SetCr4(m, value)
    case Vmxon(pa) => Cpu.Vmxon(env, m, pa).m
    case Vmxoff => Cpu.Vmxoff(m)
    case Vmptrld(pa) => Cpu.Vmptrld(env, m, pa).m
    case Vmclear(pa) => Cpu.Vmclear(env, m, pa).m
    case Vmread(field) => Cpu.Vmread(m, field).0
    case Vmwrite(field, value) => Cpu.Vmwrite(m, field, value)
    case Enter(entry, fallThrough) => Cpu.VmEntry(env, m, entry, fallThrough)
    case Exit(reason) => Cpu.VmExit(m, reason)
    case SetGdt(table) => Cpu.SetGdt(m, table)
    case SetIdt(table) => Cpu.SetIdt(m, table)
    case Allocate => Cpu.AllocatePage(env, m).0
    case Free(pa) => Cpu.FreePage(m, pa)
    case WriteRevision(pa, id) => Cpu.WriteRevision(m, pa, id)
    case DisableInterrupts => Cpu.PreemptDisable(m).0
    case EnableInterrupts(saved) => Cpu.PreemptEnable(m, saved)
    case CallAsm(entry) => CallTo(env, m, entry)
    case NextInstr => Step(env, m)
    case Pass(cycles) => Spend(m, cycles)
  }

  // What each step is, away from the others

  lemma IsSetCr4(env: Env, m: Machine, value: Word)
    ensures Apply(env, m, Op.SetCr4(value)) == Cpu.SetCr4(m, value)
  {
    hide Cpu.SetCr4, Cpu.Vmxon, Cpu.Vmxoff, Cpu.Vmptrld, Cpu.Vmclear, Cpu.Vmread, Cpu.Vmwrite, Cpu.VmEntry,
      Cpu.VmExit, Cpu.SetGdt, Cpu.SetIdt, Cpu.AllocatePage, Cpu.FreePage, Cpu.WriteRevision, Cpu.PreemptDisable,
      Cpu.PreemptEnable, CallTo, Step, Spend;
  }

  lemma IsVmxon(env: Env, m: Machine, pa: Address)
    ensures Apply(env, m, Op.Vmxon(pa)) == Cpu.Vmxon(env, m, pa).m
  {
    hide Cpu.SetCr4, Cpu.Vmxon, Cpu.Vmxoff, Cpu.Vmptrld, Cpu.Vmclear, Cpu.Vmread, Cpu.Vmwrite, Cpu.VmEntry,
      Cpu.VmExit, Cpu.SetGdt, Cpu.SetIdt, Cpu.AllocatePage, Cpu.FreePage, Cpu.WriteRevision, Cpu.PreemptDisable,
      Cpu.PreemptEnable, CallTo, Step, Spend;
  }

  lemma IsVmxoff(env: Env, m: Machine)
    ensures Apply(env, m, Op.Vmxoff) == Cpu.Vmxoff(m)
  {
    hide Cpu.SetCr4, Cpu.Vmxon, Cpu.Vmxoff, Cpu.Vmptrld, Cpu.Vmclear, Cpu.Vmread, Cpu.Vmwrite, Cpu.VmEntry,
      Cpu.VmExit, Cpu.SetGdt, Cpu.SetIdt, Cpu.AllocatePage, Cpu.FreePage, Cpu.WriteRevision, Cpu.PreemptDisable,
      Cpu.PreemptEnable, CallTo, Step, Spend;
  }

  lemma IsVmptrld(env: Env, m: Machine, pa: Address)
    ensures Apply(env, m, Op.Vmptrld(pa)) == Cpu.Vmptrld(env, m, pa).m
  {
    hide Cpu.SetCr4, Cpu.Vmxon, Cpu.Vmxoff, Cpu.Vmptrld, Cpu.Vmclear, Cpu.Vmread, Cpu.Vmwrite, Cpu.VmEntry,
      Cpu.VmExit, Cpu.SetGdt, Cpu.SetIdt, Cpu.AllocatePage, Cpu.FreePage, Cpu.WriteRevision, Cpu.PreemptDisable,
      Cpu.PreemptEnable, CallTo, Step, Spend;
  }

  lemma IsVmclear(env: Env, m: Machine, pa: Address)
    ensures Apply(env, m, Op.Vmclear(pa)) == Cpu.Vmclear(env, m, pa).m
  {
    hide Cpu.SetCr4, Cpu.Vmxon, Cpu.Vmxoff, Cpu.Vmptrld, Cpu.Vmclear, Cpu.Vmread, Cpu.Vmwrite, Cpu.VmEntry,
      Cpu.VmExit, Cpu.SetGdt, Cpu.SetIdt, Cpu.AllocatePage, Cpu.FreePage, Cpu.WriteRevision, Cpu.PreemptDisable,
      Cpu.PreemptEnable, CallTo, Step, Spend;
  }

  lemma IsVmread(env: Env, m: Machine, field: Field)
    ensures Apply(env, m, Op.Vmread(field)) == Cpu.Vmread(m, field).0
  {
    hide Cpu.SetCr4, Cpu.Vmxon, Cpu.Vmxoff, Cpu.Vmptrld, Cpu.Vmclear, Cpu.Vmread, Cpu.Vmwrite, Cpu.VmEntry,
      Cpu.VmExit, Cpu.SetGdt, Cpu.SetIdt, Cpu.AllocatePage, Cpu.FreePage, Cpu.WriteRevision, Cpu.PreemptDisable,
      Cpu.PreemptEnable, CallTo, Step, Spend;
  }

  lemma IsVmwrite(env: Env, m: Machine, field: Field, value: Word)
    ensures Apply(env, m, Op.Vmwrite(field, value)) == Cpu.Vmwrite(m, field, value)
  {
    hide Cpu.SetCr4, Cpu.Vmxon, Cpu.Vmxoff, Cpu.Vmptrld, Cpu.Vmclear, Cpu.Vmread, Cpu.Vmwrite, Cpu.VmEntry,
      Cpu.VmExit, Cpu.SetGdt, Cpu.SetIdt, Cpu.AllocatePage, Cpu.FreePage, Cpu.WriteRevision, Cpu.PreemptDisable,
      Cpu.PreemptEnable, CallTo, Step, Spend;
  }

  lemma IsEnter(env: Env, m: Machine, entry: EntryOp, fallThrough: Word)
    ensures Apply(env, m, Op.Enter(entry, fallThrough)) == Cpu.VmEntry(env, m, entry, fallThrough)
  {
    hide Cpu.SetCr4, Cpu.Vmxon, Cpu.Vmxoff, Cpu.Vmptrld, Cpu.Vmclear, Cpu.Vmread, Cpu.Vmwrite, Cpu.VmEntry,
      Cpu.VmExit, Cpu.SetGdt, Cpu.SetIdt, Cpu.AllocatePage, Cpu.FreePage, Cpu.WriteRevision, Cpu.PreemptDisable,
      Cpu.PreemptEnable, CallTo, Step, Spend;
  }

  lemma IsExit(env: Env, m: Machine, reason: Word)
    ensures Apply(env, m, Op.Exit(reason)) == Cpu.VmExit(m, reason)
  {
    hide Cpu.SetCr4, Cpu.Vmxon, Cpu.Vmxoff, Cpu.Vmptrld, Cpu.Vmclear, Cpu.Vmread, Cpu.Vmwrite, Cpu.VmEntry,
      Cpu.VmExit, Cpu.SetGdt, Cpu.SetIdt, Cpu.AllocatePage, Cpu.FreePage, Cpu.WriteRevision, Cpu.PreemptDisable,
      Cpu.PreemptEnable, CallTo, Step, Spend;
  }

  lemma IsSetGdt(env: Env, m: Machine, table: Descriptor)
    ensures Apply(env, m, Op.SetGdt(table)) == Cpu.SetGdt(m, table)
  {
    hide Cpu.SetCr4, Cpu.Vmxon, Cpu.Vmxoff, Cpu.Vmptrld, Cpu.Vmclear, Cpu.Vmread, Cpu.Vmwrite, Cpu.VmEntry,
      Cpu.VmExit, Cpu.SetGdt, Cpu.SetIdt, Cpu.AllocatePage, Cpu.FreePage, Cpu.WriteRevision, Cpu.PreemptDisable,
      Cpu.PreemptEnable, CallTo, Step, Spend;
  }

  lemma IsSetIdt(env: Env, m: Machine, table: Descriptor)
    ensures Apply(env, m, Op.SetIdt(table)) == Cpu.SetIdt(m, table)
  {
    hide Cpu.SetCr4, Cpu.Vmxon, Cpu.Vmxoff, Cpu.Vmptrld, Cpu.Vmclear, Cpu.Vmread, Cpu.Vmwrite, Cpu.VmEntry,
      Cpu.VmExit, Cpu.SetGdt, Cpu.SetIdt, Cpu.AllocatePage, Cpu.FreePage, Cpu.WriteRevision, Cpu.PreemptDisable,
      Cpu.PreemptEnable, CallTo, Step, Spend;
  }

  lemma IsAllocate(env: Env, m: Machine)
    ensures Apply(env, m, Op.Allocate) == Cpu.AllocatePage(env, m).0
  {
    hide Cpu.SetCr4, Cpu.Vmxon, Cpu.Vmxoff, Cpu.Vmptrld, Cpu.Vmclear, Cpu.Vmread, Cpu.Vmwrite, Cpu.VmEntry,
      Cpu.VmExit, Cpu.SetGdt, Cpu.SetIdt, Cpu.AllocatePage, Cpu.FreePage, Cpu.WriteRevision, Cpu.PreemptDisable,
      Cpu.PreemptEnable, CallTo, Step, Spend;
  }

  lemma IsFree(env: Env, m: Machine, pa: Address)
    ensures Apply(env, m, Op.Free(pa)) == Cpu.FreePage(m, pa)
  {
    hide Cpu.SetCr4, Cpu.Vmxon, Cpu.Vmxoff, Cpu.Vmptrld, Cpu.Vmclear, Cpu.Vmread, Cpu.Vmwrite, Cpu.VmEntry,
      Cpu.VmExit, Cpu.SetGdt, Cpu.SetIdt, Cpu.AllocatePage, Cpu.FreePage, Cpu.WriteRevision, Cpu.PreemptDisable,
      Cpu.PreemptEnable, CallTo, Step, Spend;
  }

  lemma IsWriteRevision(env: Env, m: Machine, pa: Address, id: Dword)
    ensures Apply(env, m, Op.WriteRevision(pa, id)) == Cpu.WriteRevision(m, pa, id)
  {
    hide Cpu.SetCr4, Cpu.Vmxon, Cpu.Vmxoff, Cpu.Vmptrld, Cpu.Vmclear, Cpu.Vmread, Cpu.Vmwrite, Cpu.VmEntry,
      Cpu.VmExit, Cpu.SetGdt, Cpu.SetIdt, Cpu.AllocatePage, Cpu.FreePage, Cpu.WriteRevision, Cpu.PreemptDisable,
      Cpu.PreemptEnable, CallTo, Step, Spend;
  }

  lemma IsDisableInterrupts(env: Env, m: Machine)
    ensures Apply(env, m, Op.DisableInterrupts) == Cpu.PreemptDisable(m).0
  {
    hide Cpu.SetCr4, Cpu.Vmxon, Cpu.Vmxoff, Cpu.Vmptrld, Cpu.Vmclear, Cpu.Vmread, Cpu.Vmwrite, Cpu.VmEntry,
      Cpu.VmExit, Cpu.SetGdt, Cpu.SetIdt, Cpu.AllocatePage, Cpu.FreePage, Cpu.WriteRevision, Cpu.PreemptDisable,
      Cpu.PreemptEnable, CallTo, Step, Spend;
  }

  lemma IsEnableInterrupts(env: Env, m: Machine, saved: Word)
    ensures Apply(env, m, Op.EnableInterrupts(saved)) == Cpu.PreemptEnable(m, saved)
  {
    hide Cpu.SetCr4, Cpu.Vmxon, Cpu.Vmxoff, Cpu.Vmptrld, Cpu.Vmclear, Cpu.Vmread, Cpu.Vmwrite, Cpu.VmEntry,
      Cpu.VmExit, Cpu.SetGdt, Cpu.SetIdt, Cpu.AllocatePage, Cpu.FreePage, Cpu.WriteRevision, Cpu.PreemptDisable,
      Cpu.PreemptEnable, CallTo, Step, Spend;
  }

  lemma IsCallAsm(env: Env, m: Machine, entry: EntryOp)
    ensures Apply(env, m, Op.CallAsm(entry)) == CallTo(env, m, entry)
  {
    hide Cpu.SetCr4, Cpu.Vmxon, Cpu.Vmxoff, Cpu.Vmptrld, Cpu.Vmclear, Cpu.Vmread, Cpu.Vmwrite, Cpu.VmEntry,
      Cpu.VmExit, Cpu.SetGdt, Cpu.SetIdt, Cpu.AllocatePage, Cpu.FreePage, Cpu.WriteRevision, Cpu.PreemptDisable,
      Cpu.PreemptEnable, CallTo, Step, Spend;
  }

  lemma IsNextInstr(env: Env, m: Machine)
    ensures Apply(env, m, Op.NextInstr) == Step(env, m)
  {
    hide Cpu.SetCr4, Cpu.Vmxon, Cpu.Vmxoff, Cpu.Vmptrld, Cpu.Vmclear, Cpu.Vmread, Cpu.Vmwrite, Cpu.VmEntry,
      Cpu.VmExit, Cpu.SetGdt, Cpu.SetIdt, Cpu.AllocatePage, Cpu.FreePage, Cpu.WriteRevision, Cpu.PreemptDisable,
      Cpu.PreemptEnable, CallTo, Step, Spend;
  }

  lemma IsPass(env: Env, m: Machine, cycles: nat)
    ensures Apply(env, m, Op.Pass(cycles)) == Spend(m, cycles)
  {
    hide Cpu.SetCr4, Cpu.Vmxon, Cpu.Vmxoff, Cpu.Vmptrld, Cpu.Vmclear, Cpu.Vmread, Cpu.Vmwrite, Cpu.VmEntry,
      Cpu.VmExit, Cpu.SetGdt, Cpu.SetIdt, Cpu.AllocatePage, Cpu.FreePage, Cpu.WriteRevision, Cpu.PreemptDisable,
      Cpu.PreemptEnable, CallTo, Step, Spend;
  }

  /** The privileged part of the next instruction. */
  function Act(env: Env, m: Machine): Option<Op> {
    if m.guest && m.event.Some? then Some(Op.Exit(m.event.value))
    else match Fetch(env, m)
      case VmwriteRsp => Some(Op.Vmwrite(FieldAt(m.core.rax), m.core.rsp))
      case Enter(entry) => Some(Op.Enter(entry, env.code(env.slot(m.core.rip) + 1)))
      case Cpuid => if m.guest then Some(Op.Exit(VMEXIT_CPUID)) else None
      case _ => None
  }

  predicate Progresses(env: Env, m: Machine) {
    m.guest && m.event.None? && (Fetch(env, m).Ret? || Fetch(env, m).Undefined?)
  }

  function Run(env: Env, m: Machine, ops: seq<Op>): Machine {
    if ops == [] then m else Apply(env, Run(env, m, ops[..|ops| - 1]), ops[|ops| - 1])
  }

  // ------------------------------------------------------------------ offences

  predicate Privileged(op: Op) {
    !(op.Allocate? || op.Free? || op.WriteRevision? || op.DisableInterrupts? || op.EnableInterrupts? || op.CallAsm?
      || op.NextInstr? || op.Pass?)
  }

  predicate NeedsVmx(op: Op) {
    op.Vmxoff? || op.Vmptrld? || op.Vmclear? || op.Vmread? || op.Vmwrite? || op.Enter?
  }

  predicate NeedsVmcs(op: Op) { op.Vmread? || op.Vmwrite? || op.Enter? }

  predicate Enters(m: Machine, op: Op) {
    op.Enter? && m.vmx.on && m.vmx.current.Some? && (op.entry == Launch <==> !m.vmx.launched)
  }

  /** Whether `op` loads CR4 from the VMCS: the guest's on entry, the host's otherwise. */
  predicate ClearsVmxe(env: Env, m: Machine, op: Op) {
    match op
    case SetCr4(value) => m.vmx.on && !Has(value, CR4_VMXE)
    case Exit(_) => !Has(m.vmx.fields.hostNatural.cr4, CR4_VMXE)
    case Enter(_, _) =>
      Enters(m, op)
      && (match env.outcome(m.entries)
          case Refused(_) => false
          case Aborted(_) => !Has(m.vmx.fields.hostNatural.cr4, CR4_VMXE)
          case Runs(_) => !Has(m.vmx.fields.guestNatural.cr4, CR4_VMXE))
    case _ => false
  }

  /** Whether `op`, issued in `m`, breaks the rule named `v`; an instruction is judged by
      its privileged part, see Offends. */
  predicate Breaks(env: Env, m: Machine, op: Op, v: Violation) {
    match v
    case InterruptsEnabled => Privileged(op) && !InterruptsOff(m)
    case OutsideVmx => NeedsVmx(op) && !m.vmx.on
    case NoCurrentVmcs => NeedsVmcs(op) && m.vmx.current.None?
    case VmxonWithoutVmxe => op.Vmxon? && !Has(m.regs.cr4, CR4_VMXE)
    case VmxoffWhileActive => op.Vmxoff? && m.vmx.active != {}
    case LaunchNotClear => op.Enter? && op.entry == Launch && m.vmx.on && m.vmx.current.Some? && m.vmx.launched
    case ResumeNotLaunched => op.Enter? && op.entry == Resume && m.vmx.on && m.vmx.current.Some? && !m.vmx.launched
    case FreedForeignPage => op.Free? && op.pa !in m.kernel.pages
    case FreedActiveVmcs => op.Free? && op.pa in m.vmx.active
    case FreedVmxonRegion => op.Free? && m.vmx.on && m.vmx.region == op.pa
    case VmxeClearedInVmx => ClearsVmxe(env, m, op)
    case GuestProgressed => false
  }

  predicate Offends(env: Env, m: Machine, op: Op, v: Violation) {
    if op.NextInstr? then
      (v == GuestProgressed && Progresses(env, m)) || (Act(env, m).Some? && Breaks(env, m, Act(env, m).value, v))
    else Breaks(env, m, op, v)
  }

  lemma FlagRecorded(m: Machine, bad: bool, w: Violation, v: Violation)
    ensures v in Flag(m, bad, w).log <==> v in m.log || (bad && v == w)
  {
  }

  lemma ObserveRecorded(m: Machine, v: Violation)
    ensures v in Observe(m).log <==> v in m.log || (v == InterruptsEnabled && !InterruptsOff(m))
  {
    hide InterruptsOff;
  }

  lemma SetCr4Recorded(env: Env, m: Machine, value: Word, v: Violation)
    ensures v in Apply(env, m, Op.SetCr4(value)).log <==> v in m.log || Breaks(env, m, Op.SetCr4(value), v)
  {
    IsSetCr4(env, m, value);
    ObserveRecorded(m, v);
    FlagRecorded(Observe(m), m.vmx.on && !Has(value, CR4_VMXE), VmxeClearedInVmx, v);
    hide Apply, Has, Flag, Observe, InterruptsOff;
  }

  lemma VmxonLog(env: Env, m: Machine, pa: Address)
    ensures Cpu.Vmxon(env, m, pa).m.log == Flag(Observe(m), !Has(m.regs.cr4, CR4_VMXE), VmxonWithoutVmxe).log
  {
    VmFailSilent(Flag(Observe(m), !Has(m.regs.cr4, CR4_VMXE), VmxonWithoutVmxe), Word(15));
    hide AddressOk, RevisionOk, Has, BLANK, VmFail, Flag, Observe;
  }

  lemma VmxonRecorded(env: Env, m: Machine, pa: Address, v: Violation)
    ensures v in Apply(env, m, Op.Vmxon(pa)).log <==> v in m.log || Breaks(env, m, Op.Vmxon(pa), v)
  {
    IsVmxon(env, m, pa);
    VmxonLog(env, m, pa);
    ObserveRecorded(m, v);
    FlagRecorded(Observe(m), !Has(m.regs.cr4, CR4_VMXE), VmxonWithoutVmxe, v);
    hide Apply, Cpu.Vmxon, Has, Flag, Observe, InterruptsOff;
  }

  lemma VmxoffRecorded(env: Env, m: Machine, v: Violation)
    ensures v in Apply(env, m, Op.Vmxoff).log <==> v in m.log || Breaks(env, m, Op.Vmxoff, v)
  {
    IsVmxoff(env, m);
    InVmxRecorded(m, v);
    FlagRecorded(Flag(Observe(m), !m.vmx.on, OutsideVmx), m.vmx.active != {}, VmxoffWhileActive, v);
    hide Apply, Flag, Observe, Suspend, InterruptsOff;
  }

  lemma InVmxRecorded(m: Machine, v: Violation)
    ensures v in Flag(Observe(m), !m.vmx.on, OutsideVmx).log
      <==> v in m.log || (v == InterruptsEnabled && !InterruptsOff(m)) || (v == OutsideVmx && !m.vmx.on)
  {
    hide InterruptsOff;
  }

  lemma VmptrldLog(env: Env, m: Machine, pa: Address)
    ensures Cpu.Vmptrld(env, m, pa).m.log == Flag(Observe(m), !m.vmx.on, OutsideVmx).log
  {
    var m1 := Flag(Observe(m), !m.vmx.on, OutsideVmx);
    VmFailSilent(m1, Word(9));
    VmFailSilent(m1, Word(10));
    VmFailSilent(m1, Word(11));
    hide Flag, Observe, Suspend, Region, AddressOk, RevisionOk, VmFail;
  }

  lemma VmptrldRecorded(env: Env, m: Machine, pa: Address, v: Violation)
    ensures v in Apply(env, m, Op.Vmptrld(pa)).log <==> v in m.log || Breaks(env, m, Op.Vmptrld(pa), v)
  {
    IsVmptrld(env, m, pa);
    InVmxRecorded(m, v);
    VmptrldLog(env, m, pa);
    hide Apply, Cpu.Vmptrld, Flag, Observe, InterruptsOff;
  }

  lemma VmclearLog(env: Env, m: Machine, pa: Address)
    ensures Cpu.Vmclear(env, m, pa).m.log == Flag(Observe(m), !m.vmx.on, OutsideVmx).log
  {
    var m1 := Flag(Observe(m), !m.vmx.on, OutsideVmx);
    VmFailSilent(m1, Word(2));
    VmFailSilent(m1, Word(3));
    hide Flag, Observe, Suspend, Region, AddressOk, VmFail;
  }

  lemma VmclearRecorded(env: Env, m: Machine, pa: Address, v: Violation)
    ensures v in Apply(env, m, Op.Vmclear(pa)).log <==> v in m.log || Breaks(env, m, Op.Vmclear(pa), v)
  {
    IsVmclear(env, m, pa);
    InVmxRecorded(m, v);
    VmclearLog(env, m, pa);
    hide Apply, Cpu.Vmclear, Flag, Observe, InterruptsOff;
  }

  lemma VmreadRecorded(env: Env, m: Machine, field: Field, v: Violation)
    ensures v in Apply(env, m, Op.Vmread(field)).log <==> v in m.log || Breaks(env, m, Op.Vmread(field), v)
  {
    IsVmread(env, m, field);
    ObserveVmcsRecorded(m, v);
    hide Apply, ObserveVmcs, InterruptsOff, Get;
  }

  lemma VmwriteLog(m: Machine, field: Field, value: Word)
    ensures Cpu.Vmwrite(m, field, value).log == ObserveVmcs(m).log
  {
    VmFailSilent(ObserveVmcs(m), Word(13));
    hide ObserveVmcs, VmFail, Put, Fit;
  }

  lemma VmwriteRecorded(env: Env, m: Machine, field: Field, value: Word, v: Violation)
    ensures var op := Op.Vmwrite(field, value); v in Apply(env, m, op).log <==> v in m.log || Breaks(env, m, op, v)
  {
    IsVmwrite(env, m, field, value);
    VmwriteLog(m, field, value);
    ObserveVmcsRecorded(m, v);
    hide Apply, Cpu.Vmwrite, ObserveVmcs, InterruptsOff;
  }

  lemma ExitRecorded(env: Env, m: Machine, reason: Word, v: Violation)
    ensures v in Apply(env, m, Op.Exit(reason)).log <==> v in m.log || Breaks(env, m, Op.Exit(reason), v)
  {
    IsExit(env, m, reason);
    hide Apply, HostRegs, Fit, Has, WithExitReason;
  }

  lemma VmFailSilent(m: Machine, error: Word)
    ensures VmFail(m, error).m.log == m.log
  {
  }

  lemma ObserveVmcsRecorded(m: Machine, v: Violation)
    ensures v in ObserveVmcs(m).log
      <==> || v in m.log || (v == InterruptsEnabled && !InterruptsOff(m)) || (v == OutsideVmx && !m.vmx.on)
           || (v == NoCurrentVmcs && m.vmx.current.None?)
  {
    hide InterruptsOff;
  }

  /** The log of a VM entry that neither reaches the guest nor loads host state. */
  lemma NoEntryLog(env: Env, m: Machine, entry: EntryOp, fallThrough: Word)
    requires !Enters(m, Op.Enter(entry, fallThrough)) || env.outcome(m.entries).Refused?
    ensures VmEntry(env, m, entry, fallThrough).log == ObserveVmcs(m).log
      + (if !m.vmx.on || m.vmx.current.None? || Enters(m, Op.Enter(entry, fallThrough)) then {}
         else if entry == Launch then {LaunchNotClear} else {ResumeNotLaunched})
  {
    forall a: Machine, error: Word ensures VmFail(a, error).m.log == a.log { VmFailSilent(a, error); }
    hide LoadHost, GuestRegs, Has, VmFail, With, ObserveVmcs;
  }

  /** What the rules say of such an entry. */
  lemma NoEntryBreaks(env: Env, m: Machine, entry: EntryOp, fallThrough: Word, v: Violation)
    requires !Enters(m, Op.Enter(entry, fallThrough)) || env.outcome(m.entries).Refused?
    ensures Breaks(env, m, Op.Enter(entry, fallThrough), v)
      <==> || (v == InterruptsEnabled && !InterruptsOff(m)) || (v == OutsideVmx && !m.vmx.on)
           || (v == NoCurrentVmcs && m.vmx.current.None?)
           || (m.vmx.on && m.vmx.current.Some? && !Enters(m, Op.Enter(entry, fallThrough))
               && v == if entry == Launch then LaunchNotClear else ResumeNotLaunched)
  {
    hide InterruptsOff, Has;
  }

  lemma NoEntryRecorded(env: Env, m: Machine, entry: EntryOp, fallThrough: Word, v: Violation)
    requires !Enters(m, Op.Enter(entry, fallThrough)) || env.outcome(m.entries).Refused?
    ensures var op := Op.Enter(entry, fallThrough); v in Apply(env, m, op).log <==> v in m.log || Breaks(env, m, op, v)
  {
    hide *;
    IsEnter(env, m, entry, fallThrough);
    NoEntryLog(env, m, entry, fallThrough);
    NoEntryBreaks(env, m, entry, fallThrough, v);
    ObserveVmcsRecorded(m, v);
  }

  /** Whether the CR4 that an entry loads, in the guest or after an abort, clears VMXE. */
  predicate LoadsNoVmxe(env: Env, m: Machine) {
    if env.outcome(m.entries).Aborted? then !Has(m.vmx.fields.hostNatural.cr4, CR4_VMXE)
    else !Has(m.vmx.fields.guestNatural.cr4, CR4_VMXE)
  }

  lemma EntryLog(env: Env, m: Machine, entry: EntryOp, fallThrough: Word)
    requires Enters(m, Op.Enter(entry, fallThrough)) && !env.outcome(m.entries).Refused?
    ensures VmEntry(env, m, entry, fallThrough).log == Flag(ObserveVmcs(m), LoadsNoVmxe(env, m), VmxeClearedInVmx).log
  {
    ObservedFields(m);
    hide HostRegs, GuestRegs, Fit, Has, WithExitReason, With, VmFail, ObserveVmcs;
  }

  lemma ObservedFields(m: Machine)
    ensures ObserveVmcs(m).vmx == m.vmx
  {
    hide InterruptsOff;
  }

  lemma EntryRecorded(env: Env, m: Machine, entry: EntryOp, fallThrough: Word, v: Violation)
    requires Enters(m, Op.Enter(entry, fallThrough)) && !env.outcome(m.entries).Refused?
    ensures var op := Op.Enter(entry, fallThrough); v in Apply(env, m, op).log <==> v in m.log || Breaks(env, m, op, v)
  {
    hide Apply, VmEntry, Flag, ObserveVmcs, InterruptsOff, Has;
    IsEnter(env, m, entry, fallThrough);
    EntryLog(env, m, entry, fallThrough);
    ObserveVmcsRecorded(m, v);
    FlagRecorded(ObserveVmcs(m), LoadsNoVmxe(env, m), VmxeClearedInVmx, v);
  }

  lemma EnterRecorded(env: Env, m: Machine, entry: EntryOp, fallThrough: Word, v: Violation)
    ensures var op := Op.Enter(entry, fallThrough); v in Apply(env, m, op).log <==> v in m.log || Breaks(env, m, op, v)
  {
    IsEnter(env, m, entry, fallThrough);
    hide Apply, Apply, Breaks, Enters;
    if Enters(m, Op.Enter(entry, fallThrough)) && !env.outcome(m.entries).Refused? {
      EntryRecorded(env, m, entry, fallThrough, v);
    } else {
      NoEntryRecorded(env, m, entry, fallThrough, v);
    }
  }

  lemma FreeRecorded(env: Env, m: Machine, pa: Address, v: Violation)
    ensures v in Apply(env, m, Op.Free(pa)).log <==> v in m.log || Breaks(env, m, Op.Free(pa), v)
  {
    IsFree(env, m, pa);
    hide Apply, Has;
  }

  lemma TableRecorded(env: Env, m: Machine, op: Op, v: Violation)
    requires op.SetGdt? || op.SetIdt?
    ensures v in Apply(env, m, op).log <==> v in m.log || Breaks(env, m, op, v)
  {
    hide Apply, Has;
    if op.SetGdt? { IsSetGdt(env, m, op.table); } else { IsSetIdt(env, m, op.table); }
  }

  lemma OtherRecorded(env: Env, m: Machine, op: Op, v: Violation)
    requires !(Privileged(op) || op.Free? || op.NextInstr?)
    ensures v in Apply(env, m, op).log <==> v in m.log || Breaks(env, m, op, v)
  {
    hide Apply, Has, BLANK, Minus, Without;
    match op {
      case Allocate => IsAllocate(env, m);
      case WriteRevision(pa, id) => IsWriteRevision(env, m, pa, id);
      case DisableInterrupts => IsDisableInterrupts(env, m);
      case EnableInterrupts(saved) => IsEnableInterrupts(env, m, saved);
      case CallAsm(entry) => IsCallAsm(env, m, entry);
      case Pass(cycles) => IsPass(env, m, cycles);
    }
  }

  lemma PrimitiveRecorded(env: Env, m: Machine, op: Op, v: Violation)
    requires !op.NextInstr?
    ensures v in Apply(env, m, op).log <==> v in m.log || Breaks(env, m, op, v)
  {
    hide Apply, Breaks;
    match op {
      case SetCr4(value) => SetCr4Recorded(env, m, value, v);
      case Vmxon(pa) => VmxonRecorded(env, m, pa, v);
      case Vmxoff => VmxoffRecorded(env, m, v);
      case Vmptrld(pa) => VmptrldRecorded(env, m, pa, v);
      case Vmclear(pa) => VmclearRecorded(env, m, pa, v);
      case Vmread(field) => VmreadRecorded(env, m, field, v);
      case Vmwrite(field, value) => VmwriteRecorded(env, m, field, value, v);
      case Exit(reason) => ExitRecorded(env, m, reason, v);
      case Enter(entry, fallThrough) => EnterRecorded(env, m, entry, fallThrough, v);
      case Free(pa) => FreeRecorded(env, m, pa, v);
      case SetGdt(_) | SetIdt(_) => TableRecorded(env, m, op, v);
      case _ => OtherRecorded(env, m, op, v);
    }
  }

  /** An instruction does to all but RIP what its privileged part does. */
  lemma InstrActs(env: Env, m: Machine)
    requires Act(env, m).Some?
    ensures var a := Apply(env, m, Act(env, m).value); Step(env, m) == a.(core := a.core.(rip := Step(env, m).core.rip))
    ensures !Progresses(env, m)
  {
    hide Cpu.VmExit, Cpu.VmEntry, Cpu.Vmwrite, FieldAt;
  }

  lemma PlainInstr(env: Env, m: Machine)
    requires Act(env, m).None?
    ensures var added := if Progresses(env, m) then {GuestProgressed} else {};
      Step(env, m) == m.(core := Step(env, m).core, log := m.log + added)
  {
    hide Cpu.VmExit, Cpu.VmEntry, Cpu.Vmwrite, FieldAt;
  }

  lemma InstrRecorded(env: Env, m: Machine, v: Violation)
    ensures v in Apply(env, m, NextInstr).log <==> v in m.log || Offends(env, m, NextInstr, v)
  {
    if Act(env, m).Some? {
      InstrActs(env, m);
      PrimitiveRecorded(env, m, Act(env, m).value, v);
    } else {
      PlainInstr(env, m);
    }
    hide Act, Step, Progresses, Breaks;
  }

  /** A step adds to the log exactly the rules it breaks. */
  lemma StepRecorded(env: Env, m: Machine, op: Op, v: Violation)
    ensures v in Apply(env, m, op).log <==> v in m.log || Offends(env, m, op, v)
  {
    hide Apply, Breaks, Act, Progresses;
    if op.NextInstr? { InstrRecorded(env, m, v); } else { PrimitiveRecorded(env, m, op, v); }
  }

  /** Over a whole run the log collects exactly the offences of its steps, each
      judged in the state in which it was taken. */
  lemma {:induction false} LogIsExact(env: Env, m: Machine, ops: seq<Op>, v: Violation)
    ensures v in Run(env, m, ops).log
        <==> v in m.log || exists i :: 0 <= i < |ops| && Offends(env, Run(env, m, ops[..i]), ops[i], v)
  {
    hide Apply, Offends;
    if ops != [] {
      var n := |ops| - 1;
      var before := ops[..n];
      LogIsExact(env, m, before, v);
      StepRecorded(env, Run(env, m, before), ops[n], v);
      assert Run(env, m, ops) == Apply(env, Run(env, m, before), ops[n]);
      hide Run;
      assert forall i :: 0 <= i < n ==> before[i] == ops[i] && before[..i] == ops[..i];
    }
  }

  // ---------------------------------------------------------------- invariant

  /** VMX operation needs CR4.VMXE, and only VMX operation has a current VMCS. */
  ghost predicate Sane(m: Machine) {
    && (m.vmx.on ==> Has(m.regs.cr4, CR4_VMXE))
    && (m.vmx.current.Some? ==> m.vmx.on && m.vmx.current.value in m.vmx.active)
    && (m.guest ==> m.vmx.on)
  }

  lemma EntrySane(env: Env, m: Machine, op: Op)
    requires Sane(m) && !ClearsVmxe(env, m, op) && !m.guest && op.Enter?
    ensures Sane(Apply(env, m, op))
  {
    hide Apply, Has, Fit, With;
    IsEnter(env, m, op.entry, op.fallThrough);
  }

  lemma ExitSane(env: Env, m: Machine, op: Op)
    requires Sane(m) && !ClearsVmxe(env, m, op) && m.guest && op.Exit?
    ensures Sane(Apply(env, m, op))
  {
    hide Apply, Has, Fit;
    IsExit(env, m, op.reason);
  }

  lemma VmxSane(env: Env, m: Machine, op: Op)
    requires Sane(m) && !m.guest && (op.Vmxon? || op.Vmxoff?)
    ensures Sane(Apply(env, m, op))
  {
    hide Apply, Has, Region, AddressOk, RevisionOk, BLANK, WithError;
    if op.Vmxon? { IsVmxon(env, m, op.pa); } else { IsVmxoff(env, m); }
  }

  lemma VmFailSane(m: Machine, error: Word)
    requires Sane(m)
    ensures Sane(VmFail(m, error).m)
  {
    hide Has, WithError;
  }

  predicate Loads(env: Env, m: Machine, pa: Address) {
    m.vmx.on && AddressOk(env, pa) && pa != m.vmx.region && RevisionOk(env, m, pa)
  }

  lemma LoadSane(env: Env, m: Machine, pa: Address)
    requires Sane(m) && !m.guest && Loads(env, m, pa)
    ensures Sane(Apply(env, m, Op.Vmptrld(pa)))
  {
    IsVmptrld(env, m, pa);
    SuspendOn(m.vmx);
    hide Apply, Has, Region, AddressOk, RevisionOk, VmFail, Suspend;
  }

  lemma NoLoadSane(env: Env, m: Machine, pa: Address)
    requires Sane(m) && !Loads(env, m, pa)
    ensures Sane(Apply(env, m, Op.Vmptrld(pa)))
  {
    IsVmptrld(env, m, pa);
    var m1 := Flag(Observe(m), !m.vmx.on, OutsideVmx);
    assert Sane(m1);
    VmFailSane(m1, Word(9));
    VmFailSane(m1, Word(10));
    VmFailSane(m1, Word(11));
    hide Apply, Has, Region, AddressOk, RevisionOk, VmFail, Suspend, Sane;
  }

  lemma VmptrldSane(env: Env, m: Machine, pa: Address)
    requires Sane(m) && !m.guest
    ensures Sane(Apply(env, m, Op.Vmptrld(pa)))
  {
    hide *;
    if Loads(env, m, pa) { LoadSane(env, m, pa); } else { NoLoadSane(env, m, pa); }
  }

  predicate Clears(env: Env, m: Machine, pa: Address) { m.vmx.on && AddressOk(env, pa) && pa != m.vmx.region }

  lemma ClearSane(env: Env, m: Machine, pa: Address)
    requires Sane(m) && !m.guest && Clears(env, m, pa)
    ensures Sane(Apply(env, m, Op.Vmclear(pa)))
  {
    hide Apply, Has, Region, AddressOk, VmFail, Suspend;
    IsVmclear(env, m, pa);
    SuspendOn(m.vmx);
  }

  lemma NoClearSane(env: Env, m: Machine, pa: Address)
    requires Sane(m) && !Clears(env, m, pa)
    ensures Sane(Apply(env, m, Op.Vmclear(pa)))
  {
    hide Apply, Has, Region, AddressOk, VmFail, Suspend;
    IsVmclear(env, m, pa);
    var m1 := Flag(Observe(m), !m.vmx.on, OutsideVmx);
    assert Sane(m1);
    VmFailSane(m1, Word(2));
    VmFailSane(m1, Word(3));
    hide Sane;
  }

  lemma VmclearSane(env: Env, m: Machine, pa: Address)
    requires Sane(m) && !m.guest
    ensures Sane(Apply(env, m, Op.Vmclear(pa)))
  {
    hide *;
    if Clears(env, m, pa) { ClearSane(env, m, pa); } else { NoClearSane(env, m, pa); }
  }

  lemma SuspendOn(vmx: Vmx)
    ensures Suspend(vmx).on == vmx.on && Suspend(vmx).current.None?
  {
  }

  lemma OtherSane(env: Env, m: Machine, op: Op)
    requires Sane(m) && !ClearsVmxe(env, m, op) && !m.guest
    requires op.Vmread? || op.Vmwrite? || !(NeedsVmx(op) || op.Exit? || op.Vmxon? || op.NextInstr?)
    ensures Sane(Apply(env, m, op))
  {
    hide Has, Put, Get, Fit, BLANK, WithError, Minus;
  }

  lemma PrimitiveSane(env: Env, m: Machine, op: Op)
    requires Sane(m) && !ClearsVmxe(env, m, op) && (m.guest <==> op.Exit?) && !op.NextInstr?
    ensures Sane(Apply(env, m, op))
  {
    hide Apply, Sane, ClearsVmxe;
    if op.Enter? { EntrySane(env, m, op); }
    else if op.Exit? { ExitSane(env, m, op); }
    else if op.Vmxon? || op.Vmxoff? { VmxSane(env, m, op); }
    else if op.Vmptrld? { VmptrldSane(env, m, op.pa); }
    else if op.Vmclear? { VmclearSane(env, m, op.pa); }
    else { OtherSane(env, m, op); }
  }

  lemma GuestActs(env: Env, m: Machine)
    requires Act(env, m).Some?
    ensures m.guest <==> Act(env, m).value.Exit?
    ensures !Act(env, m).value.NextInstr?
  {
    hide FieldAt;
  }

  lemma InstrSane(env: Env, m: Machine)
    requires Sane(m) && !Offends(env, m, NextInstr, VmxeClearedInVmx)
    ensures Sane(Apply(env, m, NextInstr))
  {
    hide Act, Step, Progresses, ClearsVmxe, Has;
    if Act(env, m).Some? {
      GuestActs(env, m);
      InstrActs(env, m);
      PrimitiveSane(env, m, Act(env, m).value);
    } else {
      PlainInstr(env, m);
    }
  }

  /** The guest runs only by its own instructions; a VM exit ends each stay. */
  predicate InTurn(m: Machine, op: Op) { if op.Exit? then m.guest else m.guest ==> op.NextInstr? }

  lemma StepSane(env: Env, m: Machine, op: Op)
    requires Sane(m) && InTurn(m, op) && !Offends(env, m, op, VmxeClearedInVmx)
    ensures Sane(Apply(env, m, op))
  {
    hide Apply, Sane, ClearsVmxe, Act;
    if op.NextInstr? { InstrSane(env, m); } else { PrimitiveSane(env, m, op); }
  }

  ghost predicate WellNested(env: Env, m: Machine, ops: seq<Op>) {
    forall i :: 0 <= i < |ops| ==> InTurn(Run(env, m, ops[..i]), ops[i])
  }

  /** If the log of a run does not hold VmxeClearedInVmx, then at every point of it
      VMX operation implies CR4.VMXE, and a current VMCS implies VMX operation. */
  lemma {:induction false} SaneThroughout(env: Env, m: Machine, ops: seq<Op>, k: nat)
    requires Sane(m) && WellNested(env, m, ops) && k <= |ops|
    requires VmxeClearedInVmx !in Run(env, m, ops).log
    ensures Sane(Run(env, m, ops[..k]))
  {
    if k > 0 {
      SaneThroughout(env, m, ops, k - 1);
      LogIsExact(env, m, ops, VmxeClearedInVmx);
      hide Apply, Offends, Sane, InTurn;
      assert !Offends(env, Run(env, m, ops[..k - 1]), ops[k - 1], VmxeClearedInVmx);
      StepSane(env, Run(env, m, ops[..k - 1]), ops[k - 1]);
      assert ops[..k][..k - 1] == ops[..k - 1];
    }
  }
}
