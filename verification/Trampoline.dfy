/** The world-switch code of linux/vmentry.S and the guest of linux/guest.S, run
    instruction by instruction, and the proof that do_vmlaunch and do_vmresume
    nevertheless behave as ordinary function calls. */
module Trampoline {
  import opened Words
  import opened CpuDefs
  import opened VmcsRegions
  import opened Processor

  datatype Instr =
    | MovRax(value: Word)
    | VmwriteRsp          // vmwrite %rsp, %rax
    | Enter(op: EntryOp)
    | Jmp(target: nat)
    | XorRax
    | Ret
    | Cpuid
    | Undefined

  // Slots of the labels in linux/vmentry.S
  const DO_VMLAUNCH := 0
  const DO_VMRESUME := 4
  const ENTRY_ERROR := 7
  const VMX_EXIT := 9
  const VMX_RETURN := 10

  function Load(mem: map<Address, Word>, at: Address): Word {
    if at in mem then mem[at] else ZERO
  }

  /** linux/vmentry.S, one slot an instruction. */
  function HostCode(slot: nat): Instr {
    match slot
    case 0 => MovRax(HOST_RSP_NUMBER)
    case 1 => VmwriteRsp
    case 2 => Enter(Launch)
    case 3 => Jmp(ENTRY_ERROR)
    case 4 => MovRax(HOST_RSP_NUMBER)
    case 5 => VmwriteRsp
    case 6 => Enter(Resume)
    case 7 => MovRax(Word(1))
    case 8 => Jmp(VMX_RETURN)
    case 9 => XorRax
    case 10 => Ret
    case _ => Undefined
  }

  /** `code` places the slots in memory and `slot` is its inverse. */
  ghost predicate LayoutOk(env: Env) { forall k: nat :: k <= VMX_RETURN ==> env.slot(env.code(k)) == k }

  /** linux/guest.S in the guest, linux/vmentry.S in the host. */
  function Fetch(env: Env, m: Machine): Instr {
    if m.guest then
      if m.core.rip == env.guestCode then Cpuid else if m.core.rip == env.guestRet then Ret else Undefined
    else HostCode(env.slot(m.core.rip))
  }

  /** One instruction. In the guest a pending event exits first, and CPUID always
      exits with RIP still at the CPUID (SDM sections 25.1.2 and 27.3.3). */
  function Step(env: Env, m: Machine): Machine {
    var next := env.code(env.slot(m.core.rip) + 1);
    if m.guest && m.event.Some? then VmExit(m, m.event.value) else
    match Fetch(env, m)
    case MovRax(value) => m.(core := m.core.(rip := next, rax := value))
    case VmwriteRsp =>
      var w := Vmwrite(m, FieldAt(m.core.rax), m.core.rsp);
      w.(core := w.core.(rip := next))
    case Enter(op) => VmEntry(env, m, op, next)
    case Jmp(target) => m.(core := m.core.(rip := env.code(target)))
    case XorRax => m.(core := m.core.(rip := next, rax := ZERO))
    case Ret =>
      Flag(m, m.guest, GuestProgressed)
        .(core := m.core.(rip := Load(m.core.mem, m.core.rsp), rsp := Plus(m.core.rsp, 8)))
    case Cpuid => if m.guest then VmExit(m, VMEXIT_CPUID) else m.(core := m.core.(rip := next))
    case Undefined => Flag(m, m.guest, GuestProgressed)
  }

  function Steps(env: Env, m: Machine, k: nat): Machine {
    if k == 0 then m else Step(env, Steps(env, m, k - 1))
  }

  function EntryPoint(op: EntryOp): nat { if op == Launch then DO_VMLAUNCH else DO_VMRESUME }

  /** The CALL instruction of the C caller; `m.core.rip` is its return address. */
  function CallTo(env: Env, m: Machine, op: EntryOp): Machine {
    var slot := Minus(m.core.rsp, 8);
    m.(core := m.core.(mem := m.core.mem[slot := m.core.rip], rsp := slot, rip := env.code(EntryPoint(op))))
  }

  // ------------------------------------------------------------- the session

  /** The VMCS contents a session relies on: a VM exit gives the host `x` and
      resumes it at vmx_exit, and the guest stands at its first instruction. */
  ghost predicate Armed(env: Env, f: Vmcs, x: Regs) {
    && HostRegs(f) == x && Has(x.cr4, CR4_VMXE)
    && f.hostNatural.rip == env.code(VMX_EXIT)
    && Has(f.guestNatural.cr4, CR4_VMXE)
    && f.guestNatural.rip == env.guestCode
    && !Has(f.guestNatural.rflags, RFLAGS_IF)
  }

  /** Host code runs with interrupts off, and our armed VMCS is current. */
  ghost predicate Session(env: Env, m: Machine, pa: Address, x: Regs) {
    && m.vmx.on && m.vmx.current == Some(pa) && pa in m.vmx.active
    && pa != m.vmx.region && AddressOk(env, pa)
    && !m.guest && m.event.None? && InterruptsOff(m)
    && Armed(env, m.vmx.fields, x)
  }

  /** How a VM entry attempted in a session ends. */
  datatype Ending = Failed(error: Word) | Exited(reason: Word)

  function EndingOf(env: Env, m: Machine, op: EntryOp): Ending {
    if op == Launch && m.vmx.launched then Failed(Word(4))
    else if op == Resume && !m.vmx.launched then Failed(Word(5))
    else match env.outcome(m.entries)
      case Refused(error) => Failed(error)
      case Aborted(reason) => Exited(Fit(EXIT_REASON, With(reason, 0x8000_0000)))
      case Runs(event) => Exited(Fit(EXIT_REASON, if event.Some? then event.value else VMEXIT_CPUID))
  }

  function EntryViolations(m: Machine, op: EntryOp): set<Violation> {
    if op == Launch && m.vmx.launched then {LaunchNotClear}
    else if op == Resume && !m.vmx.launched then {ResumeNotLaunched}
    else {}
  }

  predicate GuestRan(env: Env, m: Machine, op: EntryOp) {
    (op == Launch <==> !m.vmx.launched) && env.outcome(m.entries).Runs?
  }

  /** The effect of one call of do_vmlaunch or do_vmresume, as its C caller sees
      it: RIP, RSP and the callee-saved registers are not updated. */
  function Attempt(env: Env, m: Machine, op: EntryOp): Machine {
    var slot := Minus(m.core.rsp, 8);
    var ending := EndingOf(env, m, op);
    var f := WithHostRsp(m.vmx.fields, slot);
    m.(core := m.core.(mem := m.core.mem[slot := m.core.rip],
                       rax := if ending.Exited? then ZERO else Word(1),
                       rflags := if ending.Exited? then Word(2) else m.core.rflags),
       regs := if ending.Exited? then HostRegs(m.vmx.fields) else m.regs,
       vmx := m.vmx.(launched := m.vmx.launched || GuestRan(env, m, op),
                     fields := if ending.Exited? then WithExitReason(f, ending.reason)
                               else WithError(f, ending.error)),
       tsc := m.tsc + env.cycles(m.entries), entries := m.entries + 1,
       visits := m.visits + (if GuestRan(env, m, op) then 1 else 0),
       log := m.log + EntryViolations(m, op))
  }

  // ------------------------------------------------------------------ proofs

  /** The number of instructions from the call to the RET that ends it. */
  function PathLength(env: Env, m: Machine, op: EntryOp): nat {
    if EndingOf(env, m, op).Failed? then (if op == Launch then 6 else 5)
    else if GuestRan(env, m, op) then 5
    else 4
  }

  predicate AtReturn(env: Env, m: Machine) { !m.guest && Fetch(env, m) == Ret }

  /** The state in which VMLAUNCH or VMRESUME is reached. */
  function Prepared(env: Env, m: Machine, op: EntryOp): Machine {
    var c := CallTo(env, m, op);
    WithFields(c, WithHostRsp(c.vmx.fields, c.core.rsp)).(core := c.core.(rip := env.code(EntryPoint(op) + 2),
      rax := HOST_RSP_NUMBER))
  }

  // What each host instruction does, away from the others

  lemma StepMov(env: Env, m: Machine, value: Word)
    requires !m.guest && Fetch(env, m) == MovRax(value)
    ensures Step(env, m) == m.(core := m.core.(rip := env.code(env.slot(m.core.rip) + 1), rax := value))
  {
    hide VmExit, VmEntry, Vmwrite, FieldAt;
  }

  lemma VmwriteHostRsp(m: Machine, value: Word)
    requires m.vmx.on && m.vmx.current.Some? && InterruptsOff(m)
    ensures Vmwrite(m, HOST_RSP, value) == WithFields(m, WithHostRsp(m.vmx.fields, value))
  {
  }

  lemma StepVmwrite(env: Env, m: Machine)
    requires !m.guest && Fetch(env, m) == VmwriteRsp
    requires m.vmx.on && m.vmx.current.Some? && InterruptsOff(m) && m.core.rax == HOST_RSP_NUMBER
    ensures Step(env, m) == WithFields(m, WithHostRsp(m.vmx.fields, m.core.rsp))
                              .(core := m.core.(rip := env.code(env.slot(m.core.rip) + 1)))
  {
    hide VmExit, VmEntry, Vmwrite, InterruptsOff;
    HostRspNumber();
    hide FieldAt;
    VmwriteHostRsp(m, m.core.rsp);
  }

  lemma StepEnter(env: Env, m: Machine, op: EntryOp)
    requires !m.guest && Fetch(env, m) == Enter(op)
    ensures Step(env, m) == VmEntry(env, m, op, env.code(env.slot(m.core.rip) + 1))
  {
    hide VmExit, VmEntry, Vmwrite, FieldAt;
  }

  lemma StepJmp(env: Env, m: Machine, target: nat)
    requires !m.guest && Fetch(env, m) == Jmp(target)
    ensures Step(env, m) == m.(core := m.core.(rip := env.code(target)))
  {
    hide VmExit, VmEntry, Vmwrite, FieldAt;
  }

  lemma StepXor(env: Env, m: Machine)
    requires !m.guest && Fetch(env, m) == XorRax
    ensures Step(env, m) == m.(core := m.core.(rip := env.code(env.slot(m.core.rip) + 1), rax := ZERO))
  {
    hide VmExit, VmEntry, Vmwrite, FieldAt;
  }

  lemma StepRet(env: Env, m: Machine)
    requires !m.guest && Fetch(env, m) == Ret
    ensures Step(env, m) == m.(core := m.core.(rip := Load(m.core.mem, m.core.rsp), rsp := Plus(m.core.rsp, 8)))
  {
    hide VmExit, VmEntry, Vmwrite, FieldAt;
  }

  lemma FetchSlot(env: Env, m: Machine, slot: nat)
    requires LayoutOk(env) && slot <= VMX_RETURN && !m.guest && m.core.rip == env.code(slot)
    ensures Fetch(env, m) == HostCode(slot) && env.slot(m.core.rip) == slot
  {
  }

  lemma PrepareSteps(env: Env, m: Machine, op: EntryOp, pa: Address, x: Regs)
    requires LayoutOk(env) && Session(env, m, pa, x)
    ensures Fetch(env, CallTo(env, m, op)) == MovRax(HOST_RSP_NUMBER)
    ensures Fetch(env, Step(env, CallTo(env, m, op))) == VmwriteRsp
    ensures Step(env, Step(env, CallTo(env, m, op))) == Prepared(env, m, op)
  {
    hide Step, Fetch, HostRegs, AddressOk;
    var c := CallTo(env, m, op);
    FetchSlot(env, c, EntryPoint(op));
    StepMov(env, c, HOST_RSP_NUMBER);
    FetchSlot(env, Step(env, c), EntryPoint(op) + 1);
    StepVmwrite(env, Step(env, c));
  }

  /** The state at the RET that ends the call. */
  function Landed(env: Env, m: Machine, op: EntryOp): Machine {
    var a := Attempt(env, m, op);
    a.(core := a.core.(rip := env.code(VMX_RETURN), rsp := Minus(m.core.rsp, 8)))
  }

  lemma StackSlot(rsp: Word)
    ensures Plus(Minus(rsp, 8), 8) == rsp
  {
  }

  lemma ReturnStep(env: Env, m: Machine, op: EntryOp, pa: Address, x: Regs)
    requires LayoutOk(env) && Session(env, m, pa, x)
    ensures AtReturn(env, Landed(env, m, op))
    ensures Step(env, Landed(env, m, op)) == Attempt(env, m, op)
  {
    hide Step, Fetch, HostRegs, EndingOf, GuestRan, EntryViolations, AddressOk, InterruptsOff;
    var l := Landed(env, m, op);
    FetchSlot(env, l, VMX_RETURN);
    StepRet(env, l);
    StackSlot(m.core.rsp);
    assert Load(l.core.mem, l.core.rsp) == m.core.rip;
  }

  /** The state after VMLAUNCH or VMRESUME. */
  function Entered(env: Env, m: Machine, op: EntryOp): Machine {
    VmEntry(env, Prepared(env, m, op), op, env.code(EntryPoint(op) + 3))
  }

  /** Attempt, but with control still inside the trampoline. */
  function Attempting(env: Env, m: Machine, op: EntryOp, slot: nat, rax: Word): Machine {
    var a := Attempt(env, m, op);
    a.(core := a.core.(rip := env.code(slot), rsp := Minus(m.core.rsp, 8), rax := rax))
  }

  lemma EntryFails(env: Env, m: Machine, op: EntryOp, pa: Address, x: Regs)
    requires Session(env, m, pa, x) && EndingOf(env, m, op).Failed?
    ensures Entered(env, m, op) == Attempting(env, m, op, EntryPoint(op) + 3, HOST_RSP_NUMBER)
  {
    hide HostRegs, GuestRegs, LoadHost, AddressOk;
  }

  lemma FailureSteps(env: Env, m: Machine, op: EntryOp, pa: Address, x: Regs)
    requires LayoutOk(env) && Session(env, m, pa, x) && EndingOf(env, m, op).Failed?
    ensures var e := Attempting(env, m, op, ENTRY_ERROR, HOST_RSP_NUMBER);
      Fetch(env, e) == MovRax(Word(1)) && Fetch(env, Step(env, e)) == Jmp(VMX_RETURN)
      && Step(env, Step(env, e)) == Landed(env, m, op)
    ensures var e := Attempting(env, m, op, 3, HOST_RSP_NUMBER);
      Fetch(env, e) == Jmp(ENTRY_ERROR) && Step(env, e) == Attempting(env, m, op, ENTRY_ERROR, HOST_RSP_NUMBER)
  {
    hide HostRegs, AddressOk, InterruptsOff, Step, Fetch, EntryViolations;
    var e := Attempting(env, m, op, ENTRY_ERROR, HOST_RSP_NUMBER);
    FetchSlot(env, e, ENTRY_ERROR);
    StepMov(env, e, Word(1));
    FetchSlot(env, Step(env, e), ENTRY_ERROR + 1);
    StepJmp(env, Step(env, e), VMX_RETURN);
    var e' := Attempting(env, m, op, 3, HOST_RSP_NUMBER);
    FetchSlot(env, e', 3);
    StepJmp(env, e', ENTRY_ERROR);
  }

  lemma ExitSteps(env: Env, m: Machine, op: EntryOp, pa: Address, x: Regs)
    requires LayoutOk(env) && Session(env, m, pa, x) && EndingOf(env, m, op).Exited?
    ensures var e := Attempting(env, m, op, VMX_EXIT, HOST_RSP_NUMBER);
      Fetch(env, e) == XorRax && Step(env, e) == Landed(env, m, op)
  {
    hide HostRegs, AddressOk, InterruptsOff, Step, Fetch, EntryViolations;
    var e := Attempting(env, m, op, VMX_EXIT, HOST_RSP_NUMBER);
    FetchSlot(env, e, VMX_EXIT);
    StepXor(env, e);
  }

  /** HOST_RSP is the one host field that a call rewrites, and no register
      is loaded from it. */
  lemma HostRegsStable(f: Vmcs, slot: Word)
    ensures HostRegs(WithHostRsp(f, slot)) == HostRegs(f)
  {
  }

  /** Saving the guest state that was just loaded changes no field. */
  lemma SaveLoaded(f: Vmcs)
    ensures SaveGuest(f, f.guestNatural.rip, f.guestNatural.rsp, f.guestNatural.rflags) == f
  {
  }

  lemma LoadsHost(env: Env, m: Machine, reason: Word, pa: Address, x: Regs, m0: Machine)
    requires Session(env, m0, pa, x)
    requires m.vmx.fields == WithHostRsp(m0.vmx.fields, Minus(m0.core.rsp, 8))
    ensures LoadHost(m, reason)
         == m.(vmx := m.vmx.(fields := WithExitReason(m.vmx.fields, Fit(EXIT_REASON, reason))),
               regs := HostRegs(m0.vmx.fields), guest := false, event := None,
               core := m.core.(rip := env.code(VMX_EXIT), rsp := Minus(m0.core.rsp, 8), rflags := Word(2)))
  {
    assert HostRegs(m.vmx.fields) == HostRegs(m0.vmx.fields) by {
      HostRegsStable(m0.vmx.fields, Minus(m0.core.rsp, 8));
    }
    hide GuestRegs, AddressOk, Fit;
  }

  /** The processor state when host state is about to be loaded. */
  function Leaving(env: Env, m: Machine, op: EntryOp): Machine {
    var ran := GuestRan(env, m, op);
    var slot := Minus(m.core.rsp, 8);
    var f := WithHostRsp(m.vmx.fields, slot);
    m.(regs := if ran then GuestRegs(f, m.regs) else m.regs,
       core := Core(
         if ran then env.guestCode else env.code(EntryPoint(op) + 2),
         if ran then f.guestNatural.rsp else slot,
         HOST_RSP_NUMBER,
         if ran then f.guestNatural.rflags else m.core.rflags,
         m.core.saved, m.core.mem[slot := m.core.rip]),
       vmx := m.vmx.(launched := m.vmx.launched || ran, fields := f),
       guest := ran, event := if ran then env.outcome(m.entries).event else m.event,
       entries := m.entries + 1, tsc := m.tsc + env.cycles(m.entries),
       visits := m.visits + (if ran then 1 else 0))
  }

  function RawReason(env: Env, m: Machine): Word {
    match env.outcome(m.entries)
    case Refused(error) => ZERO
    case Aborted(reason) => With(reason, 0x8000_0000)
    case Runs(event) => if event.Some? then event.value else VMEXIT_CPUID
  }

  lemma ExitReason(env: Env, m: Machine, op: EntryOp)
    requires EndingOf(env, m, op).Exited?
    ensures EndingOf(env, m, op).reason == Fit(EXIT_REASON, RawReason(env, m))
    ensures EntryViolations(m, op) == {}
  {
    hide Fit;
  }

  lemma Landing(env: Env, m: Machine, op: EntryOp, pa: Address, x: Regs)
    requires Session(env, m, pa, x) && EndingOf(env, m, op).Exited?
    ensures LoadHost(Leaving(env, m, op), RawReason(env, m)) == Attempting(env, m, op, VMX_EXIT, HOST_RSP_NUMBER)
  {
    hide HostRegs, GuestRegs, LoadHost, Fit, EndingOf, RawReason, EntryViolations, AddressOk, InterruptsOff;
    ExitReason(env, m, op);
    LoadsHost(env, Leaving(env, m, op), RawReason(env, m), pa, x, m);
    assert m.log + {} == m.log;
    assert !m.guest && m.event == None;
    hide Session, GuestRan;
  }

  lemma EntryAborts(env: Env, m: Machine, op: EntryOp, pa: Address, x: Regs)
    requires Session(env, m, pa, x) && EndingOf(env, m, op).Exited? && !GuestRan(env, m, op)
    ensures Entered(env, m, op) == LoadHost(Leaving(env, m, op), RawReason(env, m))
  {
    hide HostRegs, GuestRegs, LoadHost, AddressOk, Fit;
  }

  lemma GuestEntered(env: Env, m: Machine, op: EntryOp, pa: Address, x: Regs)
    requires Session(env, m, pa, x) && EndingOf(env, m, op).Exited? && GuestRan(env, m, op)
    ensures Entered(env, m, op) == Leaving(env, m, op)
    ensures Leaving(env, m, op).guest && InterruptsOff(Leaving(env, m, op))
  {
    hide HostRegs, GuestRegs, LoadHost, AddressOk, EndingOf;
  }

  lemma GuestStep(env: Env, m: Machine, op: EntryOp, pa: Address, x: Regs)
    requires Session(env, m, pa, x) && EndingOf(env, m, op).Exited? && GuestRan(env, m, op)
    ensures Step(env, Leaving(env, m, op)) == VmExit(Leaving(env, m, op), RawReason(env, m))
  {
    hide HostRegs, GuestRegs, LoadHost, VmExit, AddressOk, Fit, VmEntry, Vmwrite, Session;
  }

  lemma ExitKeepsFields(env: Env, m: Machine, op: EntryOp, pa: Address, x: Regs)
    requires Session(env, m, pa, x) && EndingOf(env, m, op).Exited? && GuestRan(env, m, op)
    ensures VmExit(Leaving(env, m, op), RawReason(env, m)) == LoadHost(Leaving(env, m, op), RawReason(env, m))
  {
    var e := Leaving(env, m, op);
    GuestEntered(env, m, op, pa, x);
    SaveLoaded(e.vmx.fields);
    hide HostRegs, GuestRegs, LoadHost, AddressOk, Fit, RawReason, Entered;
  }

  /** The guest stands at guest_code, and the one step it takes leaves it again: host
      state is loaded, and the guest state in the VMCS is what it was, RIP included. */
  lemma GuestExits(env: Env, m: Machine, op: EntryOp, pa: Address, x: Regs)
    requires Session(env, m, pa, x) && EndingOf(env, m, op).Exited? && GuestRan(env, m, op)
    ensures var e := Leaving(env, m, op);
      && e.guest && e.core.rip == env.guestCode
      && Step(env, e) == LoadHost(e, RawReason(env, m))
      && !Step(env, e).guest && Step(env, e).vmx.fields.guestNatural == m.vmx.fields.guestNatural
  {
    hide HostRegs, GuestRegs, VmExit, AddressOk, Fit, RawReason, Step, Armed, EndingOf;
    GuestStep(env, m, op, pa, x);
    ExitKeepsFields(env, m, op, pa, x);
  }

  lemma EntrySteps(env: Env, m: Machine, op: EntryOp)
    requires LayoutOk(env) && !m.guest
    ensures Fetch(env, Prepared(env, m, op)) == Enter(op)
    ensures Step(env, Prepared(env, m, op)) == Entered(env, m, op)
  {
    hide Step, Fetch, VmEntry;
    FetchSlot(env, Prepared(env, m, op), EntryPoint(op) + 2);
    StepEnter(env, Prepared(env, m, op), op);
  }

  /** Where a call stands after `j` instructions. */
  function PathState(env: Env, m: Machine, op: EntryOp, j: nat): Machine {
    if j == 0 then CallTo(env, m, op)
    else if j == 1 then Step(env, CallTo(env, m, op))
    else if j == 2 then Prepared(env, m, op)
    else if EndingOf(env, m, op).Failed? then
      var k := if op == Launch then j else j + 1;
      if k == 3 then Attempting(env, m, op, 3, HOST_RSP_NUMBER)
      else if k == 4 then Attempting(env, m, op, ENTRY_ERROR, HOST_RSP_NUMBER)
      else if k == 5 then Step(env, Attempting(env, m, op, ENTRY_ERROR, HOST_RSP_NUMBER))
      else Landed(env, m, op)
    else
      var k := if GuestRan(env, m, op) then j else j + 1;
      if k == 3 then Leaving(env, m, op)
      else if k == 4 then Attempting(env, m, op, VMX_EXIT, HOST_RSP_NUMBER)
      else Landed(env, m, op)
  }

  lemma PathStates(env: Env, m: Machine, op: EntryOp, j: nat, pa: Address, x: Regs)
    requires LayoutOk(env) && Session(env, m, pa, x) && j <= PathLength(env, m, op)
    ensures Steps(env, CallTo(env, m, op), j) == PathState(env, m, op, j)
  {
    hide Step, Fetch, CallTo, Prepared, Entered, Attempting, Landed, Leaving, Attempt, HostRegs, LoadHost,
      VmExit, EndingOf, RawReason, AddressOk, Armed;
    var c := CallTo(env, m, op);
    PrepareSteps(env, m, op, pa, x);
    EntrySteps(env, m, op);
    assert Steps(env, c, 0) == c;
    assert Steps(env, c, 1) == Step(env, c);
    assert Steps(env, c, 2) == Prepared(env, m, op);
    assert Steps(env, c, 3) == Entered(env, m, op);
    if EndingOf(env, m, op).Failed? {
      EntryFails(env, m, op, pa, x);
      FailureSteps(env, m, op, pa, x);
    } else {
      Landing(env, m, op, pa, x);
      ExitSteps(env, m, op, pa, x);
      if GuestRan(env, m, op) {
        GuestEntered(env, m, op, pa, x);
        GuestExits(env, m, op, pa, x);
      } else {
        EntryAborts(env, m, op, pa, x);
      }
    }
    assert Steps(env, c, 4) == Step(env, Steps(env, c, 3));
    assert Steps(env, c, 5) == Step(env, Steps(env, c, 4));
    assert Steps(env, c, 6) == Step(env, Steps(env, c, 5));
  }

  lemma NotReturning(env: Env, m: Machine)
    ensures m.guest || Fetch(env, m) != Ret ==> !AtReturn(env, m)
  {
    hide Fetch;
  }

  lemma FailedStates(env: Env, m: Machine, op: EntryOp)
    requires EndingOf(env, m, op).Failed?
    ensures PathLength(env, m, op) == if op == Launch then 6 else 5
    ensures op == Launch ==> PathState(env, m, op, 3) == Attempting(env, m, op, 3, HOST_RSP_NUMBER)
    ensures var e := Attempting(env, m, op, ENTRY_ERROR, HOST_RSP_NUMBER); var n := PathLength(env, m, op);
      PathState(env, m, op, n - 2) == e && PathState(env, m, op, n - 1) == Step(env, e)
  {
    hide Step, CallTo, Prepared, Attempting, Landed, Leaving, EndingOf, GuestRan;
  }

  lemma FailedPathRet(env: Env, m: Machine, op: EntryOp, j: nat, pa: Address, x: Regs)
    requires LayoutOk(env) && Session(env, m, pa, x) && 3 <= j < PathLength(env, m, op) && EndingOf(env, m, op).Failed?
    ensures !AtReturn(env, PathState(env, m, op, j))
  {
    hide *;
    NotReturning(env, PathState(env, m, op, j));
    FailedStates(env, m, op);
    FailureSteps(env, m, op, pa, x);
  }

  lemma ExitedStates(env: Env, m: Machine, op: EntryOp)
    requires EndingOf(env, m, op).Exited?
    ensures PathLength(env, m, op) == if GuestRan(env, m, op) then 5 else 4
    ensures GuestRan(env, m, op) ==> PathState(env, m, op, 3) == Leaving(env, m, op)
    ensures PathState(env, m, op, PathLength(env, m, op) - 1) == Attempting(env, m, op, VMX_EXIT, HOST_RSP_NUMBER)
  {
    hide Step, CallTo, Prepared, Attempting, Landed, Leaving, EndingOf, GuestRan;
  }

  lemma ExitedPathRet(env: Env, m: Machine, op: EntryOp, j: nat, pa: Address, x: Regs)
    requires LayoutOk(env) && Session(env, m, pa, x) && 3 <= j < PathLength(env, m, op) && EndingOf(env, m, op).Exited?
    ensures !AtReturn(env, PathState(env, m, op, j))
  {
    hide *;
    NotReturning(env, PathState(env, m, op, j));
    ExitedStates(env, m, op);
    ExitSteps(env, m, op, pa, x);
    if GuestRan(env, m, op) {
      GuestEntered(env, m, op, pa, x);
    }
  }

  /** No state but the last is at a RET of host code. */
  lemma PathRet(env: Env, m: Machine, op: EntryOp, j: nat, pa: Address, x: Regs)
    requires LayoutOk(env) && Session(env, m, pa, x) && j < PathLength(env, m, op)
    ensures !AtReturn(env, PathState(env, m, op, j))
  {
    hide Step, Fetch, CallTo, Prepared, Entered, Attempting, Landed, Leaving, EndingOf, Armed, AddressOk,
      LayoutOk, GuestRan, PathLength;
    if j < 3 {
      PrepareSteps(env, m, op, pa, x);
      EntrySteps(env, m, op);
    } else if EndingOf(env, m, op).Failed? {
      FailedPathRet(env, m, op, j, pa, x);
    } else {
      ExitedPathRet(env, m, op, j, pa, x);
    }
  }

  /** The instruction stream of one call: it reaches its RET after PathLength
      instructions and no RET before, and the RET completes Attempt. */
  lemma Path(env: Env, m: Machine, op: EntryOp, pa: Address, x: Regs)
    requires LayoutOk(env) && Session(env, m, pa, x)
    ensures var c := CallTo(env, m, op); var n := PathLength(env, m, op);
      && (forall j: nat :: j < n ==> !AtReturn(env, Steps(env, c, j)))
      && AtReturn(env, Steps(env, c, n))
      && Step(env, Steps(env, c, n)) == Attempt(env, m, op)
  {
    var c, n := CallTo(env, m, op), PathLength(env, m, op);
    assert PathState(env, m, op, n) == Landed(env, m, op);
    hide *;
    forall j: nat | j < n ensures !AtReturn(env, Steps(env, c, j)) {
      PathStates(env, m, op, j, pa, x);
      PathRet(env, m, op, j, pa, x);
    }
    PathStates(env, m, op, n, pa, x);
    ReturnStep(env, m, op, pa, x);
  }
}
