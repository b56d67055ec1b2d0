/** Runs against plain numbers: the registers, flags and addresses of a run, and each of its
    steps, in literal bits. */
module PlainRuns {
  import opened Words
  import opened CpuDefs
  import opened Processor
  import opened Segments
  import opened Controls
  import opened Trampoline
  import opened VmcsImage
  import opened Outcome
  import opened Runs
  import opened Traces
  import opened Departures
  import opened Literals
  import Protocol

  /** What do_vmlaunch and do_vmresume return: 1 where the launch state is wrong or the processor
      refuses the entry, otherwise 0. */
  lemma ReturnValue(env: Env, m: Machine, op: EntryOp)
    ensures Attempt(env, m, op).core.rax ==
      if (if op == Launch then m.vmx.launched else !m.vmx.launched) || env.outcome(m.entries).Refused?
      then Word(1) else Word(0)
  {
    hide HostRegs, Fit, With;
  }

  lemma AbortedReason(reason: Word)
    ensures Fit(EXIT_REASON, With(reason, 0x8000_0000)).bits == (reason.bits | 0x8000_0000) & 0xffff_ffff
  {
  }

  /** What a call leaves in the VMCS and in RFLAGS: error 4 or 5 for a wrong launch state, the
      processor's error for a refusal, bit 31 in the reason of an aborted entry, and after an exit
      no flag but the reserved bit 1. */
  lemma CallLeaves(env: Env, m: Machine, op: EntryOp)
    ensures var a := Attempt(env, m, op);
      if op == Launch && m.vmx.launched then
        a.vmx.fields.data32.vmInstructionError == Word(4) && a.core.rflags == m.core.rflags
      else if op == Resume && !m.vmx.launched then
        a.vmx.fields.data32.vmInstructionError == Word(5) && a.core.rflags == m.core.rflags
      else match env.outcome(m.entries)
        case Refused(error) => a.vmx.fields.data32.vmInstructionError == error && a.core.rflags == m.core.rflags
        case Aborted(reason) =>
          && a.vmx.fields.data32.exitReason.bits == (reason.bits | 0x8000_0000) & 0xffff_ffff
          && a.core.rflags == Word(2)
        case Runs(event) => a.core.rflags == Word(2)
  {
    if env.outcome(m.entries).Aborted? { AbortedReason(env.outcome(m.entries).reason); }
    hide HostRegs, Fit, With;
  }

  // -------------------------------------------------------- flags and addresses

  /** CF is bit 0 and ZF bit 6: __vmxon takes CF alone for -1, both for 1, anything else for
      0; the other inlines take either for a failure. */
  lemma FlagsRead(flags: u64)
    ensures DecodeVmxon(flags) == if flags & 0x41 == 0x1 then -1 else if flags & 0x41 == 0x41 then 1 else 0
    ensures Unsuccessful(flags) <==> flags & 0x1 != 0 || flags & 0x40 != 0
  {
  }

  lemma BitCleared(w: Word)
    ensures Without(w, RFLAGS_IF).bits == w.bits & 0xffff_ffff_ffff_fdff
  {
  }

  /** preempt_disable and local_irq_save clear RFLAGS bit 9 and no other bit. */
  lemma Masks(m: Machine)
    ensures PreemptDisable(m).0.core.rflags.bits == m.core.rflags.bits & 0xffff_ffff_ffff_fdff
  {
    BitCleared(m.core.rflags);
    hide Without;
  }

  lemma AddressChecked(env: Env, pa: Address)
    requires AddressOk(env, pa)
    ensures pa.bits & 0xfff == 0 && pa.bits & !env.addressMask.bits == 0
  {
  }

  lemma AddressPasses(env: Env, pa: Address)
    requires pa.bits & 0xfff == 0 && pa.bits & !env.addressMask.bits == 0
    ensures AddressOk(env, pa)
  {
  }

  /** An address that VMXON, VMPTRLD and VMCLEAR accept: aligned, and within the mask. */
  lemma AddressBits(env: Env, pa: Address)
    ensures AddressOk(env, pa) <==> pa.bits & 0xfff == 0 && pa.bits & !env.addressMask.bits == 0
  {
    if AddressOk(env, pa) {
      AddressChecked(env, pa);
    } else if pa.bits & 0xfff == 0 && pa.bits & !env.addressMask.bits == 0 {
      AddressPasses(env, pa);
    }
    hide *;
  }

  lemma Truncated(x: u64)
    requires x & 0xffff_ffff == x
    ensures Low32(x).bits as u64 == x
  {
  }

  lemma WithinLow(b: u64, x: u64)
    requires x == b & 0x8fff_ffff || x == b & 0x7fff_ffff
    ensures x & 0xffff_ffff == x
  {
  }

  lemma RevisionWritten(b: u64, x: u64)
    requires x == b & 0x8fff_ffff
    ensures WrittenRevision(Word(b)).bits as u64 == x
  {
    hide *;
    WithinLow(b, x);
    Written(b);
    Truncated(x);
  }

  lemma RevisionWanted(b: u64, x: u64)
    requires x == b & 0x7fff_ffff
    ensures RequiredRevision(Word(b)).bits as u64 == x
  {
    hide *;
    WithinLow(b, x);
    Required(b);
    Truncated(x);
  }

  lemma RevisionAgrees(env: Env)
    ensures RevisionMatches(env) <==> env.caps.basic.bits & 0xf000_0000 == 0
  {
    RevisionMask(env.caps.basic);
    hide WrittenRevision, RequiredRevision;
  }

  /** The error code that a run enters into a VMCS of someone else that was current: 9 for an
      address and 11 for an identifier that VMPTRLD refuses, 15 where VMXON was mistaken for a success. */
  lemma ErrorCodes(env: Env, b: Machine)
    requires |Granted(env, b)| == 5 && !RunVmxonCase(env, b).Refused?
    ensures ForeignError(env, b) ==
      if !AddressOk(env, Granted(env, b)[1]) then Some(Word(9))
      else if env.caps.basic.bits & 0xf000_0000 != 0 then Some(Word(11))
      else if b.vmx.on && !env.bothFlags && b.vmx.current.Some? then Some(Word(15)) else None
  {
    RevisionAgrees(env);
    hide Granted, AddressOk, RevisionMatches;
  }

  // ---------------------------------------------------------- a run as a whole

  lemma SelectorBack(selector: Half)
    ensures LowHalf(HostSelector(selector)).bits == selector.bits & 0xfff8
  {
  }

  lemma Repairs(env: Env, b: Machine, a: Machine, rounds: nat)
    requires RunDone(env, b, a, rounds) && EndingOfRun(env, b).Measured?
    ensures a.regs == Repaired(env, b.regs)
  {
    hide EndingOfRun, Repaired, VmxKept, ForeignKept, FinalEntries, FinalVisits, FinalViolations, Leaked, Load;
  }

  lemma SelectorsRepaired(env: Env, r: Regs)
    ensures var a := Repaired(env, r);
      && a.es == LowHalf(HostSelector(r.es)) && a.cs == LowHalf(HostSelector(r.cs))
      && a.ss == LowHalf(HostSelector(r.ss)) && a.ds == LowHalf(HostSelector(r.ds))
      && a.fs == LowHalf(HostSelector(r.fs)) && a.gs == LowHalf(HostSelector(r.gs))
      && a.trBase == TrBase(env, r) && a.sysenterCs == SysenterCs(r)
  {
    hide LowHalf, HostSelector, TrBase, SysenterCs;
  }

  /** After a measured run the segment registers have RPL and TI cleared and their index kept. */
  lemma RunSelectors(env: Env, b: Machine, a: Machine, rounds: nat)
    requires RunDone(env, b, a, rounds) && EndingOfRun(env, b).Measured?
    ensures a.regs.es.bits == b.regs.es.bits & 0xfff8 && a.regs.cs.bits == b.regs.cs.bits & 0xfff8
    ensures a.regs.ss.bits == b.regs.ss.bits & 0xfff8 && a.regs.ds.bits == b.regs.ds.bits & 0xfff8
    ensures a.regs.fs.bits == b.regs.fs.bits & 0xfff8 && a.regs.gs.bits == b.regs.gs.bits & 0xfff8
  {
    hide *;
    Repairs(env, b, a, rounds);
    SelectorsRepaired(env, b.regs);
    SelectorBack(b.regs.es);
    SelectorBack(b.regs.cs);
    SelectorBack(b.regs.ss);
    SelectorBack(b.regs.ds);
    SelectorBack(b.regs.fs);
    SelectorBack(b.regs.gs);
  }

  /** ... and every other register is as it was, or has the value a VM exit gives it. */
  lemma RunRegisters(env: Env, b: Machine, a: Machine, rounds: nat)
    requires RunDone(env, b, a, rounds) && EndingOfRun(env, b).Measured?
    ensures a.regs == b.regs.(
      es := a.regs.es, cs := a.regs.cs, ss := a.regs.ss, ds := a.regs.ds, fs := a.regs.fs, gs := a.regs.gs,
      ldtr := Half(0), trLimit := Word(0x67), trBase := a.regs.trBase,
      sysenterCs := Word(b.regs.sysenterCs.bits & 0xffff_ffff), dr7 := Word(0x400), debugctl := Word(0))
    ensures a.regs.trBase == TrBase(env, b.regs)
  {
    Repairs(env, b, a, rounds);
    hide LowHalf, HostSelector, TrBase, RunDone, EndingOfRun;
  }

  /** The TR base after a measured run: from the two words of the GDT at TR. */
  lemma RunTrBase(env: Env, b: Machine, a: Machine, rounds: nat, tr: u64, at: u64, low: u64, high: u64)
    requires RunDone(env, b, a, rounds) && EndingOfRun(env, b).Measured?
    requires tr == b.regs.tr.bits as u64 && Word(at) == Plus(b.regs.gdtr.base, tr)
    requires env.qword(Word(at)) == Word(low) && env.qword(Word(at + 8)) == Word(high)
    ensures a.regs.trBase == TssBase(Word(low), Word(high))
  {
    hide *;
    RunRegisters(env, b, a, rounds);
    WideBits(b.regs.tr);
    HighWordAt(at);
    TrBaseRead(env, b.regs, at);
  }

  lemma VmxeBit(w: Word)
    ensures With(w, CR4_VMXE).bits == w.bits | 0x2000
  {
  }

  /** Runs that do not enter the guest change no register, but for CR4.VMXE where VMXON fails. */
  lemma RunUnmeasured(env: Env, b: Machine, a: Machine, rounds: nat)
    requires RunDone(env, b, a, rounds) && !EndingOfRun(env, b).Measured?
    ensures a.regs == if EndingOfRun(env, b).NoVmx? then b.regs.(cr4 := a.regs.cr4) else b.regs
    ensures EndingOfRun(env, b).NoVmx? ==> a.regs.cr4.bits == b.regs.cr4.bits | 0x2000
  {
    VmxeBit(b.regs.cr4);
    hide EndingOfRun, Repaired, VmxKept, ForeignKept, FinalEntries, FinalVisits, FinalViolations, Leaked, Load, With;
  }

  /** When the guest is entered: five pages granted, VMX operation either off, with the first page
      acceptable, or on in a way that the reading of the flags lets pass, bits 31:28 of
      IA32_VMX_BASIC clear, the second page acceptable, and the first entry not refused. */
  lemma MeasuredExactly(env: Env, b: Machine)
    ensures EndingOfRun(env, b).Measured?
      <==> && |Granted(env, b)| == 5 && env.caps.basic.bits & 0xf000_0000 == 0
           && (if b.vmx.on then env.bothFlags || b.vmx.current.Some? else AddressOk(env, Granted(env, b)[0]))
           && AddressOk(env, Granted(env, b)[1]) && !env.outcome(b.entries).Refused?
  {
    RevisionAgrees(env);
    hide Granted, AddressOk, RevisionMatches;
  }

  // ------------------------------------------------------- every step of a run

  /** Every point of a run: VMX operation implies CR4 bit 13, a current VMCS implies VMX operation, and
      RFLAGS bit 9 is clear in the guest and between preempt_disable and preempt_enable. */
  lemma PointOfRun(env: Env, b: Machine, trace: seq<Protocol.Op>, k: nat)
    requires SafeFrom(env, b, b, trace) && k <= |trace|
    ensures var s := Protocol.Run(env, b, trace[..k]);
      && (s.vmx.on ==> s.regs.cr4.bits & 0x2000 != 0) && (s.vmx.current.Some? ==> s.vmx.on)
      && (s.guest || s.kernel.preemptDepth != b.kernel.preemptDepth ==> s.core.rflags.bits & 0x200 == 0)
  {
    hide Protocol.Run, Fair;
    assert Safe(b, Protocol.Run(env, b, trace[..k]));
  }

  /** Every VMREAD, VMWRITE, VMLAUNCH and VMRESUME of a run, also one of the assembly code, finds VMX
      operation on and current the second page that the run was granted. */
  lemma AccessOfRun(env: Env, b: Machine, trace: seq<Protocol.Op>, i: nat)
    requires SafeFrom(env, b, b, trace) && i < |trace|
    ensures var s, op := Protocol.Run(env, b, trace[..i]), trace[i];
      (op.Vmread? || op.Vmwrite?
       || (op.NextInstr? && !s.guest
           && (HostCode(env.slot(s.core.rip)).VmwriteRsp? || HostCode(env.slot(s.core.rip)).Enter?)))
      ==> s.vmx.on && |Granted(env, b)| >= 2 && s.vmx.current == Some(Granted(env, b)[1])
          && Granted(env, b)[1] !in b.kernel.pages
  {
    OnlyOurs(env, b, trace, i);
    hide Protocol.Run, SafeFrom, Granted, FieldAt;
  }

  lemma Committed(env: Env, b: Machine, a: Machine, trace: seq<Protocol.Op>, rounds: nat, i: nat, v: Violation)
    requires RunDone(env, b, a, rounds) && a == Protocol.Run(env, b, trace) && SafeFrom(env, b, b, trace)
    requires b.log == {} && i < |trace|
    ensures Protocol.Offends(env, Protocol.Run(env, b, trace[..i]), trace[i], v) ==>
      v in FinalViolations(env, b, rounds)
  {
    RunOffences(env, b, a, trace, rounds, v);
    hide *;
  }

  lemma FewFinal(env: Env, b: Machine, rounds: nat)
    ensures FinalViolations(env, b, rounds) <= {VmxoffWhileActive, ResumeNotLaunched}
    ensures VmxoffWhileActive in FinalViolations(env, b, rounds) ==> RunMistaken(env, b)
  {
    hide EndingOfRun, RunMistaken;
  }

  /** What breaks which rule, in bits. */
  lemma Offences(env: Env, s: Machine, op: Protocol.Op)
    ensures op.Vmxon? && s.regs.cr4.bits & 0x2000 == 0 ==> Protocol.Offends(env, s, op, VmxonWithoutVmxe)
    ensures op.SetCr4? && s.vmx.on && op.value.bits & 0x2000 == 0 ==> Protocol.Offends(env, s, op, VmxeClearedInVmx)
    ensures op.Free? && op.pa !in s.kernel.pages ==> Protocol.Offends(env, s, op, FreedForeignPage)
    ensures op.Free? && op.pa in s.vmx.active ==> Protocol.Offends(env, s, op, FreedActiveVmcs)
    ensures op.Free? && s.vmx.on && s.vmx.region == op.pa ==> Protocol.Offends(env, s, op, FreedVmxonRegion)
    ensures op.Vmxoff? && !s.vmx.on ==> Protocol.Offends(env, s, op, OutsideVmx)
    ensures op.Vmxoff? && s.vmx.active != {} ==> Protocol.Offends(env, s, op, VmxoffWhileActive)
    ensures
      (s.core.rflags.bits & 0x200 != 0
       && (op.SetCr4? || op.Vmxon? || op.Vmxoff? || op.Vmptrld? || op.Vmclear? || op.Vmread? || op.Vmwrite?
           || op.SetGdt? || op.SetIdt?))
      ==> Protocol.Offends(env, s, op, InterruptsEnabled)
  {
    hide Protocol.Act, Protocol.Progresses;
  }

  /** The steps of a run that starts with an empty log: VMXON finds CR4 bit 13 set, no write of CR4 clears it
      in VMX operation, a page that is freed is held and not in use by the processor, VMXOFF finds VMX operation
      on and, unless the run is mistaken, no VMCS active, and all these instructions run with RFLAGS bit 9 clear. */
  lemma StepOfRun(env: Env, b: Machine, a: Machine, trace: seq<Protocol.Op>, rounds: nat, i: nat)
    requires RunDone(env, b, a, rounds) && a == Protocol.Run(env, b, trace) && SafeFrom(env, b, b, trace)
    requires b.log == {} && i < |trace|
    ensures var s, op := Protocol.Run(env, b, trace[..i]), trace[i];
      && (op.Vmxon? ==> s.regs.cr4.bits & 0x2000 != 0)
      && (op.SetCr4? && s.vmx.on ==> op.value.bits & 0x2000 != 0)
      && (op.Free? ==> op.pa in s.kernel.pages && op.pa !in s.vmx.active && !(s.vmx.on && s.vmx.region == op.pa))
      && (op.Vmxoff? ==> s.vmx.on && (RunMistaken(env, b) || s.vmx.active == {}))
      && ((op.SetCr4? || op.Vmxon? || op.Vmxoff? || op.Vmptrld? || op.Vmclear? || op.Vmread? || op.Vmwrite?
           || op.SetGdt? || op.SetIdt?)
          ==> s.core.rflags.bits & 0x200 == 0)
  {
    hide *;
    Offences(env, Protocol.Run(env, b, trace[..i]), trace[i]);
    FewFinal(env, b, rounds);
    Committed(env, b, a, trace, rounds, i, VmxonWithoutVmxe);
    Committed(env, b, a, trace, rounds, i, VmxeClearedInVmx);
    Committed(env, b, a, trace, rounds, i, FreedForeignPage);
    Committed(env, b, a, trace, rounds, i, FreedActiveVmcs);
    Committed(env, b, a, trace, rounds, i, FreedVmxonRegion);
    Committed(env, b, a, trace, rounds, i, OutsideVmx);
    Committed(env, b, a, trace, rounds, i, VmxoffWhileActive);
    Committed(env, b, a, trace, rounds, i, InterruptsEnabled);
  }
}
