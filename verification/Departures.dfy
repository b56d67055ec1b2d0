/** Where the driver departs from its evident intent: for each point the exact
    condition under which the intended property holds. */
module Departures {
  import opened Words
  import opened CpuDefs
  import opened VmcsRegions
  import opened Processor
  import opened Segments
  import opened Controls
  import opened Trampoline
  import opened Calls
  import opened VmcsImage
  import opened Pages
  import opened Outcome
  import opened Unwind
  import opened Runs
  import opened Measurement
  import Protocol
  import opened Traces

  // ------------------------------------------------------------- restoration

  lemma SettingVmxeMatters(w: Word)
    ensures With(w, CR4_VMXE) == w <==> Has(w, CR4_VMXE)
  {
    if Has(w, CR4_VMXE) { SetAgain(w); } else { SetThenHas(w); }
  }

  lemma VmxonRefused(env: Env, b: Machine)
    requires Idle(b)
    ensures EndingOfRun(env, b).NoVmx? && !Has(b.regs.cr4, CR4_VMXE)
      <==> && |Granted(env, b)| == 5 && !b.vmx.on && !Has(b.regs.cr4, CR4_VMXE)
           && (!AddressOk(env, Granted(env, b)[0]) || Has(env.caps.basic, 0xf000_0000))
  {
    RevisionMask(env.caps.basic);
    hide Granted, Has, AddressOk, WrittenRevision, RequiredRevision;
  }

  /** Every run restores CR4 but one kind: with VMX operation off, CR4.VMXE clear and five
      pages granted, if the first page cannot be addressed or the mask has spoilt the
      identifier, VMXON fails and the bit stays set. */
  lemma Cr4LeftSet(env: Env, b: Machine)
    requires Idle(b)
    ensures FinalRegs(env, b).cr4 != b.regs.cr4
      <==> && |Granted(env, b)| == 5 && !b.vmx.on && !Has(b.regs.cr4, CR4_VMXE)
           && (!AddressOk(env, Granted(env, b)[0]) || Has(env.caps.basic, 0xf000_0000))
    ensures FinalRegs(env, b).cr4 == if EndingOfRun(env, b).NoVmx? then With(b.regs.cr4, CR4_VMXE) else b.regs.cr4
  {
    VmxonRefused(env, b);
    SettingVmxeMatters(b.regs.cr4);
    hide Granted, Idle, AddressOk, Has, With, EndingOfRun, HostView;
  }

  /** A run gives back every register iff it never entered the guest and did not
      fail in VMXON with CR4.VMXE clear, or the registers already were what a VM
      exit and restore_host_state make of them. */
  lemma RestoresExactly(env: Env, b: Machine, a: Machine, rounds: nat)
    requires RunDone(env, b, a, rounds)
    ensures a.regs == b.regs <==> match EndingOfRun(env, b)
      case NoMemory => true
      case NoVmx => Has(b.regs.cr4, CR4_VMXE)
      case NoVmcs => true
      case NoEntry => true
      case Measured => Repaired(env, b.regs) == b.regs
  {
    SettingVmxeMatters(b.regs.cr4);
    hide Has, With, EndingOfRun, HostView, Repaired, VmxKept, ForeignKept, Load, FinalViolations, FinalEntries,
      Leaked;
  }

  /** The descriptor tables come back whole on every path. */
  lemma TablesRestored(env: Env, b: Machine, a: Machine, rounds: nat)
    requires RunDone(env, b, a, rounds)
    ensures a.regs.gdtr == b.regs.gdtr && a.regs.idtr == b.regs.idtr
    ensures a.regs.cr0 == b.regs.cr0 && a.regs.cr3 == b.regs.cr3
    ensures a.regs.fsBase == b.regs.fsBase && a.regs.gsBase == b.regs.gsBase && a.regs.tr == b.regs.tr
    ensures a.regs.sysenterEsp == b.regs.sysenterEsp && a.regs.sysenterEip == b.regs.sysenterEip
  {
    hide Has, With, EndingOfRun, VmxKept, ForeignKept, Load, FinalViolations, FinalEntries, Leaked,
      HostSelector, LowHalf, TrBase, SysenterCs;
  }

  // ------------------------------------------------------------------- pages

  lemma {:induction false} SetOfDistinct(pages: seq<Address>)
    requires Distinct(pages)
    ensures |SetOf(pages)| == |pages|
  {
    if pages != [] {
      SetOfDistinct(pages[1..]);
      assert SetOf(pages) == {pages[0]} + SetOf(pages[1..]);
      assert pages[0] !in SetOf(pages[1..]);
    }
  }

  lemma GrantedPages(env: Env, b: Machine)
    ensures var pages := Granted(env, b);
      |pages| <= 5 && |SetOf(pages)| == |pages| && b.kernel.pages !! SetOf(pages)
  {
    RequestGrows(env, b, 5);
    SetOfDistinct(Granted(env, b));
    hide Request, SetOf, Distinct;
  }

  /** If the k-th of the five allocations is the first to fail, k - 1 pages stay
      allocated after the run; otherwise none does. */
  lemma PagesLeaked(env: Env, b: Machine, a: Machine, rounds: nat)
    requires RunDone(env, b, a, rounds)
    ensures var granted := |Granted(env, b)|;
      && granted <= 5
      && a.kernel.pages == b.kernel.pages + Leaked(env, b) && b.kernel.pages !! Leaked(env, b)
      && |Leaked(env, b)| == if granted == 5 then 0 else granted
  {
    GrantedPages(env, b);
    hide Granted, SetOf, VmxKept, ForeignKept, FinalRegs, FinalViolations, FinalEntries, RunVmxonCase, Load;
  }

  // ------------------------------------------------------------ foreign VMX

  lemma {:induction false} RequestIgnoresFlags(env: Env, m: Machine, n: nat, both: bool)
    ensures Request(env.(bothFlags := both), m, n) == Request(env, m, n)
    decreases n
  {
    if n > 0 {
      RequestIgnoresFlags(env, AllocatePage(env, m).0, n - 1, both);
      assert AllocatePage(env.(bothFlags := both), m) == AllocatePage(env, m);
    }
  }

  /** With VMX operation already on and some VMCS current, the outcome hangs on how
      VMXON reports its failure. CF and ZF together, as vmm/asm-inlines.h expects, is
      understood; ZF alone, as the SDM says, is taken for success, and the run then
      turns off VMX operation that it had not turned on. */
  lemma ForeignVmxLost(env: Env, b: Machine)
    requires Idle(b) && |Granted(env, b)| == 5
    ensures RunMistaken(env, b) <==> b.vmx.on && b.vmx.current.Some? && !env.bothFlags
    ensures b.vmx.on && b.vmx.current.Some? ==>
      RunMistaken(env.(bothFlags := false), b) && !RunMistaken(env.(bothFlags := true), b)
  {
    RequestIgnoresFlags(env, b, 5, false);
    RequestIgnoresFlags(env, b, 5, true);
    hide Request, AddressOk, RevisionMatches;
  }

  /** VMX operation ends as it began exactly if the run was not so mistaken. */
  lemma VmxAsBefore(env: Env, b: Machine, a: Machine, rounds: nat)
    requires Idle(b) && RunDone(env, b, a, rounds)
    ensures a.vmx.on == b.vmx.on <==> !RunMistaken(env, b)
    ensures RunMistaken(env, b) ==> VmxoffWhileActive in a.log
    ensures b.log == {} && !RunMistaken(env, b) ==> a.log <= {ResumeNotLaunched}
  {
    hide EndingOfRun, ForeignKept, FinalRegs, FinalEntries, Leaked, Load, Request, AddressOk, RevisionMatches;
  }

  /** What becomes of a VMCS that is not one of the run's own pages: launch state and contents
      are kept, but for one error code in the VMCS that was current, if the run took VMXON
      for a success by mistake or VMPTRLD failed. */
  lemma ForeignVmcs(env: Env, b: Machine, a: Machine, rounds: nat, p: Address)
    requires Idle(b) && RunDone(env, b, a, rounds) && p !in Granted(env, b)
    ensures b.vmx.current.Some? ==> (ForeignError(env, b).Some? <==> RunMistaken(env, b) || EndingOfRun(env, b).NoVmcs?)
    ensures var r := Region(b.vmx, p);
      Region(a.vmx, p) == if b.vmx.current == Some(p) && ForeignError(env, b).Some?
        then r.(fields := WithError(r.fields, ForeignError(env, b).value)) else r
  {
    ErrorLeft(env, b);
    hide Granted, ForeignError, EndingOfRun, RunMistaken, VmxKept, FinalRegs, FinalViolations, FinalEntries,
      FinalVisits, Leaked, Load, BLANK, WithError;
  }

  lemma ErrorLeft(env: Env, b: Machine)
    ensures ForeignError(env, b).Some? <==> RunMistaken(env, b) || EndingOfRun(env, b).NoVmcs?
  {
    hide Granted, VmxonCaseOf, AddressOk, RevisionMatches;
  }

  // --------------------------------------------------- a first entry that is aborted

  /** do_vmlaunch reports success when the first entry is aborted while guest state is being
      loaded. Exactly then, provided there are any rounds, every resume fails: */
  lemma LaunchAborted(env: Env, b: Machine, a: Machine, rounds: nat)
    requires Idle(b) && RunDone(env, b, a, rounds) && b.log == {}
    ensures ResumeNotLaunched in a.log
      <==> && rounds > 0 && |Granted(env, b)| == 5 && !RunVmxonCase(env, b).Refused?
           && AddressOk(env, Granted(env, b)[1]) && !Has(env.caps.basic, 0xf000_0000)
           && env.outcome(b.entries).Aborted?
    ensures ResumeNotLaunched in a.log ==>
      EndingOfRun(env, b).Measured? && a.visits == b.visits && a.entries == b.entries + Bit(rounds)
  {
    RevisionMask(env.caps.basic);
    hide Granted, RunVmxonCase, AddressOk, Has, WrittenRevision, RequiredRevision, VmxKept, ForeignKept,
      FinalRegs, Leaked, Load, Bit, RunMistaken;
  }

  /** How many of the 2^n resumes of round n make the round trip to the guest. */
  function RoundTrips(env: Env, b: Machine, n: nat): nat {
    if env.outcome(b.entries).Runs? then RunsIn(env, b.entries + Bit(n), Bit(n)) else 0
  }

  /** The value printed for a round is the time of 2^n round trips exactly if the first
      entry and every one of the round reached the guest: what do_vmresume returns is ignored. */
  lemma AllRoundTrips(env: Env, b: Machine, n: nat)
    ensures RoundTrips(env, b, n) <= Bit(n)
    ensures RoundTrips(env, b, n) == Bit(n)
      <==> && env.outcome(b.entries).Runs?
           && forall k: nat :: b.entries + Bit(n) <= k < b.entries + Bit(n) + Bit(n) ==> env.outcome(k).Runs?
  {
    AllRunIn(env, b.entries + Bit(n), Bit(n));
    hide RunsIn;
  }

  function AllTrips(env: Env, b: Machine, rounds: nat): nat {
    if rounds == 0 then 0 else AllTrips(env, b, rounds - 1) + RoundTrips(env, b, rounds - 1)
  }

  /** The visits to the guest in a measured run: the first entry and the round trips. */
  lemma {:induction false} TripsOfRun(env: Env, b: Machine, rounds: nat)
    ensures Trips(env, b.entries, rounds)
         == (if env.outcome(b.entries).Runs? then 1 else 0) + AllTrips(env, b, rounds)
  {
    if rounds == 0 {
      assert RunsIn(env, b.entries, 1) == RunsIn(env, b.entries, 0) + (if env.outcome(b.entries).Runs? then 1 else 0);
    } else {
      TripsOfRun(env, b, rounds - 1);
      BitDoubles(rounds - 1);
      RunsInSplit(env, b.entries, Bit(rounds - 1), Bit(rounds - 1));
    }
  }

  // --------------------------------------------------- every step of a run

  /** If step `i` reads, writes or enters a VMCS, be it in C code or by an instruction of the
      assembly code, then VMX operation is on and the current VMCS is the second page that
      this run was granted, which belonged to nobody before. */
  ghost predicate AccessesOurs(env: Env, b: Machine, trace: seq<Protocol.Op>, i: nat)
    requires i < |trace|
  {
    var s := Protocol.Run(env, b, trace[..i]);
    var act := if trace[i].NextInstr? then Protocol.Act(env, s) else Some(trace[i]);
    act.Some? && Protocol.NeedsVmcs(act.value) ==>
      && s.vmx.on && |Granted(env, b)| >= 2 && s.vmx.current == Some(Granted(env, b)[1])
      && Granted(env, b)[1] !in b.kernel.pages
  }

  lemma OnlyOurs(env: Env, b: Machine, trace: seq<Protocol.Op>, i: nat)
    requires SafeFrom(env, b, b, trace) && i < |trace|
    ensures AccessesOurs(env, b, trace, i)
  {
    hide Granted, SetOf, Protocol.Run, Protocol.Act, Protocol.InTurn, InterruptsOff, Has;
    GrantedPages(env, b);
    assert forall p :: p in Granted(env, b) ==> p in SetOf(Granted(env, b)) by { InSetOf(Granted(env, b)); }
    assert Safe(b, Protocol.Run(env, b, trace[..i]));
    assert Fair(env, b, Protocol.Run(env, b, trace[..i]), trace[i]);
  }

  lemma InSetOf(pages: seq<Address>)
    ensures forall p :: p in pages ==> p in SetOf(pages)
  {
  }

  /** Over a whole run that starts with an empty log, a rule is broken at some step, be it a
      step of the C code, of the assembly code or of the guest, exactly if it is one of the
      final violations: none but VMXOFF with a VMCS active and VMRESUME of a clear VMCS. And
      every access to a VMCS and every VM entry is to the run's own. */
  lemma RunOffences(env: Env, b: Machine, a: Machine, trace: seq<Protocol.Op>, rounds: nat, v: Violation)
    requires RunDone(env, b, a, rounds) && a == Protocol.Run(env, b, trace) && SafeFrom(env, b, b, trace)
    ensures b.log == {} ==>
      (v in FinalViolations(env, b, rounds)
       <==> exists i :: 0 <= i < |trace| && Protocol.Offends(env, Protocol.Run(env, b, trace[..i]), trace[i], v))
    ensures FinalViolations(env, b, rounds) <= {VmxoffWhileActive, ResumeNotLaunched}
    ensures forall i :: 0 <= i < |trace| ==> AccessesOurs(env, b, trace, i)
  {
    hide Protocol.Run, Protocol.Offends, VmxKept, ForeignKept, FinalRegs, FinalEntries, FinalVisits, Leaked,
      Load, EndingOfRun, RunMistaken, AccessesOurs, SafeFrom;
    Protocol.LogIsExact(env, b, trace, v);
    forall i | 0 <= i < |trace| ensures AccessesOurs(env, b, trace, i) {
      OnlyOurs(env, b, trace, i);
    }
  }

  // --------------------------------------------------- the guest as a mirror

  /** Whether VM entry loads DR7 and IA32_DEBUGCTL: the driver asks for it only where
      the capability MSR makes it mandatory. */
  predicate LoadsDebug(p: Plan) { Has(Wide32(EntryWord(p.env.caps)), LOAD_DEBUG_CONTROLS) }

  lemma LoadsDebugIfForced(p: Plan)
    ensures LoadsDebug(p)
      <==> var msr := EntryMsr(p.env.caps); Within(Dword(4), Allowed0(msr)) && Within(Dword(4), Allowed1(msr))
  {
    hide EntryMsr, Allowed0, Allowed1;
    var msr := EntryMsr(p.env.caps);
    ForcedBit(Allowed0(msr), Allowed1(msr));
  }

  lemma ForcedBit(a0: Dword, a1: Dword)
    ensures Has(Wide32(ControlWord(a0, a1, IA32E_MODE_GUEST)), LOAD_DEBUG_CONTROLS)
      <==> Within(Dword(4), a0) && Within(Dword(4), a1)
  {
  }

  /** The guest starts with the registers of the host, except for TR, SYSENTER_CS and
      SYSENTER_EIP, and for DR7 and IA32_DEBUGCTL where VM entry loads those. */
  lemma GuestMirror(p: Plan, v: Vmcs)
    ensures GuestRegs(Image(p, v), p.regs) == p.regs.(
      tr := LowHalf(HostSelector(p.regs.tr)), trBase := TrBase(p.env, p.regs),
      trLimit := Wide(Limit16(p.env.lsl(p.regs.tr))),
      sysenterCs := SysenterCs(p.regs), sysenterEip := p.regs.sysenterEsp,
      dr7 := if LoadsDebug(p) then Word(0x400) else p.regs.dr7,
      debugctl := if LoadsDebug(p) then ZERO else p.regs.debugctl)
  {
    var r := p.regs;
    WideKept(r.es);
    WideKept(r.cs);
    WideKept(r.ss);
    WideKept(r.ds);
    WideKept(r.fs);
    WideKept(r.gs);
    WideKept(r.ldtr);
    WideKept(r.gdtr.limit);
    WideKept(r.idtr.limit);
    hide Wide, Wide32, Has, LowHalf, HostSelector, TrBase, SysenterCs, Limit16, AccessRights, FlatLimit,
      EntryWord, PinWord, ProcWord, ExitWord;
  }

  /** SYSENTER_EIP of the guest mirrors the host exactly when ESP and EIP agree. */
  lemma SysenterEipMirrored(p: Plan, v: Vmcs)
    ensures GuestRegs(Image(p, v), p.regs).sysenterEip == p.regs.sysenterEip
      <==> p.regs.sysenterEsp == p.regs.sysenterEip
  {
    GuestMirror(p, v);
    hide Image, GuestRegs;
  }

  // ------------------------------------------------------ the VMCS is legal

  /** A control word is legal for an MSR, has the forced bits, and is contained in every
      legal word that has them. */
  ghost predicate Least(word: Word, msr: Word, forced: Dword) {
    exists w :: word == Wide32(w) && Legal(w, msr) && Within(forced, w)
      && forall v: Dword :: Legal(v, msr) && Within(forced, v) ==> Within(w, v)
  }

  predicate Consistent(msr: Word, forced: Dword) {
    Within(Allowed0(msr), Allowed1(msr)) && Within(forced, Allowed1(msr))
  }

  lemma LeastWord(msr: Word, forced: Dword)
    requires Consistent(msr, forced)
    ensures Least(Wide32(ControlWord(Allowed0(msr), Allowed1(msr), forced)), msr, forced)
  {
    LegalAndLeast(msr, forced);
    hide Within, Allowed0, Allowed1, ControlWord, Wide32, Legal;
  }

  /** Each control word in the image is legal and least for the MSR it was read from, if
      that MSR is consistent and allows the bit the driver forces. */
  lemma ImageControls(p: Plan, v: Vmcs)
    ensures var c, f := p.env.caps, Image(p, v).control32;
      && (Consistent(PinMsr(c), NO_BITS) ==> Least(f.pinBasedVmCtls, PinMsr(c), NO_BITS))
      && (Consistent(ProcMsr(c), NO_BITS) ==> Least(f.procBasedVmCtls, ProcMsr(c), NO_BITS))
      && (Consistent(ExitMsr(c), HOST_ADDR_SPACE_SIZE) ==> Least(f.vmexitCtls, ExitMsr(c), HOST_ADDR_SPACE_SIZE))
      && (Consistent(EntryMsr(c), IA32E_MODE_GUEST) ==> Least(f.vmentryCtls, EntryMsr(c), IA32E_MODE_GUEST))
  {
    hide Within, Allowed0, Allowed1, ControlWord, PinMsr, ProcMsr, ExitMsr, EntryMsr, Wide32, Least, Consistent;
    var c := p.env.caps;
    if Consistent(PinMsr(c), NO_BITS) { LeastWord(PinMsr(c), NO_BITS); }
    if Consistent(ProcMsr(c), NO_BITS) { LeastWord(ProcMsr(c), NO_BITS); }
    if Consistent(ExitMsr(c), HOST_ADDR_SPACE_SIZE) { LeastWord(ExitMsr(c), HOST_ADDR_SPACE_SIZE); }
    if Consistent(EntryMsr(c), IA32E_MODE_GUEST) { LeastWord(EntryMsr(c), IA32E_MODE_GUEST); }
  }

  /** Where the processor has true controls, the processor-based word in the image is legal
      for the TRUE MSR too, and least for it exactly if both MSRs force the same bits. */
  lemma ImageProcControls(p: Plan, v: Vmcs)
    requires var c := p.env.caps;
      && Within(Allowed0(c.proc), Allowed1(c.proc)) && Allowed1(c.trueProc) == Allowed1(c.proc)
      && Within(Allowed0(c.trueProc), Allowed0(c.proc))
    ensures var c, f := p.env.caps, Image(p, v).control32;
      && f.procBasedVmCtls == Wide32(ProcWord(c)) && Legal(ProcWord(c), c.trueProc)
      && ((forall w: Dword :: Legal(w, c.trueProc) ==> Within(ProcWord(c), w))
        <==> Allowed0(c.trueProc) == Allowed0(c.proc))
  {
    ProcWordAgainstTrueMsr(p.env.caps);
    hide Within, Allowed0, Allowed1, ControlWord, Wide32, Legal;
  }

  /** The segment state in the image: host selectors have RPL and TI clear but for
      TR, whose selector is written unmasked; CS and SS have legal rights and limits. */
  lemma ImageSegments(p: Plan, v: Vmcs)
    ensures var h := Image(p, v).host16;
      && !Has(h.es, 7) && !Has(h.cs, 7) && !Has(h.ss, 7) && !Has(h.ds, 7) && !Has(h.fs, 7) && !Has(h.gs, 7)
    ensures Has(Image(p, v).host16.tr, 7) <==> Has(Wide(p.regs.tr), 7)
    ensures var g := Image(p, v).guest32;
      && ReservedClear(g.rights.cs) && GranularityOk(g.rights.cs, g.limits.cs)
      && ReservedClear(g.rights.ss) && GranularityOk(g.rights.ss, g.limits.ss)
  {
    var r := p.regs;
    HostSelectorLegal(r.es);
    HostSelectorLegal(r.cs);
    HostSelectorLegal(r.ss);
    HostSelectorLegal(r.ds);
    HostSelectorLegal(r.fs);
    HostSelectorLegal(r.gs);
    SegmentLegal(p.env.lar(r.cs));
    SegmentLegal(p.env.lar(r.ss));
    hide HostSelector, Wide, Has, ReservedClear, GranularityOk, FlatLimit, AccessRights, TrBase;
  }

  /** Whatever TSS descriptor stands in the GDT at TR, guest and host get its base. */
  lemma ImageTss(p: Plan, v: Vmcs, d: TssDescriptor)
    requires var at := Plus(p.regs.gdtr.base, Wide(p.regs.tr).bits);
      p.env.qword(at) == TssLow(d) && p.env.qword(Plus(at, 8)) == TssHigh(d)
    ensures Image(p, v).guestNatural.bases.tr == Word(d.base) == Image(p, v).hostNatural.trBase
  {
    TssRoundTrip(d);
    hide TssLow, TssHigh, TssBase, Plus, Wide;
  }
}
