/** The nested regions that the labels out4, out3, out2 and out1 of measure_vmlatency
    end: what each region makes of the machine it is entered with. */
module Unwind {
  import opened Words
  import opened CpuDefs
  import opened VmcsRegions
  import opened Processor
  import opened Controls
  import opened Trampoline
  import opened Calls
  import opened VmcsImage
  import opened Widths
  import opened Measurement
  import opened Outcome

  /** Host code with interrupts off in VMX operation. */
  ghost predicate InVmx(m: Machine) {
    m.vmx.on && Has(m.regs.cr4, CR4_VMXE) && InterruptsOff(m) && !m.guest && m.event.None?
  }

  lemma SetThenHas(w: Word)
    ensures Has(With(w, CR4_VMXE), CR4_VMXE)
  {
  }

  lemma SetAgain(w: Word)
    requires Has(w, CR4_VMXE)
    ensures With(w, CR4_VMXE) == w
  {
  }

  lemma SetThenClear(w: Word)
    requires !Has(w, CR4_VMXE)
    ensures Without(With(w, CR4_VMXE), CR4_VMXE) == w
  {
  }

  // ------------------------------------------------------------ entering VMX operation

  function WithVmxe(m: Machine): Machine { m.(regs := m.regs.(cr4 := With(m.regs.cr4, CR4_VMXE))) }

  lemma VmxeSetAlready(m: Machine)
    ensures Has(With(m.regs.cr4, CR4_VMXE), CR4_VMXE)
    ensures Has(m.regs.cr4, CR4_VMXE) ==> WithVmxe(m) == m
    ensures WithVmxe(m) == m.(regs := m.regs.(cr4 := With(m.regs.cr4, CR4_VMXE)))
  {
    SetThenHas(m.regs.cr4);
    if Has(m.regs.cr4, CR4_VMXE) { SetAgain(m.regs.cr4); }
    hide Has, With;
  }

  /** The machine after do_vmxon. */
  function AfterVmxon(m: Machine, how: VmxonCase, pa: Address): Machine {
    var e := WithVmxe(m);
    match how
    case Fresh => e.(vmx := m.vmx.(on := true, region := pa, current := None, launched := false, fields := BLANK))
    case Mistaken => WithFields(e, WithError(m.vmx.fields, Word(15)))
    case _ => e
  }

  /** What __vmxon makes of the flags in each case. */
  function ReportOf(how: VmxonCase): int { match how case AlreadyOn => 1 case Refused => -1 case _ => 0 }

  lemma FlagsDecoded()
    ensures DecodeVmxon(0) == 0 && DecodeVmxon(RFLAGS_ZF) == 0
    ensures DecodeVmxon(RFLAGS_CF) == -1 && DecodeVmxon(RFLAGS_CF | RFLAGS_ZF) == 1
  {
  }

  /** VMXON with CR4.VMXE set: its effect and its report, case by case. */
  lemma TriesAt(env: Env, o: Machine, pa: Address)
    requires InterruptsOff(o)
    ensures var r := Vmxon(env, WithVmxe(o), pa);
      r.m == AfterVmxon(o, CaseAt(env, o, pa), pa) && DecodeVmxon(r.flags) == ReportOf(CaseAt(env, o, pa))
    ensures ReportOf(CaseAt(env, o, pa)) == -1 <==> CaseAt(env, o, pa).Refused?
    ensures ReportOf(CaseAt(env, o, pa)) == 0 <==> CaseAt(env, o, pa).Fresh? || CaseAt(env, o, pa).Mistaken?
  {
    FlagsDecoded();
    SetThenHas(o.regs.cr4);
    hide Has, With, AddressOk, RequiredRevision, BLANK, DecodeVmxon, WithError;
  }

  // ------------------------------------------------------------- the resumes

  /** After `done` resumes, counted from `o`, in a session whose exits load `x`. */
  ghost predicate Resumed(env: Env, o: Machine, m: Machine, pa: Address, x: Regs, done: nat) {
    && Session(env, m, pa, x) && m.regs == x
    && SameRest(o, m) && SameSite(o, m)
    && m.vmx.launched == o.vmx.launched
    && m.entries == o.entries + done
    && m.visits == o.visits + (if o.vmx.launched then RunsIn(env, o.entries, done) else 0)
    && m.log == o.log + (if o.vmx.launched || done == 0 then {} else {ResumeNotLaunched})
  }

  lemma NoneResumed(env: Env, o: Machine, pa: Address, x: Regs)
    requires Session(env, o, pa, x) && o.regs == x
    ensures Resumed(env, o, o, pa, x, 0)
  {
    hide Session;
    assert o.core == o.core.(rax := o.core.rax, rflags := o.core.rflags, mem := o.core.mem);
    assert o.vmx == o.vmx.(launched := o.vmx.launched, fields := o.vmx.fields);
  }

  lemma TimePasses(env: Env, o: Machine, m: Machine, pa: Address, x: Regs, done: nat, cycles: nat)
    requires Resumed(env, o, m, pa, x, done)
    ensures Resumed(env, o, Spend(m, cycles), pa, x, done)
  {
    hide Armed, AddressOk, Load;
  }

  lemma SameRestTrans(a: Machine, b: Machine, c: Machine)
    requires SameRest(a, b) && SameRest(b, c)
    ensures SameRest(a, c)
  {
  }

  lemma SameSiteTrans(a: Machine, b: Machine, c: Machine)
    requires SameSite(a, b) && SameSite(b, c)
    ensures SameSite(a, c)
  {
    hide Load, Minus;
  }

  lemma ResumeOnce(env: Env, o: Machine, m: Machine, pa: Address, x: Regs, done: nat)
    requires Resumed(env, o, m, pa, x, done)
    ensures Resumed(env, o, Attempt(env, m, Resume), pa, x, done + 1)
    ensures Attempt(env, m, Resume).tsc == m.tsc + env.cycles(o.entries + done)
  {
    hide Session, SameRest, SameSite, HostRegs, EndingOf;
    var a := Attempt(env, m, Resume);
    AttemptKeepsSession(env, m, Resume, pa, x);
    AttemptKeepsRest(env, m, Resume, pa, x);
    SameRestTrans(o, m, a);
    SameSiteTrans(o, m, a);
  }

  lemma ResumedSession(env: Env, o: Machine, m: Machine, pa: Address, x: Regs, done: nat)
    requires Resumed(env, o, m, pa, x, done)
    ensures Session(env, m, pa, x)
  {
    hide Session;
  }

  /** How many of the resumes between two points made the round trip. */
  lemma RoundVisits(env: Env, o: Machine, m: Machine, a: Machine, pa: Address, x: Regs, done: nat, count: nat)
    requires Resumed(env, o, m, pa, x, done) && Resumed(env, o, a, pa, x, done + count)
    ensures a.visits == m.visits + if o.vmx.launched then RunsIn(env, o.entries + done, count) else 0
  {
    RunsInSplit(env, o.entries, done, count);
    hide Session, SameRest, SameSite, RunsIn;
  }

  // --------------------------------------------- region out4: a VMCS is current

  ghost predicate VmcsLoaded(env: Env, m: Machine, pa: Address) {
    && InVmx(m) && m.vmx.current == Some(pa) && pa in m.vmx.active
    && pa != m.vmx.region && AddressOk(env, pa) && !m.vmx.launched
  }

  predicate EntryRefused(env: Env, m: Machine) { env.outcome(m.entries).Refused? }

  function ResumeViolations(env: Env, m: Machine, rounds: nat): set<Violation> {
    if env.outcome(m.entries).Aborted? && rounds > 0 then {ResumeNotLaunched} else {}
  }

  /** How often the guest is visited, if `first` is the number of the first entry: as often
      as the processor lets it, but not at all if the first entry was aborted, because
      every resume then fails. */
  function Trips(env: Env, first: nat, rounds: nat): nat {
    if env.outcome(first).Runs? then RunsIn(env, first, Bit(rounds)) else 0
  }

  /** Only memory below the stack, RAX and the status flags of the core may differ. */
  ghost predicate CoreKept(o: Machine, a: Machine) { SameSite(o, a) && InterruptsOff(a) }

  /** Every VMCS but the one at `pa` has the contents and the launch state it had. */
  ghost predicate OthersKept(v: Vmx, w: Vmx, pa: Address) {
    forall p :: p != pa ==> Region(w, p) == Region(v, p)
  }

  lemma OthersKeptTrans(u: Vmx, v: Vmx, w: Vmx, pa: Address)
    requires OthersKept(u, v, pa) && OthersKept(v, w, pa)
    ensures OthersKept(u, w, pa)
  {
    hide Region;
  }

  /** Lines 518 to 540: the guest has been run, the registers are as the last exit and
      restore_host_state leave them, and the VMCS is neither active nor current. */
  ghost predicate VmcsDone(env: Env, o: Machine, a: Machine, pa: Address, rounds: nat) {
    && a == o.(
         regs := if EntryRefused(env, o) then o.regs else Repaired(env, o.regs),
         core := a.core,
         vmx := o.vmx.(current := None, launched := false, fields := BLANK, active := o.vmx.active - {pa},
           store := a.vmx.store),
         tsc := a.tsc,
         entries := o.entries + (if EntryRefused(env, o) then 1 else Bit(rounds)),
         visits := o.visits + Trips(env, o.entries, rounds),
         log := o.log + ResumeViolations(env, o, rounds))
    && CoreKept(o, a)
    && OthersKept(o.vmx, a.vmx, pa)
  }

  lemma SessionBegins(env: Env, o: Machine, pa: Address, ioA: Word, ioB: Word)
    requires VmcsLoaded(env, o, pa)
    ensures Writable(o) && o.vmx.current == Some(pa)
    ensures var s := WithFields(o, Image(PlanOf(env, o, ioA, ioB), o.vmx.fields));
      && Session(env, s, pa, HostView(env, o.regs)) && !s.vmx.launched
      && s.regs == o.regs && s.entries == o.entries && (EntryRefused(env, s) <==> EntryRefused(env, o))
  {
    hide AddressOk;
    ImageArmed(PlanOf(env, o, ioA, ioB), o.vmx.fields);
    hide Armed, Image, HostView;
  }

  /** The machine after the first VM entry, made in the session that starts at `s`. */
  ghost predicate FirstEntry(env: Env, s: Machine, m: Machine, pa: Address, x: Regs) {
    && Session(env, m, pa, x) && SameRest(s, m) && SameSite(s, m)
    && m.entries == s.entries + 1 && m.log == s.log
    && m.visits == s.visits + (if env.outcome(s.entries).Runs? then 1 else 0)
    && m.regs == (if EntryRefused(env, s) then s.regs else x)
    && m.vmx.launched == env.outcome(s.entries).Runs?
  }

  lemma Launches(env: Env, s: Machine, pa: Address, x: Regs)
    requires Session(env, s, pa, x) && !s.vmx.launched
    ensures FirstEntry(env, s, Attempt(env, s, Launch), pa, x)
    ensures Attempt(env, s, Launch).core.rax == if EntryRefused(env, s) then Word(1) else Word(0)
    ensures Attempt(env, s, Launch).core.rax == ZERO <==> !EntryRefused(env, s)
    ensures !EntryRefused(env, s) ==>
      (Attempt(env, s, Launch).vmx.fields.data32.exitReason.bits & 0xffff == 10
       <==> ExitsByCpuid(env.outcome(s.entries)))
  {
    hide Session, SameRest, SameSite, HostRegs, ExitsByCpuid;
    AttemptKeepsSession(env, s, Launch, pa, x);
    AttemptKeepsRest(env, s, Launch, pa, x);
    if !EntryRefused(env, s) { ReasonOfExit(env, s, Launch); }
  }

  /** In a session the VMCS can be read and written. */
  lemma SessionWritable(env: Env, s: Machine, m: Machine, pa: Address, x: Regs)
    requires FirstEntry(env, s, m, pa, x)
    ensures Writable(m) && Session(env, m, pa, x) && m.vmx.current == Some(pa)
    ensures m.entries == s.entries + 1
    ensures !EntryRefused(env, s) ==> m.regs == x
  {
  }

  /** When control reaches label out4. */
  ghost predicate AtOut4(env: Env, s: Machine, m: Machine, pa: Address, x: Regs, rounds: nat) {
    && Session(env, m, pa, x) && SameRest(s, m) && SameSite(s, m)
    && m.entries == s.entries + (if EntryRefused(env, s) then 1 else Bit(rounds))
    && m.visits == s.visits + Trips(env, s.entries, rounds)
    && m.log == s.log + ResumeViolations(env, s, rounds)
    && m.regs == if EntryRefused(env, s) then s.regs else x
  }

  lemma RefusedToOut4(env: Env, s: Machine, m: Machine, pa: Address, x: Regs, rounds: nat)
    requires EntryRefused(env, s) && FirstEntry(env, s, m, pa, x)
    ensures AtOut4(env, s, m, pa, x, rounds)
  {
    hide Session, SameRest, SameSite;
  }

  lemma ResumedToOut4(env: Env, s: Machine, f: Machine, m: Machine, pa: Address, x: Regs, rounds: nat)
    requires !EntryRefused(env, s) && FirstEntry(env, s, f, pa, x)
    requires Resumed(env, f, m, pa, x, Bit(rounds) - 1)
    ensures AtOut4(env, s, m, pa, x, rounds)
  {
    hide Session, SameRest, SameSite;
    SameRestTrans(s, f, m);
    SameSiteTrans(s, f, m);
    assert Bit(rounds) == 1 <==> rounds == 0;
    assert RunsIn(env, s.entries, 1) == (if env.outcome(s.entries).Runs? then 1 else 0) + RunsIn(env, s.entries, 0);
    RunsInSplit(env, s.entries, 1, Bit(rounds) - 1);
  }

  function Restored(m: Machine, gdt: Descriptor, idt: Descriptor): Machine { SetIdt(SetGdt(m, gdt), idt) }

  lemma RestoresRegs(env: Env, o: Regs)
    ensures HostView(env, o).(gdtr := o.gdtr, idtr := o.idtr) == Repaired(env, o)
    ensures o.(gdtr := o.gdtr, idtr := o.idtr) == o
  {
    hide LowHalf, TrBase, SysenterCs;
  }

  lemma RestoresHost(m: Machine, gdt: Descriptor, idt: Descriptor)
    requires InterruptsOff(m)
    ensures Restored(m, gdt, idt) == m.(regs := m.regs.(gdtr := gdt, idtr := idt))
  {
    hide Has;
  }

  lemma ClearsCurrent(env: Env, m: Machine, pa: Address)
    requires InterruptsOff(m) && m.vmx.on && m.vmx.current == Some(pa) && AddressOk(env, pa) && pa != m.vmx.region
    ensures !Unsuccessful(Vmclear(env, m, pa).flags)
    ensures var a := Vmclear(env, m, pa).m;
      && a == m.(vmx := m.vmx.(current := None, launched := false, fields := BLANK, active := m.vmx.active - {pa},
        store := a.vmx.store))
      && OthersKept(m.vmx, a.vmx, pa)
  {
    hide Has, AddressOk;
  }

  /** restore_host_state and do_vmclear, from label out4. */
  lemma Out4Done(env: Env, o: Machine, v: Vmcs, m: Machine, pa: Address, rounds: nat)
    requires VmcsLoaded(env, o, pa)
    requires AtOut4(env, WithFields(o, v), m, pa, HostView(env, o.regs), rounds)
    ensures var r := Vmclear(env, Restored(m, o.regs.gdtr, o.regs.idtr), pa);
      !Unsuccessful(r.flags) && VmcsDone(env, o, r.m, pa, rounds)
  {
    hide HostView, Repaired, AddressOk, Armed, Vmclear, Restored, Has;
    RestoresHost(m, o.regs.gdtr, o.regs.idtr);
    RestoresRegs(env, o.regs);
    ClearsCurrent(env, Restored(m, o.regs.gdtr, o.regs.idtr), pa);
  }

  // ------------------------------------------------ region out3: in VMX operation

  /** A page that can become a VMCS: new to the processor, with our identifier in it. */
  ghost predicate BlankVmcs(env: Env, m: Machine, pa: Address) {
    && pa != m.vmx.region && pa !in m.vmx.active && m.vmx.current != Some(pa)
    && pa in m.vmx.store && m.vmx.store[pa] == VmcsRegion(false, BLANK)
    && pa in m.revision && m.revision[pa] == WrittenRevision(env.caps.basic)
  }

  predicate Loadable(env: Env, pa: Address) { AddressOk(env, pa) && RevisionMatches(env) }

  /** The error that VMPTRLD of a page other than the VMXON region reports, if any. */
  function LoadError(env: Env, pa: Address): Option<Word> {
    if Loadable(env, pa) then None else if !AddressOk(env, pa) then Some(Word(9)) else Some(Word(11))
  }

  /** What a reported error does: it is entered into the current VMCS, if there is one. */
  function Marked(vmx: Vmx, error: Option<Word>): Vmx {
    if error.Some? && vmx.current.Some? then vmx.(fields := WithError(vmx.fields, error.value)) else vmx
  }

  /** VMPTRLD of the blank page: either it becomes the current VMCS, or nothing but
      the error code changes, and that only if some other VMCS was current. */
  ghost predicate Loaded(env: Env, o: Machine, a: Machine, pa: Address) {
    if Loadable(env, pa) then
      && a == o.(vmx := o.vmx.(current := Some(pa), launched := false, fields := BLANK,
                               active := o.vmx.active + {pa}, store := a.vmx.store))
      && OthersKept(o.vmx, a.vmx, pa)
    else a == o.(vmx := Marked(o.vmx, LoadError(env, pa)))
  }

  lemma FlagsRead()
    ensures !Unsuccessful(0) && Unsuccessful(RFLAGS_CF) && Unsuccessful(RFLAGS_ZF)
  {
  }

  lemma FailsWith(m: Machine, error: Word)
    ensures VmFail(m, error).m == m.(vmx := Marked(m.vmx, Some(error)))
    ensures Unsuccessful(VmFail(m, error).flags)
  {
    hide WithError, Unsuccessful;
    FlagsRead();
  }

  lemma LoadSucceeds(env: Env, o: Machine, pa: Address)
    requires InVmx(o) && BlankVmcs(env, o, pa) && Loadable(env, pa)
    ensures Vmptrld(env, o, pa).flags == 0 && Loaded(env, o, Vmptrld(env, o, pa).m, pa)
    ensures Vmptrld(env, o, pa).m.entries == o.entries
  {
    hide Has, AddressOk, WrittenRevision, RequiredRevision, VmFail, BLANK;
  }

  lemma LoadFails(env: Env, o: Machine, pa: Address)
    requires InVmx(o) && BlankVmcs(env, o, pa) && !Loadable(env, pa)
    ensures LoadError(env, pa).Some? && Vmptrld(env, o, pa) == VmFail(o, LoadError(env, pa).value)
  {
    hide Has, AddressOk, WrittenRevision, RequiredRevision, VmFail, BLANK, Suspend, Region;
  }

  lemma Loads(env: Env, o: Machine, pa: Address)
    requires InVmx(o) && BlankVmcs(env, o, pa)
    ensures Unsuccessful(Vmptrld(env, o, pa).flags) <==> !Loadable(env, pa)
    ensures Loaded(env, o, Vmptrld(env, o, pa).m, pa)
    ensures Vmptrld(env, o, pa).m.entries == o.entries
  {
    hide Vmptrld, VmFail, InVmx, BlankVmcs, Loadable, LoadError, Marked, Unsuccessful, OthersKept, BLANK;
    if Loadable(env, pa) {
      LoadSucceeds(env, o, pa);
      FlagsRead();
    } else {
      LoadFails(env, o, pa);
      FailsWith(o, LoadError(env, pa).value);
    }
  }

  /** Turning VMX operation off, if we turned it on, and restoring CR4.VMXE. */
  function AfterVmxoff(m: Machine, ours: bool, oldVmxe: bool): Machine {
    var off := if ours then Vmxoff(m) else m;
    if oldVmxe then off else SetCr4(off, Without(off.regs.cr4, CR4_VMXE))
  }

  function Cr4Restored(cr4: Word, oldVmxe: bool): Word { if oldVmxe then cr4 else Without(cr4, CR4_VMXE) }

  lemma TurnsOff(m: Machine, ours: bool, oldVmxe: bool)
    requires m.vmx.on && InterruptsOff(m) && (oldVmxe || ours)
    ensures var a := AfterVmxoff(m, ours, oldVmxe);
      && a == m.(regs := m.regs.(cr4 := Cr4Restored(m.regs.cr4, oldVmxe)),
                 vmx := a.vmx,
                 log := m.log + (if ours && m.vmx.active != {} then {VmxoffWhileActive} else {}))
      && a.vmx == (if ours then Suspend(m.vmx).(on := false) else m.vmx)
  {
    hide Has, Without;
  }

  lemma SuspendKeeps(vmx: Vmx, pa: Address)
    ensures var w := Suspend(vmx).(on := false);
      w.current == None && w.region == vmx.region && w.active == vmx.active && OthersKept(vmx, w, pa)
  {
  }

  function VmxViolations(env: Env, o: Machine, pa: Address, rounds: nat, ours: bool): set<Violation> {
    (if Loadable(env, pa) then ResumeViolations(env, o, rounds) else {})
    + (if ours && o.vmx.active != {} then {VmxoffWhileActive} else {})
  }

  /** Lines 515 to 542: VMX operation is off if this run turned it on, CR4.VMXE is what
      it was, the processor holds no other VMCS active than before, and every other VMCS
      is as it was but for the error of a VMPTRLD that failed. */
  ghost predicate VmxDone(env: Env, o: Machine, a: Machine, pa: Address, rounds: nat, ours: bool, oldVmxe: bool) {
    var ran := Loadable(env, pa) && !EntryRefused(env, o);
    && a == o.(
         regs := (if ran then Repaired(env, o.regs) else o.regs).(cr4 := Cr4Restored(o.regs.cr4, oldVmxe)),
         core := a.core,
         vmx := a.vmx,
         tsc := a.tsc,
         entries := o.entries + (if !Loadable(env, pa) then 0 else if EntryRefused(env, o) then 1 else Bit(rounds)),
         visits := o.visits + (if Loadable(env, pa) then Trips(env, o.entries, rounds) else 0),
         log := o.log + VmxViolations(env, o, pa, rounds, ours))
    && CoreKept(o, a)
    && a.vmx.on == !ours && a.vmx.region == o.vmx.region && a.vmx.active == o.vmx.active
    && a.vmx.current == (if ours || Loadable(env, pa) then None else o.vmx.current)
    && OthersKept(Marked(o.vmx, LoadError(env, pa)), a.vmx, pa)
  }

  lemma LoadedFresh(env: Env, o: Machine, l: Machine, pa: Address)
    requires InVmx(o) && BlankVmcs(env, o, pa) && Loadable(env, pa) && Loaded(env, o, l, pa)
    ensures VmcsLoaded(env, l, pa) && (EntryRefused(env, l) <==> EntryRefused(env, o))
  {
    hide Has, AddressOk, RevisionMatches;
  }

  /** When control reaches label out3. */
  ghost predicate AtOut3(env: Env, o: Machine, d: Machine, pa: Address, rounds: nat) {
    var ran := Loadable(env, pa) && !EntryRefused(env, o);
    && d == o.(
         regs := if ran then Repaired(env, o.regs) else o.regs,
         core := d.core,
         vmx := d.vmx,
         tsc := d.tsc,
         entries := o.entries + (if !Loadable(env, pa) then 0 else if EntryRefused(env, o) then 1 else Bit(rounds)),
         visits := o.visits + (if Loadable(env, pa) then Trips(env, o.entries, rounds) else 0),
         log := o.log + (if Loadable(env, pa) then ResumeViolations(env, o, rounds) else {}))
    && CoreKept(o, d)
    && d.vmx.on && d.vmx.region == o.vmx.region && d.vmx.active == o.vmx.active
    && d.vmx.current == (if Loadable(env, pa) then None else o.vmx.current)
    && OthersKept(Marked(o.vmx, LoadError(env, pa)), d.vmx, pa)
  }

  lemma NotLoadedToOut3(env: Env, o: Machine, l: Machine, pa: Address, rounds: nat)
    requires InVmx(o) && !Loadable(env, pa) && Loaded(env, o, l, pa)
    ensures AtOut3(env, o, l, pa, rounds)
  {
    hide Has, Loadable, Repaired, Load, Minus, Bit;
  }

  lemma LoadedToOut3(env: Env, o: Machine, l: Machine, d: Machine, pa: Address, rounds: nat)
    requires InVmx(o) && BlankVmcs(env, o, pa)
    requires Loadable(env, pa) && Loaded(env, o, l, pa) && VmcsDone(env, l, d, pa, rounds)
    ensures AtOut3(env, o, d, pa, rounds)
  {
    hide Has, Loadable, Repaired, Load, Minus, OthersKept, Bit;
    assert o.vmx.active + {pa} - {pa} == o.vmx.active;
    OthersKeptTrans(o.vmx, l.vmx, d.vmx, pa);
  }

  /** do_vmxoff, from label out3. */
  lemma Out3Done(env: Env, o: Machine, d: Machine, pa: Address, rounds: nat, ours: bool, oldVmxe: bool)
    requires (oldVmxe || ours) && AtOut3(env, o, d, pa, rounds)
    ensures VmxDone(env, o, AfterVmxoff(d, ours, oldVmxe), pa, rounds, ours, oldVmxe)
  {
    InterruptsAtOut3(env, o, d, pa, rounds);
    hide *;
    var a := AfterVmxoff(d, ours, oldVmxe);
    TurnsOff(d, ours, oldVmxe);
    LogAtOut3(env, o, d, a, pa, rounds, ours);
    VmxAtOut3(env, o, d, a, pa, rounds, ours);
    RegsAtOut3(env, o, d, a, pa, rounds, oldVmxe);
    VmxDoneFrom(env, o, d, a, pa, rounds, ours, oldVmxe);
  }

  lemma InterruptsAtOut3(env: Env, o: Machine, d: Machine, pa: Address, rounds: nat)
    requires AtOut3(env, o, d, pa, rounds)
    ensures d.vmx.on && InterruptsOff(d)
  {
    hide Has, Loadable, Repaired, SameSite, OthersKept, Trips, Bit, ResumeViolations, EntryRefused;
  }

  lemma LogAtOut3(env: Env, o: Machine, d: Machine, a: Machine, pa: Address, rounds: nat, ours: bool)
    requires AtOut3(env, o, d, pa, rounds)
    requires a.log == d.log + (if ours && d.vmx.active != {} then {VmxoffWhileActive} else {})
    ensures a.log == o.log + VmxViolations(env, o, pa, rounds, ours)
  {
    ViolationsAdd(env, o, d, pa, rounds, ours);
    hide Has, Loadable, Repaired, CoreKept, OthersKept, Trips, Bit, ResumeViolations, EntryRefused,
      VmxViolations;
  }

  lemma RegsAtOut3(env: Env, o: Machine, d: Machine, a: Machine, pa: Address, rounds: nat, oldVmxe: bool)
    requires AtOut3(env, o, d, pa, rounds)
    requires a.regs == d.regs.(cr4 := Cr4Restored(d.regs.cr4, oldVmxe))
    ensures var ran := Loadable(env, pa) && !EntryRefused(env, o);
      a.regs == (if ran then Repaired(env, o.regs) else o.regs).(cr4 := Cr4Restored(o.regs.cr4, oldVmxe))
  {
    assert Repaired(env, o.regs).cr4 == o.regs.cr4;
    hide Has, Loadable, Repaired, Cr4Restored, CoreKept, OthersKept, Trips, Bit, ResumeViolations, EntryRefused;
  }

  lemma VmxAtOut3(env: Env, o: Machine, d: Machine, a: Machine, pa: Address, rounds: nat, ours: bool)
    requires AtOut3(env, o, d, pa, rounds)
    requires a.vmx == (if ours then Suspend(d.vmx).(on := false) else d.vmx)
    ensures a.vmx.on == !ours && a.vmx.region == o.vmx.region && a.vmx.active == o.vmx.active
    ensures a.vmx.current == (if ours || Loadable(env, pa) then None else o.vmx.current)
    ensures OthersKept(Marked(o.vmx, LoadError(env, pa)), a.vmx, pa)
  {
    SuspendKeeps(d.vmx, pa);
    if ours {
      OthersKeptTrans(Marked(o.vmx, LoadError(env, pa)), d.vmx, a.vmx, pa);
    }
    hide Has, Loadable, LoadError, Marked, Repaired, CoreKept, OthersKept, Trips, Bit, ResumeViolations,
      EntryRefused, Suspend;
  }

  /** The parts of Out3Done put together. */
  lemma VmxDoneFrom(env: Env, o: Machine, d: Machine, a: Machine, pa: Address, rounds: nat, ours: bool, oldVmxe: bool)
    requires AtOut3(env, o, d, pa, rounds)
    requires a == d.(regs := a.regs, vmx := a.vmx, log := a.log)
    requires var ran := Loadable(env, pa) && !EntryRefused(env, o);
      a.regs == (if ran then Repaired(env, o.regs) else o.regs).(cr4 := Cr4Restored(o.regs.cr4, oldVmxe))
    requires a.log == o.log + VmxViolations(env, o, pa, rounds, ours)
    requires a.vmx.on == !ours && a.vmx.region == o.vmx.region && a.vmx.active == o.vmx.active
    requires a.vmx.current == (if ours || Loadable(env, pa) then None else o.vmx.current)
    requires OthersKept(Marked(o.vmx, LoadError(env, pa)), a.vmx, pa)
    ensures VmxDone(env, o, a, pa, rounds, ours, oldVmxe)
  {
    hide Has, Loadable, Repaired, Cr4Restored, OthersKept, Load, Minus, Trips, Bit, ResumeViolations,
      VmxViolations, EntryRefused;
  }

  lemma ViolationsAdd(env: Env, o: Machine, d: Machine, pa: Address, rounds: nat, ours: bool)
    requires d.vmx.active == o.vmx.active
    requires d.log == o.log + (if Loadable(env, pa) then ResumeViolations(env, o, rounds) else {})
    ensures d.log + (if ours && d.vmx.active != {} then {VmxoffWhileActive} else {})
         == o.log + VmxViolations(env, o, pa, rounds, ours)
  {
  }
}
