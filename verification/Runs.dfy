/** From the regions to the whole of measure_vmlatency (vmm/vmx.c:488-553): the
    contract of a run, and the steps by which the regions compose to it. */
module Runs {
  import opened Words
  import opened CpuDefs
  import opened VmcsRegions
  import opened Processor
  import opened Controls
  import opened Trampoline
  import opened Calls
  import opened VmcsImage
  import opened Pages
  import opened Measurement
  import opened Outcome
  import opened Unwind
  import Protocol

  // ------------------------------------------------------------ the contract

  function FinalEntries(env: Env, b: Machine, rounds: nat): nat {
    match EndingOfRun(env, b)
    case NoEntry => 1
    case Measured => Bit(rounds)
    case _ => 0
  }

  function FinalVisits(env: Env, b: Machine, rounds: nat): nat {
    if EndingOfRun(env, b).Measured? then Trips(env, b.entries, rounds) else 0
  }

  /** A VMCS that was current before the run is not made current again. */
  function FinalCurrent(env: Env, b: Machine): Option<Address> {
    match EndingOfRun(env, b)
    case NoMemory => b.vmx.current
    case NoVmx => b.vmx.current
    case NoVmcs => if RunMistaken(env, b) then None else b.vmx.current
    case _ => None
  }

  /** Pages left over: those granted before the first failure. */
  function Leaked(env: Env, b: Machine): set<Address> {
    if EndingOfRun(env, b).NoMemory? then SetOf(Granted(env, b)) else {}
  }

  /** What a run makes of the VMX state. */
  ghost predicate VmxKept(env: Env, b: Machine, vmx: Vmx) {
    && (vmx.on <==> b.vmx.on && !RunMistaken(env, b))
    && (vmx.on ==> vmx.region == b.vmx.region)
    && vmx.active == b.vmx.active
    && vmx.current == FinalCurrent(env, b)
  }

  /** The error code that a VMXON taken for success leaves behind. */
  function VmxonError(how: VmxonCase): Option<Word> { if how.Mistaken? then Some(Word(15)) else None }

  /** The error code that a run leaves in a VMCS that was current when it began, if any:
      that of VMPTRLD, which comes last, or that of VMXON. */
  function ForeignError(env: Env, b: Machine): Option<Word> {
    if |Granted(env, b)| != 5 || RunVmxonCase(env, b).Refused? then None
    else
      var load := LoadError(env, Granted(env, b)[1]);
      if load.Some? then load else VmxonError(RunVmxonCase(env, b))
  }

  /** The VMCSs of others keep their contents and launch state, but for that error code. */
  ghost predicate ForeignKept(env: Env, b: Machine, vmx: Vmx) {
    forall p :: p !in Granted(env, b) ==> Region(vmx, p) == Region(Marked(b.vmx, ForeignError(env, b)), p)
  }

  /** The whole effect of a run from `b` to `a`. */
  ghost predicate RunDone(env: Env, b: Machine, a: Machine, rounds: nat) {
    && a.regs == FinalRegs(env, b)
    && a.core == b.core.(rax := a.core.rax, mem := a.core.mem)
    && (forall at :: at != Minus(b.core.rsp, 8) ==> Load(a.core.mem, at) == Load(b.core.mem, at))
    && VmxKept(env, b, a.vmx) && ForeignKept(env, b, a.vmx)
    && a.kernel.pages == b.kernel.pages + Leaked(env, b)
    && a.kernel.preemptDepth == b.kernel.preemptDepth
    && !a.guest && a.event.None?
    && a.entries == b.entries + FinalEntries(env, b, rounds)
    && a.visits == b.visits + FinalVisits(env, b, rounds)
    && a.log == b.log + FinalViolations(env, b, rounds)
  }

  // --------------------------------------- lines 502 to 510: pages and interrupts

  /** The machine when VMXON is about to be tried. */
  ghost predicate Ready(env: Env, b: Machine, d: Machine, pages: seq<Address>) {
    && |pages| == 5 && Distinct(pages) && SetOf(pages) !! b.kernel.pages
    && d == b.(core := b.core.(rflags := d.core.rflags), kernel := d.kernel, revision := d.revision,
               vmx := b.vmx.(store := d.vmx.store))
    && InterruptsOff(d)
    && d.kernel.pages == b.kernel.pages + SetOf(pages)
    && d.kernel.preemptDepth == b.kernel.preemptDepth + 1
    && pages[0] in d.revision && d.revision[pages[0]] == WrittenRevision(env.caps.basic)
    && pages[1] in d.revision && d.revision[pages[1]] == WrittenRevision(env.caps.basic)
    && pages[1] in d.vmx.store && d.vmx.store[pages[1]] == VmcsRegion(false, BLANK)
    && (forall p :: p !in pages ==> Region(d.vmx, p) == Region(b.vmx, p))
  }

  lemma NoInterrupts(w: Word)
    ensures !Has(Without(w, RFLAGS_IF), RFLAGS_IF)
  {
  }

  /** vmxon_setup_revision_id, vmcs_setup_revision_id and vmlatency_preempt_disable. */
  function Primed(env: Env, m: Machine, pages: seq<Address>): Machine
    requires |pages| == 5
  {
    var id := WrittenRevision(env.caps.basic);
    PreemptDisable(WriteRevision(WriteRevision(m, pages[0], id), pages[1], id)).0
  }

  lemma BecomesReady(env: Env, b: Machine)
    requires Idle(b) && |Granted(env, b)| == 5
    ensures Ready(env, b, Primed(env, Request(env, b, 5).0, Granted(env, b)), Granted(env, b))
    ensures Request(env, b, 5).0.core == b.core
  {
    var m, pages := Request(env, b, 5).0, Granted(env, b);
    RequestGrows(env, b, 5);
    assert m.core == b.core;
    hide Request, Idle, Grown;
    GrownReady(env, b, m, pages);
  }

  lemma GrownReady(env: Env, b: Machine, m: Machine, pages: seq<Address>)
    requires |pages| == 5 && Grown(b, m, pages)
    ensures Ready(env, b, Primed(env, m, pages), pages)
  {
    hide Has, Without, WrittenRevision, BLANK, Region;
    assert pages[0] in pages && pages[1] in pages && pages[0] != pages[1];
    OldRegionsKept(b, m, pages);
    NoInterrupts(m.core.rflags);
  }

  lemma OldRegionsKept(b: Machine, m: Machine, pages: seq<Address>)
    requires Grown(b, m, pages)
    ensures forall p :: p !in pages ==> Region(m.vmx, p) == Region(b.vmx, p)
  {
  }

  // ------------------------------------------------ region out2: interrupts are off

  lemma SameCase(env: Env, b: Machine, d: Machine, pages: seq<Address>)
    requires pages == Granted(env, b) && Ready(env, b, d, pages)
    ensures CaseAt(env, d, pages[0]) == RunVmxonCase(env, b)
  {
    hide AddressOk, WrittenRevision, RequiredRevision, Has, Region, Distinct, SetOf, Request;
  }

  lemma ReadyForVmxon(env: Env, b: Machine, d: Machine, pages: seq<Address>)
    requires Idle(b) && Ready(env, b, d, pages)
    ensures InterruptsOff(d) && (d.vmx.on ==> Has(d.regs.cr4, CR4_VMXE)) && d.regs.cr4 == b.regs.cr4
  {
  }

  /** VMX operation has been entered, or was already on, or is taken to have been entered. */
  lemma VmxEntered(env: Env, b: Machine, d: Machine, pages: seq<Address>, how: VmxonCase)
    requires Idle(b) && pages == Granted(env, b) && Ready(env, b, d, pages)
    requires how == RunVmxonCase(env, b) && !how.Refused?
    ensures var v := AfterVmxon(d, how, pages[0]); InVmx(v) && BlankVmcs(env, v, pages[1])
  {
    hide *;
    NewToVmx(env, b, d, pages);
    CaseNeeds(env, b, how);
    NowInVmx(b, d, how, pages[0]);
    StillBlank(env, b, d, how, pages[0], pages[1]);
  }

  lemma NowInVmx(b: Machine, d: Machine, how: VmxonCase, pa: Address)
    requires (how.Fresh? || d.vmx.on) && !how.Refused? && InterruptsOff(d) && !d.guest && d.event.None?
    ensures InVmx(AfterVmxon(d, how, pa))
  {
    SetThenHas(d.regs.cr4);
    hide Has, With, BLANK, WithError;
  }

  lemma StillBlank(env: Env, b: Machine, d: Machine, how: VmxonCase, region: Address, pa: Address)
    requires d.vmx == b.vmx.(store := d.vmx.store) && !how.Refused? && (if how.Fresh? then !b.vmx.on else b.vmx.on)
    requires pa != region && (b.vmx.on ==> pa != b.vmx.region) && pa !in b.vmx.active && b.vmx.current != Some(pa)
    requires pa in d.vmx.store && d.vmx.store[pa] == VmcsRegion(false, BLANK)
    requires pa in d.revision && d.revision[pa] == WrittenRevision(env.caps.basic)
    ensures BlankVmcs(env, AfterVmxon(d, how, region), pa)
  {
    hide With, WrittenRevision, BLANK, WithError;
  }

  lemma CaseNeeds(env: Env, b: Machine, how: VmxonCase)
    requires |Granted(env, b)| == 5 && how == RunVmxonCase(env, b) && !how.Refused?
    ensures if how.Fresh? then !b.vmx.on else b.vmx.on
  {
    hide Granted, AddressOk, RevisionMatches;
  }

  /** The page for the VMCS is neither of those that VMX operation uses or will use. */
  lemma NewToVmx(env: Env, b: Machine, d: Machine, pages: seq<Address>)
    requires Idle(b) && Ready(env, b, d, pages)
    ensures var pa := pages[1];
      && pa != pages[0] && (b.vmx.on ==> pa != b.vmx.region) && pa !in b.vmx.active && b.vmx.current != Some(pa)
      && pa in d.vmx.store && d.vmx.store[pa] == VmcsRegion(false, BLANK)
      && pa in d.revision && d.revision[pa] == WrittenRevision(env.caps.basic)
    ensures d.vmx == b.vmx.(store := d.vmx.store) && d.regs == b.regs && InterruptsOff(d) && !d.guest && d.event.None?
    ensures |pages| == 5
  {
    assert pages[0] in pages && pages[1] in pages;
    hide Has, WrittenRevision, BLANK, Region, InterruptsOff;
  }

  /** When control reaches label out2. */
  ghost predicate AtOut2(env: Env, b: Machine, w: Machine, rounds: nat) {
    && w.regs == FinalRegs(env, b)
    && SameSite(b, w)
    && VmxKept(env, b, w.vmx) && ForeignKept(env, b, w.vmx)
    && w.kernel.pages == b.kernel.pages + SetOf(Granted(env, b))
    && w.kernel.preemptDepth == b.kernel.preemptDepth + 1
    && !w.guest && w.event.None?
    && w.entries == b.entries + FinalEntries(env, b, rounds)
    && w.visits == b.visits + FinalVisits(env, b, rounds)
    && w.log == b.log + FinalViolations(env, b, rounds)
  }

  lemma RefusedToOut2(env: Env, b: Machine, d: Machine, pages: seq<Address>, rounds: nat)
    requires Idle(b) && pages == Granted(env, b) && Ready(env, b, d, pages)
    requires RunVmxonCase(env, b).Refused?
    ensures AtOut2(env, b, AfterVmxon(d, VmxonCase.Refused, pages[0]), rounds)
  {
    hide Has, With, AddressOk, WrittenRevision, RevisionMatches, BLANK, Region, Request, WithError, Load, Minus;
  }

  lemma RepairedCr4(env: Env, r: Regs, c: Word)
    ensures Repaired(env, r.(cr4 := c)) == Repaired(env, r).(cr4 := c)
  {
    assert TrBase(env, r.(cr4 := c)) == TrBase(env, r);
    hide LowHalf, TrBase;
  }

  lemma Cr4Back(cr4: Word)
    ensures Cr4Restored(With(cr4, CR4_VMXE), Has(cr4, CR4_VMXE)) == cr4
  {
    if Has(cr4, CR4_VMXE) { SetAgain(cr4); } else { SetThenClear(cr4); }
  }

  /** The machine `w` after the region out3, entered from `v`. */
  ghost predicate RegionRan(env: Env, b: Machine, d: Machine, w: Machine, pages: seq<Address>, how: VmxonCase,
      rounds: nat) {
    && Idle(b) && pages == Granted(env, b) && Ready(env, b, d, pages)
    && how == RunVmxonCase(env, b) && !how.Refused?
    && VmxDone(env, AfterVmxon(d, how, pages[0]), w, pages[1], rounds,
               how.Fresh? || how.Mistaken?, Has(b.regs.cr4, CR4_VMXE))
  }

  lemma AroundVmxon(m: Machine, how: VmxonCase, pa: Address)
    ensures var v := AfterVmxon(m, how, pa);
      && v.regs == m.regs.(cr4 := With(m.regs.cr4, CR4_VMXE))
      && v == m.(regs := v.regs, vmx := v.vmx)
      && v.vmx.active == m.vmx.active
  {
    hide With, BLANK;
  }

  lemma AroundRegion(env: Env, b: Machine, d: Machine, w: Machine, pages: seq<Address>, how: VmxonCase, rounds: nat)
    requires RegionRan(env, b, d, w, pages, how, rounds)
    ensures var v := AfterVmxon(d, how, pages[0]);
      && v.regs == b.regs.(cr4 := With(b.regs.cr4, CR4_VMXE))
      && v == d.(regs := v.regs, vmx := v.vmx)
      && v.vmx.active == b.vmx.active && v.entries == b.entries && v.visits == b.visits
      && v.guest == b.guest && v.event == b.event && v.core == d.core && v.log == b.log
      && d.core == b.core.(rflags := d.core.rflags)
  {
    AroundVmxon(d, how, pages[0]);
    hide AfterVmxon, VmxDone, With, BLANK, Request, Region;
  }

  lemma EndingWithin(env: Env, b: Machine, pages: seq<Address>, how: VmxonCase)
    requires pages == Granted(env, b) && |pages| == 5 && how == RunVmxonCase(env, b) && !how.Refused?
    ensures RunMistaken(env, b) == how.Mistaken?
    ensures EndingOfRun(env, b)
         == if !Loadable(env, pages[1]) then NoVmcs else if EntryRefused(env, b) then NoEntry else Measured
  {
    hide AddressOk, RevisionMatches, VmxonCaseOf;
  }

  /** What do_vmxon leads to, from a machine that is ready for it. */
  lemma TriesVmxon(env: Env, b: Machine, d: Machine, pages: seq<Address>, rounds: nat)
    requires Idle(b) && pages == Granted(env, b) && Ready(env, b, d, pages)
    ensures InterruptsOff(d) && (d.vmx.on ==> Has(d.regs.cr4, CR4_VMXE)) && d.regs.cr4 == b.regs.cr4
    ensures var how := RunVmxonCase(env, b); var v := AfterVmxon(d, how, pages[0]);
      && how == CaseAt(env, d, pages[0])
      && v.entries == b.entries
      && (EndingOfRun(env, b).Measured? <==> !how.Refused? && Loadable(env, pages[1]) && !EntryRefused(env, v))
      && (how.Refused? ==> AtOut2(env, b, v, rounds))
      && (!how.Refused? ==>
            InVmx(v) && BlankVmcs(env, v, pages[1]) && (Has(b.regs.cr4, CR4_VMXE) || how.Fresh? || how.Mistaken?))
  {
    var how := RunVmxonCase(env, b);
    ReadyForVmxon(env, b, d, pages);
    SameCase(env, b, d, pages);
    AroundVmxon(d, how, pages[0]);
    assert d.entries == b.entries;
    if how.Refused? {
      RefusedToOut2(env, b, d, pages, rounds);
      assert EndingOfRun(env, b).NoVmx?;
    } else {
      assert how.AlreadyOn? ==> b.vmx.on && Has(b.regs.cr4, CR4_VMXE);
      VmxEntered(env, b, d, pages, how);
      EndingWithin(env, b, pages, how);
    }
    hide *;
  }

  lemma RegionFacts(env: Env, b: Machine, d: Machine, w: Machine, pages: seq<Address>, how: VmxonCase, rounds: nat)
    requires RegionRan(env, b, d, w, pages, how, rounds)
    ensures var c := b.regs.(cr4 := With(b.regs.cr4, CR4_VMXE));
      w.regs == (if Loadable(env, pages[1]) && !EntryRefused(env, b) then Repaired(env, c) else c)
        .(cr4 := Cr4Restored(c.cr4, Has(b.regs.cr4, CR4_VMXE)))
    ensures w.kernel == d.kernel
    ensures w.entries
         == b.entries + (if !Loadable(env, pages[1]) then 0 else if EntryRefused(env, b) then 1 else Bit(rounds))
    ensures w.visits == b.visits + (if Loadable(env, pages[1]) then Trips(env, b.entries, rounds) else 0)
    ensures w.log == b.log + VmxViolations(env, b, pages[1], rounds, how.Fresh? || how.Mistaken?)
  {
    hide AfterVmxon, Idle, Ready, Granted, Has, With, CoreKept, OthersKept, Repaired, Loadable, Cr4Restored,
      RunVmxonCase, Bit;
    AroundRegion(env, b, d, w, pages, how, rounds);
  }

  /** What is known of the case and the pages once the region has run. */
  lemma RegionCase(env: Env, b: Machine, d: Machine, w: Machine, pages: seq<Address>, how: VmxonCase, rounds: nat)
    requires RegionRan(env, b, d, w, pages, how, rounds)
    ensures Idle(b) && pages == Granted(env, b) && |pages| == 5
    ensures how == RunVmxonCase(env, b) && !how.Refused?
  {
    hide Idle, Granted, RunVmxonCase, VmxDone, Distinct, SetOf, Region;
  }

  lemma RepairedKeepsCr4(env: Env, r: Regs)
    ensures Repaired(env, r).cr4 == r.cr4
  {
    hide HostView;
  }

  lemma RegsAtOut2(env: Env, b: Machine, d: Machine, w: Machine, pages: seq<Address>, how: VmxonCase, rounds: nat)
    requires RegionRan(env, b, d, w, pages, how, rounds)
    ensures w.regs == FinalRegs(env, b)
  {
    hide RegionRan, Idle, Granted, RunVmxonCase, Has, With, Cr4Restored, Repaired, VmxViolations, EndingOfRun,
      Loadable, EntryRefused, RunMistaken, Bit;
    RegionCase(env, b, d, w, pages, how, rounds);
    RegionFacts(env, b, d, w, pages, how, rounds);
    RepairedCr4(env, b.regs, With(b.regs.cr4, CR4_VMXE));
    Cr4Back(b.regs.cr4);
    EndingWithin(env, b, pages, how);
    RepairedKeepsCr4(env, b.regs);
  }

  lemma CoreAtOut2(env: Env, b: Machine, d: Machine, w: Machine, pages: seq<Address>, how: VmxonCase, rounds: nat)
    requires RegionRan(env, b, d, w, pages, how, rounds)
    ensures SameSite(b, w) && !w.guest && w.event.None?
  {
    AroundRegion(env, b, d, w, pages, how, rounds);
    hide AfterVmxon, Ready, Has, With, Cr4Restored, Repaired, AddressOk, RevisionMatches, Request, VmxonCaseOf,
      OthersKept, VmxViolations, Minus, Load, Bit;
  }

  lemma VmxAtOut2(env: Env, b: Machine, d: Machine, w: Machine, pages: seq<Address>, how: VmxonCase, rounds: nat)
    requires RegionRan(env, b, d, w, pages, how, rounds)
    ensures VmxKept(env, b, w.vmx)
  {
    hide Has, With, Cr4Restored, Repaired, AddressOk, RevisionMatches, BLANK, Request, SameSite, OthersKept,
      Region, Distinct, SetOf, VmxViolations, Bit;
  }

  lemma ForeignAtOut2(env: Env, b: Machine, d: Machine, w: Machine, pages: seq<Address>, how: VmxonCase, rounds: nat)
    requires RegionRan(env, b, d, w, pages, how, rounds)
    ensures ForeignKept(env, b, w.vmx)
  {
    hide AfterVmxon, VmxDone, Idle, OthersKept, Region, Marked, LoadError, VmxonError, RunVmxonCase, Granted;
    var v, load := AfterVmxon(d, how, pages[0]), LoadError(env, pages[1]);
    RegionKeeps(env, v, w, pages[1], rounds, how.Fresh? || how.Mistaken?, Has(b.regs.cr4, CR4_VMXE));
    CaseCurrent(env, b, how);
    NewToVmx(env, b, d, pages);
    forall p | p !in pages ensures Region(w.vmx, p) == Region(Marked(b.vmx, ForeignError(env, b)), p) {
      assert pages[1] in pages;
      KeptAt(Marked(v.vmx, load), w.vmx, pages[1], p);
      AfterVmxonMarks(d, how, pages[0], load, p);
      MarkedAlike(d.vmx, b.vmx, if load.Some? then load else VmxonError(how), p);
    }
  }

  lemma RegionKeeps(env: Env, v: Machine, w: Machine, pa: Address, rounds: nat, ours: bool, oldVmxe: bool)
    requires VmxDone(env, v, w, pa, rounds, ours, oldVmxe)
    ensures OthersKept(Marked(v.vmx, LoadError(env, pa)), w.vmx, pa)
  {
    hide OthersKept, Marked, LoadError;
  }

  lemma KeptAt(v: Vmx, w: Vmx, pa: Address, p: Address)
    requires OthersKept(v, w, pa) && p != pa
    ensures Region(w, p) == Region(v, p)
  {
    hide Region;
  }

  lemma CaseCurrent(env: Env, b: Machine, how: VmxonCase)
    requires Idle(b) && |Granted(env, b)| == 5 && how == RunVmxonCase(env, b)
    ensures how.Fresh? ==> b.vmx.current.None?
    ensures how.Mistaken? ==> b.vmx.current.Some?
  {
    hide Granted, AddressOk, RevisionMatches, Has;
  }

  /** Errors of VMXON and then of VMPTRLD: the later one stays. */
  lemma AfterVmxonMarks(d: Machine, how: VmxonCase, pa: Address, load: Option<Word>, p: Address)
    requires (how.Fresh? ==> d.vmx.current.None?) && (how.Mistaken? ==> d.vmx.current.Some?)
    ensures Region(Marked(AfterVmxon(d, how, pa).vmx, load), p)
         == Region(Marked(d.vmx, if load.Some? then load else VmxonError(how)), p)
  {
    hide With, BLANK;
  }

  lemma MarkedAlike(d: Vmx, b: Vmx, error: Option<Word>, p: Address)
    requires d == b.(store := d.store) && Region(d, p) == Region(b, p)
    ensures Region(Marked(d, error), p) == Region(Marked(b, error), p)
  {
    hide BLANK, WithError;
  }

  lemma EntriesAtOut2(env: Env, b: Machine, d: Machine, w: Machine, pages: seq<Address>, how: VmxonCase, rounds: nat)
    requires RegionRan(env, b, d, w, pages, how, rounds)
    ensures w.entries == b.entries + FinalEntries(env, b, rounds)
    ensures w.visits == b.visits + FinalVisits(env, b, rounds)
  {
    hide RegionRan, Idle, Granted, RunVmxonCase, Has, With, Cr4Restored, Repaired, VmxViolations, EndingOfRun,
      Loadable, RunMistaken, Bit;
    RegionCase(env, b, d, w, pages, how, rounds);
    RegionFacts(env, b, d, w, pages, how, rounds);
    EndingWithin(env, b, pages, how);
  }

  lemma OnlyMistaken(env: Env, b: Machine, how: VmxonCase)
    requires Idle(b) && |Granted(env, b)| == 5 && how == RunVmxonCase(env, b)
    ensures (how.Fresh? || how.Mistaken?) && b.vmx.active != {} <==> how.Mistaken?
  {
  }

  lemma LogAtOut2(env: Env, b: Machine, d: Machine, w: Machine, pages: seq<Address>, how: VmxonCase, rounds: nat)
    requires RegionRan(env, b, d, w, pages, how, rounds)
    ensures w.log == b.log + FinalViolations(env, b, rounds)
  {
    hide RegionRan, Idle, Granted, RunVmxonCase, Has, With, Cr4Restored, Repaired, EndingOfRun, Loadable,
      RunMistaken, Bit;
    RegionCase(env, b, d, w, pages, how, rounds);
    RegionFacts(env, b, d, w, pages, how, rounds);
    EndingWithin(env, b, pages, how);
    OnlyMistaken(env, b, how);
  }

  lemma RegionToOut2(env: Env, b: Machine, d: Machine, w: Machine, pages: seq<Address>, how: VmxonCase, rounds: nat)
    requires RegionRan(env, b, d, w, pages, how, rounds)
    ensures AtOut2(env, b, w, rounds)
  {
    hide VmxDone, SameSite, VmxKept, ForeignKept, FinalRegs, FinalViolations, FinalEntries, Distinct, Region,
      Has;
    RegsAtOut2(env, b, d, w, pages, how, rounds);
    CoreAtOut2(env, b, d, w, pages, how, rounds);
    VmxAtOut2(env, b, d, w, pages, how, rounds);
    ForeignAtOut2(env, b, d, w, pages, how, rounds);
    RegionFacts(env, b, d, w, pages, how, rounds);
    EntriesAtOut2(env, b, d, w, pages, how, rounds);
    LogAtOut2(env, b, d, w, pages, how, rounds);
  }

  // ------------------------------------------------------ region out1: all the rest

  lemma LedgerBalances(env: Env, b: Machine, e: Machine, pages: seq<Address>)
    requires Idle(b) && pages == Granted(env, b) && |pages| == 5
    requires e.kernel.pages == b.kernel.pages + SetOf(pages) && e.vmx.active == b.vmx.active
    requires e.vmx.on ==> b.vmx.on && e.vmx.region == b.vmx.region
    ensures FreeAll(e, AddressesIn(pages, Freed(5))) == e.(kernel := e.kernel.(pages := b.kernel.pages))
  {
    var freed := AddressesIn(pages, Freed(5));
    RequestGrows(env, b, 5);
    var m := Request(env, b, 5).0;
    assert b.kernel.pages !! SetOf(pages) && Distinct(pages);
    hide Request, Grown, Freed, AddressesIn;
    FreedAll(pages);
    assert forall p :: p in freed <==> p in SetOf(freed);
    hide Distinct;
    FreeAllClean(e, freed);
    hide FreeAll;
    assert e.kernel.pages - SetOf(pages) == b.kernel.pages;
  }

  /** vmlatency_preempt_enable and free_memory, from label out2. */
  lemma Out2Done(env: Env, b: Machine, w: Machine, pages: seq<Address>, rounds: nat)
    requires Idle(b) && pages == Granted(env, b) && |pages| == 5 && AtOut2(env, b, w, rounds)
    ensures RunDone(env, b, FreeAll(PreemptEnable(w, b.core.rflags), AddressesIn(pages, Freed(5))), rounds)
  {
    var e := PreemptEnable(w, b.core.rflags);
    LedgerBalances(env, b, e, pages);
    hide Idle, FreeAll, AddressesIn, Freed, RunDone, SameSite;
    Restarted(env, b, w, e.(kernel := e.kernel.(pages := b.kernel.pages)), rounds);
  }

  lemma Restarted(env: Env, b: Machine, w: Machine, a: Machine, rounds: nat)
    requires |Granted(env, b)| == 5 && AtOut2(env, b, w, rounds)
    requires a == w.(core := w.core.(rflags := b.core.rflags),
                     kernel := w.kernel.(pages := b.kernel.pages, preemptDepth := b.kernel.preemptDepth))
    ensures RunDone(env, b, a, rounds)
  {
    assert Leaked(env, b) == {};
    hide FinalRegs, FinalViolations, FinalEntries, VmxKept, ForeignKept, Leaked, SetOf, Load, Minus;
  }

  /** A run that got fewer than five pages frees none of them. */
  lemma OutOfMemoryDone(env: Env, b: Machine, rounds: nat)
    requires Idle(b) && |Granted(env, b)| != 5
    ensures RunDone(env, b, Request(env, b, 5).0, rounds)
  {
    hide *;
    var m := Request(env, b, 5).0;
    RequestGrows(env, b, 5);
    NoMemoryEnds(env, b, m, rounds);
    OldRegionsKept(b, m, Granted(env, b));
    OnlyLedger(env, b, m, rounds);
  }

  lemma NoMemoryEnds(env: Env, b: Machine, m: Machine, rounds: nat)
    requires |Granted(env, b)| != 5
    ensures Granted(env, b) == Request(env, b, 5).1
    ensures EndingOfRun(env, b).NoMemory? && !RunMistaken(env, b)
    ensures FinalRegs(env, b) == b.regs && FinalCurrent(env, b) == b.vmx.current && FinalEntries(env, b, rounds) == 0
    ensures FinalVisits(env, b, rounds) == 0 && FinalViolations(env, b, rounds) == {}
    ensures Leaked(env, b) == SetOf(Granted(env, b)) && ForeignError(env, b) == None
  {
    hide Request, SetOf;
  }

  lemma OnlyLedger(env: Env, b: Machine, m: Machine, rounds: nat)
    requires Idle(b) && Grown(b, m, Granted(env, b)) && !RunMistaken(env, b)
    requires FinalRegs(env, b) == b.regs && FinalCurrent(env, b) == b.vmx.current && FinalEntries(env, b, rounds) == 0
    requires FinalVisits(env, b, rounds) == 0 && FinalViolations(env, b, rounds) == {}
    requires Leaked(env, b) == SetOf(Granted(env, b)) && ForeignError(env, b) == None
    requires forall p :: p !in Granted(env, b) ==> Region(m.vmx, p) == Region(b.vmx, p)
    ensures RunDone(env, b, m, rounds)
  {
    hide Granted, FinalRegs, FinalCurrent, FinalEntries, FinalVisits, FinalViolations, Leaked, RunMistaken,
      EndingOfRun, ForeignError, SetOf, Distinct, Region, Load, Minus, Has;
    assert m.core == b.core.(rax := m.core.rax, mem := m.core.mem);
  }

  lemma FinalCr4(env: Env, b: Machine)
    ensures FinalRegs(env, b).cr4 == b.regs.cr4 || Has(FinalRegs(env, b).cr4, CR4_VMXE)
  {
    hide EndingOfRun, HostView, Has;
    SetThenHas(b.regs.cr4);
  }

  /** After a run the driver can be run again, unless it turned off VMX operation
      that it had not turned on. */
  lemma IdleAgain(env: Env, b: Machine, a: Machine, rounds: nat)
    requires Idle(b) && RunDone(env, b, a, rounds)
    ensures Idle(a) <==> !RunMistaken(env, b)
  {
    FinalCr4(env, b);
    hide FinalRegs, FinalViolations, FinalEntries, Region, EndingOfRun, Has, Load, Minus, Request;
  }

  lemma IdleSane(m: Machine)
    requires Idle(m)
    ensures Protocol.Sane(m) && !m.guest
  {
    hide Has;
  }

  lemma DepthAtOut2(env: Env, b: Machine, w: Machine, rounds: nat)
    requires AtOut2(env, b, w, rounds)
    ensures w.kernel.preemptDepth == b.kernel.preemptDepth + 1
  {
    hide FinalRegs, SameSite, VmxKept, ForeignKept, FinalEntries, FinalVisits, FinalViolations, Granted, SetOf;
  }
}
