/** A processor and a machine for each departure that shows it to be real. Since
    MeasureVmlatency accepts every idle machine, these are runs that happen. */
module Examples {
  import opened Words
  import opened VmcsRegions
  import opened Processor
  import opened Controls
  import opened Segments
  import opened VmcsImage
  import opened Trampoline
  import opened Pages
  import opened Measurement
  import opened Outcome
  import opened Runs

  /** The k-th page that the allocator hands out. */
  function PageNumber(k: nat): Word {
    match k
    case 0 => Word(0x1000)
    case 1 => Word(0x2000)
    case 2 => Word(0x3000)
    case 3 => Word(0x4000)
    case _ => Word(0x5000)
  }

  function CodeAt(k: nat): Word {
    match k
    case 0 => Word(0)
    case 1 => Word(1)
    case 2 => Word(2)
    case 3 => Word(3)
    case 4 => Word(4)
    case 5 => Word(5)
    case 6 => Word(6)
    case 7 => Word(7)
    case 8 => Word(8)
    case 9 => Word(9)
    case _ => Word(10)
  }

  function SlotAt(w: Word): nat {
    if w == Word(0) then 0 else if w == Word(1) then 1 else if w == Word(2) then 2 else if w == Word(3) then 3
    else if w == Word(4) then 4 else if w == Word(5) then 5 else if w == Word(6) then 6 else if w == Word(7) then 7
    else if w == Word(8) then 8 else if w == Word(9) then 9 else 10
  }

  /** A processor with `pages` pages to give; `basic` is its IA32_VMX_BASIC, `first` the
      outcome of every VM entry. */
  function Cpu(pages: nat, basic: Word, bothFlags: bool, first: Processor.Outcome): Env {
    var all := Word(0xffff_ffff_0000_0000);
    Env(CodeAt, SlotAt, Word(0x8000), Word(0x8002),
        _ => Dword(0), _ => Dword(0), _ => ZERO,
        Capabilities(basic, all, all, all, all, all, all, all, all), Word(0xffff_ffff_ffff), bothFlags,
        _ => first, _ => 1000, _ => 10,
        (k: nat) => if k < pages then Some(PageNumber(k)) else None)
  }

  function Registers(cr4: Word): Regs {
    var table := Descriptor(Half(0x7f), Word(0x9000));
    Regs(ZERO, ZERO, cr4, Half(0), Half(0x10), Half(0x18), Half(0), Half(0), Half(0), Half(0), Half(0x40),
         ZERO, ZERO, ZERO, Word(0x67), table, table, ZERO, ZERO, ZERO, Word(0x400), ZERO)
  }

  /** A machine in which nobody uses VMX operation, or in which someone does, with a VMCS current. */
  function Host(inVmx: bool): Machine {
    var region, vmcs := Word(0x10_0000), Word(0x10_1000);
    Machine(
      Registers(if inVmx then Word(0x2000) else ZERO),
      Core(Word(0x7000), Word(0x6000), ZERO, Word(0x202), CalleeSaved(ZERO, ZERO, ZERO, ZERO, ZERO, ZERO), map[]),
      Vmx(inVmx, region, if inVmx then Some(vmcs) else None, false, BLANK, if inVmx then {vmcs} else {}, map[]),
      Kernel({region, vmcs}, 0, 0), map[], false, None, 0, 0, 0, {})
  }

  lemma HostIdle(inVmx: bool)
    ensures Idle(Host(inVmx))
  {
  }

  lemma LaidOut(pages: nat, basic: Word, bothFlags: bool, first: Processor.Outcome)
    ensures LayoutOk(Cpu(pages, basic, bothFlags, first))
  {
    var env := Cpu(pages, basic, bothFlags, first);
    forall k: nat | k <= VMX_RETURN ensures env.slot(env.code(k)) == k {
    }
  }

  function Numbers(k: nat, pages: nat): seq<Address>
    decreases pages - k
  {
    if k >= pages then [] else [PageNumber(k)] + Numbers(k + 1, pages)
  }

  /** The allocator gives the pages it has and then fails. */
  lemma {:induction false} RequestsGive(m: Machine, k: nat, pages: nat, basic: Word, both: bool,
      first: Processor.Outcome)
    requires k <= pages <= 5 && m.kernel.allocations == k
    requires forall j: nat :: k <= j < 5 ==> PageNumber(j) !in m.kernel.pages
    ensures Request(Cpu(pages, basic, both, first), m, 5 - k).1 == Numbers(k, pages)
    decreases pages - k
  {
    hide BLANK, Idle;
    if k < pages {
      var a := AllocatePage(Cpu(pages, basic, both, first), m).0;
      assert forall j: nat :: k + 1 <= j < 5 ==> PageNumber(j) != PageNumber(k);
      RequestsGive(a, k + 1, pages, basic, both, first);
    }
  }

  lemma HostGranted(inVmx: bool, pages: nat, basic: Word, both: bool, first: Processor.Outcome)
    requires pages <= 5
    ensures Granted(Cpu(pages, basic, both, first), Host(inVmx)) == Numbers(0, pages)
    ensures |Numbers(0, pages)| == pages
    ensures pages == 5 ==> Numbers(0, pages)[0] == Word(0x1000) && Numbers(0, pages)[1] == Word(0x2000)
  {
    RequestsGive(Host(inVmx), 0, pages, basic, both, first);
    NumbersCounted(0, pages);
    hide Request;
  }

  lemma {:induction false} NumbersCounted(k: nat, pages: nat)
    requires k <= pages
    ensures |Numbers(k, pages)| == pages - k
    decreases pages - k
  {
    if k < pages { NumbersCounted(k + 1, pages); }
  }

  lemma GoodPages(pages: nat, basic: Word, both: bool, first: Processor.Outcome)
    ensures var env := Cpu(pages, basic, both, first); AddressOk(env, Word(0x1000)) && AddressOk(env, Word(0x2000))
  {
  }

  lemma GoodRevision(basic: Word)
    requires !Has(basic, 0xf000_0000)
    ensures WrittenRevision(basic) == RequiredRevision(basic)
  {
    RevisionMask(basic);
  }

  lemma BadRevision(basic: Word)
    requires Has(basic, 0xf000_0000)
    ensures WrittenRevision(basic) != RequiredRevision(basic)
  {
    RevisionMask(basic);
  }

  /** An identifier with bit 28 set: VMXON fails, and CR4.VMXE, which was clear, stays set. */
  lemma VmxeLeftSet()
    ensures var env, m := Cpu(5, Word(0x1000_0001), true, Runs(None)), Host(false);
      LayoutOk(env) && Idle(m) && EndingOfRun(env, m).NoVmx? && FinalRegs(env, m).cr4 == Word(0x2000) != m.regs.cr4
  {
    var basic := Word(0x1000_0001);
    LaidOut(5, basic, true, Runs(None));
    HostIdle(false);
    HostGranted(false, 5, basic, true, Runs(None));
    assert Has(basic, 0xf000_0000);
    BadRevision(basic);
    hide LayoutOk, Idle, Granted, AddressOk, WrittenRevision, RequiredRevision, Numbers;
  }

  /** Three pages to give: the fourth request fails, and three pages stay allocated. */
  lemma PagesLeft()
    ensures var env, m := Cpu(3, Word(1), true, Runs(None)), Host(false);
      LayoutOk(env) && Idle(m) && EndingOfRun(env, m).NoMemory?
      && Leaked(env, m) == {Word(0x1000), Word(0x2000), Word(0x3000)}
  {
    LaidOut(3, Word(1), true, Runs(None));
    HostIdle(false);
    HostGranted(false, 3, Word(1), true, Runs(None));
    assert Numbers(0, 3) == [Word(0x1000), Word(0x2000), Word(0x3000)];
    hide LayoutOk, Idle, Granted, Numbers;
  }

  /** VMX operation in use by someone else, on a processor that reports VMXON inside it as
      the SDM says: the run takes it for its own and turns it off. */
  lemma ForeignVmxTurnedOff()
    ensures var env, m := Cpu(5, Word(1), false, Runs(None)), Host(true);
      LayoutOk(env) && Idle(m) && m.vmx.on && RunMistaken(env, m) && VmxoffWhileActive in FinalViolations(env, m, 1)
  {
    LaidOut(5, Word(1), false, Runs(None));
    HostIdle(true);
    HostGranted(true, 5, Word(1), false, Runs(None));
    hide LayoutOk, Idle, Granted, AddressOk, WrittenRevision, RequiredRevision, Numbers;
  }

  /** A first entry that fails while guest state is loaded (basic reason 33): the run counts
      as measured, and all its resumes are refused. */
  lemma ResumesOfNothing()
    ensures var env, m := Cpu(5, Word(1), true, Aborted(Word(33))), Host(false);
      && LayoutOk(env) && Idle(m) && EndingOfRun(env, m).Measured? && ResumeNotLaunched in FinalViolations(env, m, 20)
      && FinalVisits(env, m, 20) == 0 && FinalEntries(env, m, 20) == 0x10_0000
  {
    hide LayoutOk, Idle, Granted, AddressOk, WrittenRevision, RequiredRevision, Numbers, Bit;
    var first := Aborted(Word(33));
    LaidOut(5, Word(1), true, first);
    HostIdle(false);
    HostGranted(false, 5, Word(1), true, first);
    GoodPages(5, Word(1), true, first);
    assert !Has(Word(1), 0xf000_0000);
    GoodRevision(Word(1));
    TwentyRounds();
  }

  lemma TwentyRounds()
    ensures Bit(20) == 0x10_0000
  {
    assert Bit(10) == 0x400;
    BitSum(10, 10);
  }

  /** Ordinary controls that force a bit which the TRUE ones do not: the processor-based word
      is legal for the TRUE MSR, but the word without that bit is legal too and smaller. */
  lemma ProcWordNotLeast()
    ensures var on := Word(0xffff_ffff_0000_0001); var none := Word(0xffff_ffff_0000_0000);
      var caps := Capabilities(Word(0x80_0000_0000_0001), none, on, none, none, none, none, none, none);
      && HasTrueControls(caps) && Legal(ProcWord(caps), caps.trueProc)
      && Legal(Dword(0), caps.trueProc) && !Within(ProcWord(caps), Dword(0))
  {
  }

  /** A host whose LDTR is in use. */
  function HostWithLdt(): Machine {
    var m := Host(false);
    m.(regs := m.regs.(ldtr := Half(0x28)))
  }

  /** A measured run leaves it with LDTR clear. */
  lemma LdtrLost()
    ensures var env, m := Cpu(5, Word(1), true, Runs(None)), HostWithLdt();
      && LayoutOk(env) && Idle(m) && EndingOfRun(env, m).Measured?
      && FinalRegs(env, m).ldtr == Half(0) != m.regs.ldtr
  {
    hide LayoutOk, Idle, Request, AddressOk, WrittenRevision, RequiredRevision, Numbers, HostSelector, TrBase,
      SysenterCs;
    var env, m := Cpu(5, Word(1), true, Runs(None)), HostWithLdt();
    LaidOut(5, Word(1), true, Runs(None));
    assert Idle(m) by { HostIdle(false); LdtIdle(); }
    RequestsGive(m, 0, 5, Word(1), true, Runs(None));
    NumbersCounted(0, 5);
    FirstNumbers();
    GoodPages(5, Word(1), true, Runs(None));
    assert !Has(Word(1), 0xf000_0000);
    GoodRevision(Word(1));
  }

  lemma LdtIdle()
    requires Idle(Host(false))
    ensures Idle(HostWithLdt())
  {
  }

  lemma FirstNumbers()
    ensures |Numbers(0, 5)| == 5 && Numbers(0, 5)[0] == Word(0x1000) && Numbers(0, 5)[1] == Word(0x2000)
  {
    NumbersCounted(0, 5);
  }
}
