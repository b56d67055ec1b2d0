/** vmm/vmx.c: the driver proper. */
module Driver {
  import opened Words
  import opened CpuDefs
  import opened VmcsRegions
  import opened Processor
  import opened Segments
  import opened Controls
  import opened Trampoline
  import opened Calls
  import opened VmcsImage
  import opened Widths
  import opened Pages
  import opened Measurement
  import opened Outcome
  import opened Unwind
  import opened Runs
  import opened VmcsLaws
  import opened VmcsWrites
  import opened Traces
  import Protocol
  import Cpu = Processor
  import FieldNumbers
  import Literals
  import PlainRuns

  /** vmpage_t. */
  datatype VmPage = VmPage(pa: Address, held: bool)

  const NO_PAGE := VmPage(ZERO, false)

  newtype int32 = i: int | -0x8000_0000 <= i < 0x8000_0000

  /** host_state_t. */
  datatype HostState = HostState(gdt: Descriptor, idt: Descriptor)

  /** From `o` to `a` either a page that nobody held and that is zeroed has been added to
      the ledger, or nothing that matters to the driver has changed. */
  ghost predicate NewOrNone(o: Machine, a: Machine, page: VmPage) {
    if page.held then
      && page.pa !in o.kernel.pages && a.kernel.pages == o.kernel.pages + {page.pa}
      && page.pa in a.revision && a.revision[page.pa] == NO_BITS
      && page.pa in a.vmx.store && a.vmx.store[page.pa] == VmcsRegion(false, BLANK)
    else
      a == o.(kernel := a.kernel) && a.kernel.pages == o.kernel.pages
  }

  /** vm_monitor_t, with the machine the driver runs on. */
  class VmMonitor {
    const env: Env
    var m: Machine

    var vmxBasic: Word
    var vmcsRevisionId: Dword
    var hasTrueCtls: bool
    var pinbasedCtls: Word
    var truePinbasedCtls: Word
    var pinbasedAllowed0: Dword
    var pinbasedAllowed1: Dword
    var procbasedCtls: Word
    var trueProcbasedCtls: Word
    var procbasedAllowed0: Dword
    var procbasedAllowed1: Dword
    var exitCtls: Word
    var trueExitCtls: Word
    var exitCtlsAllowed0: Dword
    var exitCtlsAllowed1: Dword
    var entryCtls: Word
    var trueEntryCtls: Word
    var entryCtlsAllowed0: Dword
    var entryCtlsAllowed1: Dword
    var vmxonRegion: VmPage
    var vmcs: VmPage
    var ioBitmapA: VmPage
    var ioBitmapB: VmPage
    var msrBitmap: VmPage
    var oldVmxe: bool
    var ourVmxon: bool

    ghost const start: Machine           // the machine before the run
    ghost var trace: seq<Protocol.Op>    // every step taken since

    constructor (env: Env, m: Machine)
      requires Protocol.Sane(m) && !m.guest
      ensures this.env == env && this.m == m && this.start == m && this.trace == []
      ensures Follows(env, start, trace, m) && HeldPages() == []
    {
      this.env, this.m, this.start, this.trace := env, m, m, [];
      vmxBasic, vmcsRevisionId, hasTrueCtls := ZERO, NO_BITS, false;
      pinbasedCtls, truePinbasedCtls, pinbasedAllowed0, pinbasedAllowed1 := ZERO, ZERO, NO_BITS, NO_BITS;
      procbasedCtls, trueProcbasedCtls, procbasedAllowed0, procbasedAllowed1 := ZERO, ZERO, NO_BITS, NO_BITS;
      exitCtls, trueExitCtls, exitCtlsAllowed0, exitCtlsAllowed1 := ZERO, ZERO, NO_BITS, NO_BITS;
      entryCtls, trueEntryCtls, entryCtlsAllowed0, entryCtlsAllowed1 := ZERO, ZERO, NO_BITS, NO_BITS;
      vmxonRegion, vmcs, ioBitmapA, ioBitmapB, msrBitmap := NO_PAGE, NO_PAGE, NO_PAGE, NO_PAGE, NO_PAGE;
      oldVmxe, ourVmxon := false, false;
      FollowsNothing(env, m);
    }

    // ------------------------------------------------------------------ steps

    /** One step of host code, taken and recorded. */
    method Perform(op: Protocol.Op)
      requires Follows(env, start, trace, m) && Benign(env, start, m, op)
      modifies this`m, this`trace
      ensures Follows(env, start, trace, m) && m == Protocol.Apply(env, old(m), op) && trace == old(trace) + [op]
    {
      hide *;
      FollowsOp(env, start, trace, m, op);
      m := Protocol.Apply(env, m, op);
      trace := trace + [op];
    }

    // ------------------------------------------------------------------ pages

    function PageIn(s: Slot): VmPage
      reads this`vmxonRegion, this`vmcs, this`ioBitmapA, this`ioBitmapB, this`msrBitmap
    {
      match s
      case VmxonRegion => vmxonRegion
      case VmcsPage => vmcs
      case IoBitmapA => ioBitmapA
      case IoBitmapB => ioBitmapB
      case MsrBitmap => msrBitmap
    }

    /** The pages held, in the order of allocation up to the first gap. */
    function HeldPages(): seq<Address>
      reads this`vmxonRegion, this`vmcs, this`ioBitmapA, this`ioBitmapB, this`msrBitmap
    {
      if !vmxonRegion.held then []
      else if !vmcs.held then [vmxonRegion.pa]
      else if !ioBitmapA.held then [vmxonRegion.pa, vmcs.pa]
      else if !ioBitmapB.held then [vmxonRegion.pa, vmcs.pa, ioBitmapA.pa]
      else if !msrBitmap.held then [vmxonRegion.pa, vmcs.pa, ioBitmapA.pa, ioBitmapB.pa]
      else [vmxonRegion.pa, vmcs.pa, ioBitmapA.pa, ioBitmapB.pa, msrBitmap.pa]
    }

    /** allocate_vmpage: a page that nobody held, zeroed, or none. */
    method AllocateVmPage() returns (page: VmPage)
      requires Follows(env, start, trace, m)
      modifies this`m, this`trace
      ensures Follows(env, start, trace, m)
      ensures m == AllocatePage(env, old(m)).0
      ensures var answer := AllocatePage(env, old(m)).1;
        page == if answer.Some? then VmPage(answer.value, true) else NO_PAGE
      ensures NewOrNone(old(m), m, page)
    {
      hide BLANK, Follows;
      var answer := AllocatePage(env, m).1;
      Perform(Protocol.Op.Allocate);
      page := if answer.Some? then VmPage(answer.value, true) else NO_PAGE;
    }

    /** Lines 50 and 51: how many of the two pages for VMX operation were granted; with fewer
        than two the allocation is over. */
    method AllocateVmxPages() returns (cnt: nat)
      requires Follows(env, start, trace, m) && HeldPages() == []
      modifies this`m, this`trace, this`vmxonRegion, this`vmcs
      ensures Follows(env, start, trace, m) && cnt <= 2
      ensures cnt == 2 ==>
        vmxonRegion.held && vmcs.held && StillToCome(env, old(m), 5, [vmxonRegion.pa] + [vmcs.pa], m, 3)
      ensures cnt < 2 ==>
        m == Request(env, old(m), 5).0 && HeldPages() == Request(env, old(m), 5).1 && |HeldPages()| == cnt
    {
      hide AllocatePage, Request, StillToCome, Follows, NewOrNone;
      NoneGranted(env, m, 5);
      NextRequest(env, old(m), 5, [], m, 5);
      vmxonRegion := AllocateVmPage();
      if !vmxonRegion.held { return 0; }
      assert [] + [vmxonRegion.pa] == [vmxonRegion.pa];
      NextRequest(env, old(m), 5, [vmxonRegion.pa], m, 4);
      vmcs := AllocateVmPage();
      return if vmcs.held then 2 else 1;
    }

    /** Lines 52 to 54, for an allocation that began in `o`: how many pages there are in all. */
    method AllocateBitmaps(ghost o: Machine) returns (cnt: nat)
      requires Follows(env, start, trace, m) && vmxonRegion.held && vmcs.held
      requires StillToCome(env, o, 5, [vmxonRegion.pa] + [vmcs.pa], m, 3)
      modifies this`m, this`trace, this`ioBitmapA, this`ioBitmapB, this`msrBitmap
      ensures Follows(env, start, trace, m) && 2 <= cnt <= 5
      ensures m == Request(env, o, 5).0 && HeldPages() == Request(env, o, 5).1 && |HeldPages()| == cnt
    {
      hide AllocatePage, Request, StillToCome, Follows, NewOrNone;
      ghost var granted := [vmxonRegion.pa] + [vmcs.pa];
      NextRequest(env, o, 5, granted, m, 3);
      ioBitmapA := AllocateVmPage();
      if !ioBitmapA.held { return 2; }
      granted := granted + [ioBitmapA.pa];
      NextRequest(env, o, 5, granted, m, 2);
      ioBitmapB := AllocateVmPage();
      if !ioBitmapB.held { return 3; }
      granted := granted + [ioBitmapB.pa];
      NextRequest(env, o, 5, granted, m, 1);
      msrBitmap := AllocateVmPage();
      if !msrBitmap.held { return 4; }
      AllGranted(env, o, 5, granted + [msrBitmap.pa], m);
      return 5;
    }

    /** allocate_memory: the count of pages if all five are there, otherwise minus
        the count, with the pages that were granted still held. */
    method AllocateMemory() returns (cnt: int)
      requires Follows(env, start, trace, m) && HeldPages() == []
      modifies this`m, this`trace, this`vmxonRegion, this`vmcs, this`ioBitmapA, this`ioBitmapB, this`msrBitmap
      ensures Follows(env, start, trace, m)
      ensures m == Request(env, old(m), 5).0 && HeldPages() == Request(env, old(m), 5).1
      ensures cnt == if |HeldPages()| == 5 then 5 else -|HeldPages()|
    {
      hide *;
      cnt := AllocateVmxPages();
      if cnt < 2 { return -cnt; }
      cnt := AllocateBitmaps(old(m));
      return if cnt == 5 then 5 else -cnt;
    }

    /** The addresses in the five page fields, in the order of ALLOCATED. */
    function Addresses(): seq<Address>
      reads this`vmxonRegion, this`vmcs, this`ioBitmapA, this`ioBitmapB, this`msrBitmap
      ensures |Addresses()| == 5
    {
      [vmxonRegion.pa, vmcs.pa, ioBitmapA.pa, ioBitmapB.pa, msrBitmap.pa]
    }

    /** free_vmpage. */
    method FreeVmPage(s: Slot)
      requires Follows(env, start, trace, m)
      modifies this`m, this`trace, this`vmxonRegion, this`vmcs, this`ioBitmapA, this`ioBitmapB, this`msrBitmap
      ensures Follows(env, start, trace, m)
      ensures m == FreePage(old(m), old(PageIn(s)).pa)
      ensures forall t :: PageIn(t) == if t == s then NO_PAGE else old(PageIn(t))
    {
      hide Follows, FreePage;
      Perform(Protocol.Op.Free(PageIn(s).pa));
      match s
      case VmxonRegion => vmxonRegion := NO_PAGE;
      case VmcsPage => vmcs := NO_PAGE;
      case IoBitmapA => ioBitmapA := NO_PAGE;
      case IoBitmapB => ioBitmapB := NO_PAGE;
      case MsrBitmap => msrBitmap := NO_PAGE;
    }

    /** Lines 62 to 64: the bitmaps among the pages of Freed(cnt) go; what `left` stands for is
        still to be freed. */
    method FreeBitmaps(cnt: int) returns (left: int)
      requires Follows(env, start, trace, m)
      modifies this`m, this`trace, this`vmxonRegion, this`vmcs, this`ioBitmapA, this`ioBitmapB, this`msrBitmap
      ensures Follows(env, start, trace, m) && left == if 3 <= cnt <= 5 then 2 else cnt
      ensures FreeAll(m, AddressesIn(old(Addresses()), Freed(left)))
           == FreeAll(old(m), AddressesIn(old(Addresses()), Freed(cnt)))
      ensures forall s :: PageIn(s) == if Pages.Position(s) >= 2 && s in Freed(cnt) then NO_PAGE else old(PageIn(s))
    {
      hide FreePage, FreeAll, Freed, AddressesIn, Follows;
      FreedSlots(cnt);
      ghost var at := Addresses();
      left := cnt;
      if left == 5 { NextFreed(m, at, 5); FreeVmPage(MsrBitmap); left := left - 1; }
      if left == 4 { NextFreed(m, at, 4); FreeVmPage(IoBitmapB); left := left - 1; }
      if left == 3 { NextFreed(m, at, 3); FreeVmPage(IoBitmapA); left := left - 1; }
    }

    /** Lines 65 and 66. */
    method FreeVmxPages(left: int, ghost at: seq<Address>)
      requires Follows(env, start, trace, m) && !(3 <= left <= 5)
      requires |at| == 5 && PageIn(VmxonRegion).pa == at[0] && PageIn(VmcsPage).pa == at[1]
      modifies this`m, this`trace, this`vmxonRegion, this`vmcs, this`ioBitmapA, this`ioBitmapB, this`msrBitmap
      ensures Follows(env, start, trace, m) && m == FreeAll(old(m), AddressesIn(at, Freed(left)))
      ensures forall s :: PageIn(s) == if s in Freed(left) then NO_PAGE else old(PageIn(s))
    {
      hide FreePage, FreeAll, Freed, AddressesIn, Follows;
      FreedSlots(left);
      var now := left;
      if now == 2 { NextFreed(m, at, 2); FreeVmPage(VmxonRegion); now := now - 1; }
      if now == 1 { NextFreed(m, at, 1); FreeVmPage(VmcsPage); now := now - 1; }
      NothingFreed(m, at, now);
    }

    /** free_memory: the pages of Freed(cnt) go, and only they. */
    method FreeMemory(cnt: int)
      requires Follows(env, start, trace, m)
      modifies this`m, this`trace, this`vmxonRegion, this`vmcs, this`ioBitmapA, this`ioBitmapB, this`msrBitmap
      ensures Follows(env, start, trace, m)
      ensures m == FreeAll(old(m), AddressesIn(old(Addresses()), Freed(cnt)))
      ensures forall s :: PageIn(s) == if s in Freed(cnt) then NO_PAGE else old(PageIn(s))
    {
      hide FreePage, FreeAll, Freed, AddressesIn, Follows;
      FreedSlots(cnt);
      ghost var at := Addresses();
      var left := FreeBitmaps(cnt);
      FreedSlots(left);
      FreeVmxPages(left, at);
    }

    /** vmlatency_preempt_disable. */
    method PreemptDisable() returns (irqFlags: Word)
      requires Follows(env, start, trace, m)
      modifies this`m, this`trace
      ensures Follows(env, start, trace, m) && m == Cpu.PreemptDisable(old(m)).0 && irqFlags == old(m).core.rflags
      ensures m.core.rflags.bits == old(m).core.rflags.bits & 0xffff_ffff_ffff_fdff
    {
      hide Follows, Cpu.PreemptDisable;
      PlainRuns.Masks(m);
      irqFlags := m.core.rflags;
      Perform(Protocol.Op.DisableInterrupts);
    }

    /** vmlatency_preempt_enable. */
    method PreemptEnable(irqFlags: Word)
      requires Follows(env, start, trace, m) && m.kernel.preemptDepth == start.kernel.preemptDepth + 1
      modifies this`m, this`trace
      ensures Follows(env, start, trace, m) && m == Cpu.PreemptEnable(old(m), irqFlags)
    {
      hide Follows;
      FollowsEnable(env, start, trace, m, irqFlags);
      m := Protocol.Apply(env, m, Protocol.Op.EnableInterrupts(irqFlags));
      trace := trace + [Protocol.Op.EnableInterrupts(irqFlags)];
    }

    // -------------------------------------------------------------- capabilities

    /** The control-word fields hold what the capability MSRs say. */
    ghost predicate Cached()
      reads this`pinbasedAllowed0, this`pinbasedAllowed1, this`procbasedAllowed0, this`procbasedAllowed1,
        this`exitCtlsAllowed0, this`exitCtlsAllowed1, this`entryCtlsAllowed0, this`entryCtlsAllowed1
    {
      && pinbasedAllowed0 == Allowed0(PinMsr(env.caps)) && pinbasedAllowed1 == Allowed1(PinMsr(env.caps))
      && procbasedAllowed0 == Allowed0(ProcMsr(env.caps)) && procbasedAllowed1 == Allowed1(ProcMsr(env.caps))
      && exitCtlsAllowed0 == Allowed0(ExitMsr(env.caps)) && exitCtlsAllowed1 == Allowed1(ExitMsr(env.caps))
      && entryCtlsAllowed0 == Allowed0(EntryMsr(env.caps)) && entryCtlsAllowed1 == Allowed1(EntryMsr(env.caps))
    }

    /** Lines 420 to 437: the MSRs as read. The true processor-based controls come
        from the same MSR as the ordinary ones. */
    method ReadCapabilities()
      modifies this`vmxBasic, this`vmcsRevisionId, this`hasTrueCtls,
        this`pinbasedCtls, this`procbasedCtls, this`exitCtls, this`entryCtls,
        this`truePinbasedCtls, this`trueProcbasedCtls, this`trueExitCtls, this`trueEntryCtls
      ensures vmcsRevisionId == WrittenRevision(env.caps.basic)
      ensures hasTrueCtls <==> env.caps.basic.bits & 0x80_0000_0000_0000 != 0
      ensures
        (if hasTrueCtls then truePinbasedCtls else pinbasedCtls)
        == if hasTrueCtls then env.caps.truePin else env.caps.pin
      ensures (if hasTrueCtls then trueProcbasedCtls else procbasedCtls) == env.caps.proc
      ensures
        (if hasTrueCtls then trueExitCtls else exitCtls)
        == if hasTrueCtls then env.caps.trueExit else env.caps.exit
      ensures
        (if hasTrueCtls then trueEntryCtls else entryCtls)
        == if hasTrueCtls then env.caps.trueEntry else env.caps.entry
      ensures (if hasTrueCtls then truePinbasedCtls else pinbasedCtls) == PinMsr(env.caps)
      ensures (if hasTrueCtls then trueProcbasedCtls else procbasedCtls) == ProcMsr(env.caps)
      ensures (if hasTrueCtls then trueExitCtls else exitCtls) == ExitMsr(env.caps)
      ensures (if hasTrueCtls then trueEntryCtls else entryCtls) == EntryMsr(env.caps)
    {
      hide WrittenRevision;
      vmxBasic := env.caps.basic;
      vmcsRevisionId := WrittenRevision(vmxBasic);
      hasTrueCtls := HasTrueControls(env.caps);

      pinbasedCtls := env.caps.pin;
      procbasedCtls := env.caps.proc;
      exitCtls := env.caps.exit;
      entryCtls := env.caps.entry;

      if hasTrueCtls {
        truePinbasedCtls := env.caps.truePin;
        trueProcbasedCtls := env.caps.proc;
        trueExitCtls := env.caps.trueExit;
        trueEntryCtls := env.caps.trueEntry;
      }
    }

    lemma CachedFrom(pin: Word, proc: Word, exit: Word, entry: Word)
      requires var c, hasTrue := env.caps, env.caps.basic.bits & 0x80_0000_0000_0000 != 0;
        && pin == (if hasTrue then c.truePin else c.pin) && proc == c.proc
        && exit == (if hasTrue then c.trueExit else c.exit) && entry == if hasTrue then c.trueEntry else c.entry
      requires pinbasedAllowed0 == Allowed0(pin) && pinbasedAllowed1 == Allowed1(pin)
      requires procbasedAllowed0 == Allowed0(proc) && procbasedAllowed1 == Allowed1(proc)
      requires exitCtlsAllowed0 == Allowed0(exit) && exitCtlsAllowed1 == Allowed1(exit)
      requires entryCtlsAllowed0 == Allowed0(entry) && entryCtlsAllowed1 == Allowed1(entry)
      ensures Cached()
    {
      Literals.MsrsRead(env.caps);
      hide Allowed0, Allowed1, PinMsr, ProcMsr, ExitMsr, EntryMsr;
    }

    /** cache_vmx_capabilities. */
    method CacheVmxCapabilities()
      modifies this`vmxBasic, this`vmcsRevisionId, this`hasTrueCtls,
        this`pinbasedCtls, this`procbasedCtls, this`exitCtls, this`entryCtls,
        this`truePinbasedCtls, this`trueProcbasedCtls, this`trueExitCtls, this`trueEntryCtls,
        this`pinbasedAllowed0, this`pinbasedAllowed1, this`procbasedAllowed0, this`procbasedAllowed1,
        this`exitCtlsAllowed0, this`exitCtlsAllowed1, this`entryCtlsAllowed0, this`entryCtlsAllowed1
      ensures Cached()
      ensures vmcsRevisionId == WrittenRevision(env.caps.basic)
      ensures hasTrueCtls <==> env.caps.basic.bits & 0x80_0000_0000_0000 != 0
      ensures var c := env.caps;
        && Literals.HalvesOf(if hasTrueCtls then c.truePin else c.pin, pinbasedAllowed0, pinbasedAllowed1)
        && Literals.HalvesOf(c.proc, procbasedAllowed0, procbasedAllowed1)
        && Literals.HalvesOf(if hasTrueCtls then c.trueExit else c.exit, exitCtlsAllowed0, exitCtlsAllowed1)
        && Literals.HalvesOf(if hasTrueCtls then c.trueEntry else c.entry, entryCtlsAllowed0, entryCtlsAllowed1)
    {
      hide *;
      ReadCapabilities();

      var pin := if hasTrueCtls then truePinbasedCtls else pinbasedCtls;
      var proc := if hasTrueCtls then trueProcbasedCtls else procbasedCtls;
      var exit := if hasTrueCtls then trueExitCtls else exitCtls;
      var entry := if hasTrueCtls then trueEntryCtls else entryCtls;
      pinbasedAllowed0, pinbasedAllowed1 := Allowed0(pin), Allowed1(pin);
      procbasedAllowed0, procbasedAllowed1 := Allowed0(proc), Allowed1(proc);
      exitCtlsAllowed0, exitCtlsAllowed1 := Allowed0(exit), Allowed1(exit);
      entryCtlsAllowed0, entryCtlsAllowed1 := Allowed0(entry), Allowed1(entry);
      Literals.MsrHalves(pin);
      Literals.MsrHalves(proc);
      Literals.MsrHalves(exit);
      Literals.MsrHalves(entry);
      CachedFrom(pin, proc, exit, entry);
    }

    // ---------------------------------------------------------- initialize_vmcs

    /** __vmwrite. Where a VMCS is current and the value fits a writable field, exactly that
        field changes. */
    method Vmwrite(f: Field, v: Word)
      requires Follows(env, start, trace, m) && OnOurs(env, start, m)
      modifies this`m, this`trace
      ensures Follows(env, start, trace, m) && OnOurs(env, start, m) && trace == old(trace) + [OpOf(Write(f, v))]
      ensures Writable(old(m)) && Proper(Write(f, v)) ==>
        m == WithFields(old(m), Put(old(m).vmx.fields, f, v)) && Writable(m)
    {
      hide Follows, Put, Proper, Writable, Benign, OnOurs;
      if Writable(m) && Proper(Write(f, v)) { WriteDone(env, m, Write(f, v)); }
      WriteStays(env, start, m, f, v);
      Perform(Protocol.Op.Vmwrite(f, v));
    }

    function GetSegmentAr(selector: Half): Word { AccessRights(env.lar(selector)) }

    /** Lines 190 to 195. */
    method WriteEs()
      requires Follows(env, start, trace, m) && Writable(m) && OnOurs(env, start, m)
      modifies this`m, this`trace
      ensures Follows(env, start, trace, m) && Writable(m) && OnOurs(env, start, m)
      ensures m.regs == old(m).regs && m.core == old(m).core
      ensures var p := PlanOf(env, old(m), ioBitmapA.pa, ioBitmapB.pa);
        && Wrought(old(trace), old(m), EsWrites(p), trace, m)
        && m == WithFields(old(m), EsPart(p, old(m).vmx.fields))
    {
      hide Follows, OnOurs, Proper, PutAll, Ops, OpOf, Wrought, Writable, EsPart, Allowed0, Allowed1,
        HostSelector, Wide, Wide32, AccessRights, FlatLimit, Limit16, TrBase, SysenterCs, ControlWord;
      ghost var p, t := PlanOf(env, m, ioBitmapA.pa, ioBitmapB.pa), trace;
      var val16 := m.regs.es;
      Vmwrite(HOST_ES, HostSelector(val16));
      Vmwrite(GUEST_ES, Wide(val16));
      Vmwrite(GUEST_ES_BASE, ZERO);
      Vmwrite(GUEST_ES_LIMIT, Word(0xffff_ffff));
      Vmwrite(GUEST_ES_ACCESS_RIGHTS, UNUSABLE_AR);
      OpsFive(t, EsWrites(p));
      EsProper(p);
      EsPut(p, old(m).vmx.fields);
      Wrote(env, start, t, old(m), trace, m, EsWrites(p));
    }

    /** Lines 197 to 204. */
    method WriteCs()
      requires Follows(env, start, trace, m) && Writable(m) && OnOurs(env, start, m)
      modifies this`m, this`trace
      ensures Follows(env, start, trace, m) && Writable(m) && OnOurs(env, start, m)
      ensures m.regs == old(m).regs && m.core == old(m).core
      ensures var p := PlanOf(env, old(m), ioBitmapA.pa, ioBitmapB.pa);
        && Wrought(old(trace), old(m), CsWrites(p), trace, m)
        && m == WithFields(old(m), CsPart(p, old(m).vmx.fields))
    {
      hide Follows, OnOurs, Proper, PutAll, Ops, OpOf, Wrought, Writable, CsPart, Allowed0, Allowed1,
        HostSelector, Wide, Wide32, AccessRights, FlatLimit, Limit16, TrBase, SysenterCs, ControlWord;
      ghost var p, t := PlanOf(env, m, ioBitmapA.pa, ioBitmapB.pa), trace;
      var val16 := m.regs.cs;
      var segmentAr := GetSegmentAr(val16);
      var segmentLimit := FlatLimit(segmentAr);
      Vmwrite(HOST_CS, HostSelector(val16));
      Vmwrite(GUEST_CS, Wide(val16));
      Vmwrite(GUEST_CS_BASE, ZERO);
      Vmwrite(GUEST_CS_LIMIT, segmentLimit);
      Vmwrite(GUEST_CS_ACCESS_RIGHTS, segmentAr);
      OpsFive(t, CsWrites(p));
      CsProper(p);
      CsPut(p, old(m).vmx.fields);
      Wrote(env, start, t, old(m), trace, m, CsWrites(p));
    }

    /** Lines 206 to 213. */
    method WriteSs()
      requires Follows(env, start, trace, m) && Writable(m) && OnOurs(env, start, m)
      modifies this`m, this`trace
      ensures Follows(env, start, trace, m) && Writable(m) && OnOurs(env, start, m)
      ensures m.regs == old(m).regs && m.core == old(m).core
      ensures var p := PlanOf(env, old(m), ioBitmapA.pa, ioBitmapB.pa);
        && Wrought(old(trace), old(m), SsWrites(p), trace, m)
        && m == WithFields(old(m), SsPart(p, old(m).vmx.fields))
    {
      hide Follows, OnOurs, Proper, PutAll, Ops, OpOf, Wrought, Writable, SsPart, Allowed0, Allowed1,
        HostSelector, Wide, Wide32, AccessRights, FlatLimit, Limit16, TrBase, SysenterCs, ControlWord;
      ghost var p, t := PlanOf(env, m, ioBitmapA.pa, ioBitmapB.pa), trace;
      var val16 := m.regs.ss;
      var segmentAr := GetSegmentAr(val16);
      var segmentLimit := FlatLimit(segmentAr);
      Vmwrite(HOST_SS, HostSelector(val16));
      Vmwrite(GUEST_SS, Wide(val16));
      Vmwrite(GUEST_SS_BASE, ZERO);
      Vmwrite(GUEST_SS_LIMIT, segmentLimit);
      Vmwrite(GUEST_SS_ACCESS_RIGHTS, segmentAr);
      OpsFive(t, SsWrites(p));
      SsProper(p);
      SsPut(p, old(m).vmx.fields);
      Wrote(env, start, t, old(m), trace, m, SsWrites(p));
    }

    /** Lines 215 to 220. */
    method WriteDs()
      requires Follows(env, start, trace, m) && Writable(m) && OnOurs(env, start, m)
      modifies this`m, this`trace
      ensures Follows(env, start, trace, m) && Writable(m) && OnOurs(env, start, m)
      ensures m.regs == old(m).regs && m.core == old(m).core
      ensures var p := PlanOf(env, old(m), ioBitmapA.pa, ioBitmapB.pa);
        && Wrought(old(trace), old(m), DsWrites(p), trace, m)
        && m == WithFields(old(m), DsPart(p, old(m).vmx.fields))
    {
      hide Follows, OnOurs, Proper, PutAll, Ops, OpOf, Wrought, Writable, DsPart, Allowed0, Allowed1,
        HostSelector, Wide, Wide32, AccessRights, FlatLimit, Limit16, TrBase, SysenterCs, ControlWord;
      ghost var p, t := PlanOf(env, m, ioBitmapA.pa, ioBitmapB.pa), trace;
      var val16 := m.regs.ds;
      Vmwrite(HOST_DS, HostSelector(val16));
      Vmwrite(GUEST_DS, Wide(val16));
      Vmwrite(GUEST_DS_BASE, ZERO);
      Vmwrite(GUEST_DS_LIMIT, Word(0xffff_ffff));
      Vmwrite(GUEST_DS_ACCESS_RIGHTS, UNUSABLE_AR);
      OpsFive(t, DsWrites(p));
      DsProper(p);
      DsPut(p, old(m).vmx.fields);
      Wrote(env, start, t, old(m), trace, m, DsWrites(p));
    }

    /** Lines 222 to 229. */
    method WriteFs()
      requires Follows(env, start, trace, m) && Writable(m) && OnOurs(env, start, m)
      modifies this`m, this`trace
      ensures Follows(env, start, trace, m) && Writable(m) && OnOurs(env, start, m)
      ensures m.regs == old(m).regs && m.core == old(m).core
      ensures var p := PlanOf(env, old(m), ioBitmapA.pa, ioBitmapB.pa);
        && Wrought(old(trace), old(m), FsWrites(p), trace, m)
        && m == WithFields(old(m), FsPart(p, old(m).vmx.fields))
    {
      hide Follows, OnOurs, Proper, PutAll, Ops, OpOf, Wrought, Writable, FsPart, Allowed0, Allowed1,
        HostSelector, Wide, Wide32, AccessRights, FlatLimit, Limit16, TrBase, SysenterCs, ControlWord;
      ghost var p, t := PlanOf(env, m, ioBitmapA.pa, ioBitmapB.pa), trace;
      var val16, base := m.regs.fs, m.regs.fsBase;
      Vmwrite(HOST_FS, HostSelector(val16));
      Vmwrite(GUEST_FS, Wide(val16));
      Vmwrite(GUEST_FS_BASE, base);
      Vmwrite(HOST_FS_BASE, base);
      Vmwrite(GUEST_FS_LIMIT, Word(0xffff_ffff));
      Vmwrite(GUEST_FS_ACCESS_RIGHTS, UNUSABLE_AR);
      OpsSix(t, FsWrites(p));
      FsProper(p);
      FsPut(p, old(m).vmx.fields);
      Wrote(env, start, t, old(m), trace, m, FsWrites(p));
    }

    /** Lines 231 to 238. */
    method WriteGs()
      requires Follows(env, start, trace, m) && Writable(m) && OnOurs(env, start, m)
      modifies this`m, this`trace
      ensures Follows(env, start, trace, m) && Writable(m) && OnOurs(env, start, m)
      ensures m.regs == old(m).regs && m.core == old(m).core
      ensures var p := PlanOf(env, old(m), ioBitmapA.pa, ioBitmapB.pa);
        && Wrought(old(trace), old(m), GsWrites(p), trace, m)
        && m == WithFields(old(m), GsPart(p, old(m).vmx.fields))
    {
      hide Follows, OnOurs, Proper, PutAll, Ops, OpOf, Wrought, Writable, GsPart, Allowed0, Allowed1,
        HostSelector, Wide, Wide32, AccessRights, FlatLimit, Limit16, TrBase, SysenterCs, ControlWord;
      ghost var p, t := PlanOf(env, m, ioBitmapA.pa, ioBitmapB.pa), trace;
      var val16, base := m.regs.gs, m.regs.gsBase;
      Vmwrite(HOST_GS, HostSelector(val16));
      Vmwrite(GUEST_GS, Wide(val16));
      Vmwrite(GUEST_GS_BASE, base);
      Vmwrite(HOST_GS_BASE, base);
      Vmwrite(GUEST_GS_LIMIT, Word(0xffff_ffff));
      Vmwrite(GUEST_GS_ACCESS_RIGHTS, UNUSABLE_AR);
      OpsSix(t, GsWrites(p));
      GsProper(p);
      GsPut(p, old(m).vmx.fields);
      Wrote(env, start, t, old(m), trace, m, GsWrites(p));
    }

    /** Lines 240 to 244. */
    method WriteLdtr()
      requires Follows(env, start, trace, m) && Writable(m) && OnOurs(env, start, m)
      modifies this`m, this`trace
      ensures Follows(env, start, trace, m) && Writable(m) && OnOurs(env, start, m)
      ensures m.regs == old(m).regs && m.core == old(m).core
      ensures var p := PlanOf(env, old(m), ioBitmapA.pa, ioBitmapB.pa);
        && Wrought(old(trace), old(m), LdtrWrites(p), trace, m)
        && m == WithFields(old(m), LdtrPart(p, old(m).vmx.fields))
    {
      hide Follows, OnOurs, Proper, PutAll, Ops, OpOf, Wrought, Writable, LdtrPart, Allowed0, Allowed1,
        HostSelector, Wide, Wide32, AccessRights, FlatLimit, Limit16, TrBase, SysenterCs, ControlWord;
      ghost var p, t := PlanOf(env, m, ioBitmapA.pa, ioBitmapB.pa), trace;
      var val16 := m.regs.ldtr;
      Vmwrite(GUEST_LDTR, Wide(val16));
      Vmwrite(GUEST_LDTR_BASE, ZERO);
      Vmwrite(GUEST_LDTR_LIMIT, Word(0xffff_ffff));
      Vmwrite(GUEST_LDTR_ACCESS_RIGHTS, UNUSABLE_AR);
      OpsFour(t, LdtrWrites(p));
      LdtrProper(p);
      LdtrPut(p, old(m).vmx.fields);
      Wrote(env, start, t, old(m), trace, m, LdtrWrites(p));
    }

    /** Lines 246 to 254. */
    method WriteTables()
      requires Follows(env, start, trace, m) && Writable(m) && OnOurs(env, start, m)
      modifies this`m, this`trace
      ensures Follows(env, start, trace, m) && Writable(m) && OnOurs(env, start, m)
      ensures m.regs == old(m).regs && m.core == old(m).core
      ensures var p := PlanOf(env, old(m), ioBitmapA.pa, ioBitmapB.pa);
        && Wrought(old(trace), old(m), TableWrites(p), trace, m)
        && m == WithFields(old(m), TablePart(p, old(m).vmx.fields))
    {
      hide Follows, OnOurs, Proper, PutAll, Ops, OpOf, Wrought, Writable, TablePart, Allowed0, Allowed1,
        HostSelector, Wide, Wide32, AccessRights, FlatLimit, Limit16, TrBase, SysenterCs, ControlWord;
      ghost var p, t := PlanOf(env, m, ioBitmapA.pa, ioBitmapB.pa), trace;
      var gdtr, idtr := m.regs.gdtr, m.regs.idtr;
      Vmwrite(GUEST_GDTR_LIMIT, Wide(gdtr.limit));
      Vmwrite(GUEST_GDTR_BASE, gdtr.base);
      Vmwrite(HOST_GDTR_BASE, gdtr.base);
      Vmwrite(GUEST_IDTR_LIMIT, Wide(idtr.limit));
      Vmwrite(GUEST_IDTR_BASE, idtr.base);
      Vmwrite(HOST_IDTR_BASE, idtr.base);
      OpsSix(t, TableWrites(p));
      TableProper(p);
      TablePut(p, old(m).vmx.fields);
      Wrote(env, start, t, old(m), trace, m, TableWrites(p));
    }

    /** Lines 256 to 269. */
    method WriteTr()
      requires Follows(env, start, trace, m) && Writable(m) && OnOurs(env, start, m)
      modifies this`m, this`trace
      ensures Follows(env, start, trace, m) && Writable(m) && OnOurs(env, start, m)
      ensures m.regs == old(m).regs && m.core == old(m).core
      ensures var p := PlanOf(env, old(m), ioBitmapA.pa, ioBitmapB.pa);
        && Wrought(old(trace), old(m), TrWrites(p), trace, m)
        && m == WithFields(old(m), TrPart(p, old(m).vmx.fields))
    {
      hide Follows, OnOurs, Proper, PutAll, Ops, OpOf, Wrought, Writable, TrPart, Allowed0, Allowed1,
        HostSelector, Wide, Wide32, AccessRights, FlatLimit, Limit16, TrBase, SysenterCs, ControlWord;
      ghost var p, t := PlanOf(env, m, ioBitmapA.pa, ioBitmapB.pa), trace;
      var tr := m.regs.tr;
      var trLimit := Limit16(env.lsl(tr));
      var trbase := TrBase(env, m.regs);
      Vmwrite(GUEST_TR, HostSelector(tr));
      Vmwrite(HOST_TR, Wide(tr));
      Vmwrite(GUEST_TR_LIMIT, Wide(trLimit));
      Vmwrite(GUEST_TR_ACCESS_RIGHTS, GetSegmentAr(tr));
      Vmwrite(GUEST_TR_BASE, trbase);
      Vmwrite(HOST_TR_BASE, trbase);
      OpsSix(t, TrWrites(p));
      TrProper(p);
      TrPut(p, old(m).vmx.fields);
      Wrote(env, start, t, old(m), trace, m, TrWrites(p));
    }

    /** Lines 271 to 279. */
    method WriteWideControls()
      requires Follows(env, start, trace, m) && Writable(m) && OnOurs(env, start, m)
      modifies this`m, this`trace
      ensures Follows(env, start, trace, m) && Writable(m) && OnOurs(env, start, m)
      ensures m.regs == old(m).regs && m.core == old(m).core
      ensures var p := PlanOf(env, old(m), ioBitmapA.pa, ioBitmapB.pa);
        && Wrought(old(trace), old(m), WideControlWrites(p), trace, m)
        && m == WithFields(old(m), WideControlPart(p, old(m).vmx.fields))
    {
      hide Follows, OnOurs, Proper, PutAll, Ops, OpOf, Wrought, Writable, WideControlPart, Allowed0, Allowed1,
        HostSelector, Wide, Wide32, AccessRights, FlatLimit, Limit16, TrBase, SysenterCs, ControlWord;
      ghost var p, t := PlanOf(env, m, ioBitmapA.pa, ioBitmapB.pa), trace;
      Vmwrite(IO_BITMAP_A_ADDR, ioBitmapA.pa);
      Vmwrite(IO_BITMAP_B_ADDR, ioBitmapB.pa);
      Vmwrite(EXEC_VMCS_PTR, ZERO);
      Vmwrite(TSC_OFFSET, ZERO);
      Vmwrite(VMCS_LINK_PTR, Word(0xffff_ffff_ffff_ffff));
      Vmwrite(GUEST_IA32_DEBUGCTL, ZERO);
      OpsSix(t, WideControlWrites(p));
      WideControlProper(p);
      WideControlPut(p, old(m).vmx.fields);
      Wrote(env, start, t, old(m), trace, m, WideControlWrites(p));
    }

    /** Lines 281 to 290. */
    method WriteExecutionControls()
      requires Follows(env, start, trace, m) && Writable(m) && OnOurs(env, start, m) && Cached()
      modifies this`m, this`trace
      ensures Follows(env, start, trace, m) && Writable(m) && OnOurs(env, start, m)
      ensures m.regs == old(m).regs && m.core == old(m).core
      ensures var p := PlanOf(env, old(m), ioBitmapA.pa, ioBitmapB.pa);
        && Wrought(old(trace), old(m), ExecutionControlWrites(p), trace, m)
        && m == WithFields(old(m), ExecutionControlPart(p, old(m).vmx.fields))
    {
      hide Follows, OnOurs, Proper, PutAll, Ops, OpOf, Wrought, Writable, ExecutionControlPart, Allowed0,
        Allowed1, HostSelector, Wide, Wide32, AccessRights, FlatLimit, Limit16, TrBase, SysenterCs, ControlWord;
      ghost var p, t := PlanOf(env, m, ioBitmapA.pa, ioBitmapB.pa), trace;
      Vmwrite(PIN_BASED_VM_CTLS, Wide32(ControlWord(pinbasedAllowed0, pinbasedAllowed1, NO_BITS)));
      Vmwrite(PROC_BASED_VM_CTLS, Wide32(ControlWord(procbasedAllowed0, procbasedAllowed1, NO_BITS)));
      Vmwrite(EXCEPTION_BITMAP, Word(0xffff_ffff));
      Vmwrite(PF_ECODE_MASK, ZERO);
      Vmwrite(PF_ECODE_MATCH, ZERO);
      Vmwrite(CR3_TARGET_CNT, ZERO);
      OpsSix(t, ExecutionControlWrites(p));
      ExecutionControlProper(p);
      ExecutionControlPut(p, old(m).vmx.fields);
      Wrote(env, start, t, old(m), trace, m, ExecutionControlWrites(p));
    }

    /** Lines 291 to 295. */
    method WriteExitControls()
      requires Follows(env, start, trace, m) && Writable(m) && OnOurs(env, start, m) && Cached()
      modifies this`m, this`trace
      ensures Follows(env, start, trace, m) && Writable(m) && OnOurs(env, start, m)
      ensures m.regs == old(m).regs && m.core == old(m).core
      ensures var p := PlanOf(env, old(m), ioBitmapA.pa, ioBitmapB.pa);
        && Wrought(old(trace), old(m), ExitControlWrites(p), trace, m)
        && m == WithFields(old(m), ExitControlPart(p, old(m).vmx.fields))
    {
      hide Follows, OnOurs, Proper, PutAll, Ops, OpOf, Wrought, Writable, ExitControlPart, Allowed0, Allowed1,
        HostSelector, Wide, Wide32, AccessRights, FlatLimit, Limit16, TrBase, SysenterCs, ControlWord;
      ghost var p, t := PlanOf(env, m, ioBitmapA.pa, ioBitmapB.pa), trace;
      Vmwrite(VMEXIT_CTLS, Wide32(ControlWord(exitCtlsAllowed0, exitCtlsAllowed1, HOST_ADDR_SPACE_SIZE)));
      Vmwrite(VMEXIT_MSR_STORE_CNT, ZERO);
      Vmwrite(VMEXIT_MSR_LOAD_CNT, ZERO);
      OpsThree(t, ExitControlWrites(p));
      ExitControlProper(p);
      ExitControlPut(p, old(m).vmx.fields);
      Wrote(env, start, t, old(m), trace, m, ExitControlWrites(p));
    }

    /** Lines 296 to 302. */
    method WriteEntryControls()
      requires Follows(env, start, trace, m) && Writable(m) && OnOurs(env, start, m) && Cached()
      modifies this`m, this`trace
      ensures Follows(env, start, trace, m) && Writable(m) && OnOurs(env, start, m)
      ensures m.regs == old(m).regs && m.core == old(m).core
      ensures var p := PlanOf(env, old(m), ioBitmapA.pa, ioBitmapB.pa);
        && Wrought(old(trace), old(m), EntryControlWrites(p), trace, m)
        && m == WithFields(old(m), EntryControlPart(p, old(m).vmx.fields))
    {
      hide Follows, OnOurs, Proper, PutAll, Ops, OpOf, Wrought, Writable, EntryControlPart, Allowed0, Allowed1,
        HostSelector, Wide, Wide32, AccessRights, FlatLimit, Limit16, TrBase, SysenterCs, ControlWord;
      ghost var p, t := PlanOf(env, m, ioBitmapA.pa, ioBitmapB.pa), trace;
      Vmwrite(VMENTRY_CTLS, Wide32(ControlWord(entryCtlsAllowed0, entryCtlsAllowed1, IA32E_MODE_GUEST)));
      Vmwrite(VMENTRY_MSR_LOAD_CNT, ZERO);
      Vmwrite(VMENTRY_INT_INFO, ZERO);
      Vmwrite(VMENTRY_ECODE, ZERO);
      Vmwrite(VMENTRY_INSTR_LEN, ZERO);
      OpsFive(t, EntryControlWrites(p));
      EntryControlProper(p);
      EntryControlPut(p, old(m).vmx.fields);
      Wrote(env, start, t, old(m), trace, m, EntryControlWrites(p));
    }

    /** Lines 304 to 311. */
    method WriteGuestState()
      requires Follows(env, start, trace, m) && Writable(m) && OnOurs(env, start, m)
      modifies this`m, this`trace
      ensures Follows(env, start, trace, m) && Writable(m) && OnOurs(env, start, m)
      ensures m.regs == old(m).regs && m.core == old(m).core
      ensures var p := PlanOf(env, old(m), ioBitmapA.pa, ioBitmapB.pa);
        && Wrought(old(trace), old(m), GuestStateWrites(p), trace, m)
        && m == WithFields(old(m), GuestStatePart(p, old(m).vmx.fields))
    {
      hide Follows, OnOurs, Proper, PutAll, Ops, OpOf, Wrought, Writable, GuestStatePart, Allowed0, Allowed1,
        HostSelector, Wide, Wide32, AccessRights, FlatLimit, Limit16, TrBase, SysenterCs, ControlWord;
      ghost var p, t := PlanOf(env, m, ioBitmapA.pa, ioBitmapB.pa), trace;
      var sysenterCs := SysenterCs(m.regs);
      Vmwrite(GUEST_INTERRUPTIBILITY_STATE, ZERO);
      Vmwrite(GUEST_ACTIVITY_STATE, ZERO);
      Vmwrite(GUEST_SMBASE, ZERO);
      Vmwrite(GUEST_IA32_SYSENTER_CS, sysenterCs);
      Vmwrite(HOST_IA32_SYSENTER_CS, sysenterCs);
      OpsFive(t, GuestStateWrites(p));
      GuestStateProper(p);
      GuestStatePut(p, old(m).vmx.fields);
      Wrote(env, start, t, old(m), trace, m, GuestStateWrites(p));
    }

    /** Lines 313 to 324. */
    method WriteCr0Cr4()
      requires Follows(env, start, trace, m) && Writable(m) && OnOurs(env, start, m)
      modifies this`m, this`trace
      ensures Follows(env, start, trace, m) && Writable(m) && OnOurs(env, start, m)
      ensures m.regs == old(m).regs && m.core == old(m).core
      ensures var p := PlanOf(env, old(m), ioBitmapA.pa, ioBitmapB.pa);
        && Wrought(old(trace), old(m), Cr0Cr4Writes(p), trace, m)
        && m == WithFields(old(m), Cr0Cr4Part(p, old(m).vmx.fields))
    {
      hide Follows, OnOurs, Proper, PutAll, Ops, OpOf, Wrought, Writable, Cr0Cr4Part, Allowed0, Allowed1,
        HostSelector, Wide, Wide32, AccessRights, FlatLimit, Limit16, TrBase, SysenterCs, ControlWord;
      ghost var p, t := PlanOf(env, m, ioBitmapA.pa, ioBitmapB.pa), trace;
      var cr0, cr4 := m.regs.cr0, m.regs.cr4;
      Vmwrite(GUEST_CR0, cr0);
      Vmwrite(HOST_CR0, cr0);
      Vmwrite(CR0_GUEST_HOST_MASK, ZERO);
      Vmwrite(CR0_READ_SHADOW, ZERO);
      Vmwrite(GUEST_CR4, cr4);
      Vmwrite(HOST_CR4, cr4);
      Vmwrite(CR4_GUEST_HOST_MASK, ZERO);
      Vmwrite(CR4_READ_SHADOW, ZERO);
      OpsEight(t, Cr0Cr4Writes(p));
      Cr0Cr4Proper(p);
      Cr0Cr4Put(p, old(m).vmx.fields);
      Wrote(env, start, t, old(m), trace, m, Cr0Cr4Writes(p));
    }

    /** Lines 326 to 332. */
    method WriteCr3()
      requires Follows(env, start, trace, m) && Writable(m) && OnOurs(env, start, m)
      modifies this`m, this`trace
      ensures Follows(env, start, trace, m) && Writable(m) && OnOurs(env, start, m)
      ensures m.regs == old(m).regs && m.core == old(m).core
      ensures var p := PlanOf(env, old(m), ioBitmapA.pa, ioBitmapB.pa);
        && Wrought(old(trace), old(m), Cr3Writes(p), trace, m)
        && m == WithFields(old(m), Cr3Part(p, old(m).vmx.fields))
    {
      hide Follows, OnOurs, Proper, PutAll, Ops, OpOf, Wrought, Writable, Cr3Part, Allowed0, Allowed1,
        HostSelector, Wide, Wide32, AccessRights, FlatLimit, Limit16, TrBase, SysenterCs, ControlWord;
      ghost var p, t := PlanOf(env, m, ioBitmapA.pa, ioBitmapB.pa), trace;
      var cr3 := m.regs.cr3;
      Vmwrite(GUEST_CR3, cr3);
      Vmwrite(HOST_CR3, cr3);
      Vmwrite(CR3_TARGET_VALUE_0, ZERO);
      Vmwrite(CR3_TARGET_VALUE_1, ZERO);
      Vmwrite(CR3_TARGET_VALUE_2, ZERO);
      Vmwrite(CR3_TARGET_VALUE_3, ZERO);
      OpsSix(t, Cr3Writes(p));
      Cr3Proper(p);
      Cr3Put(p, old(m).vmx.fields);
      Wrote(env, start, t, old(m), trace, m, Cr3Writes(p));
    }

    /** Lines 334 to 347. */
    method WriteFlow()
      requires Follows(env, start, trace, m) && Writable(m) && OnOurs(env, start, m)
      modifies this`m, this`trace
      ensures Follows(env, start, trace, m) && Writable(m) && OnOurs(env, start, m)
      ensures m.regs == old(m).regs && m.core == old(m).core
      ensures var p := PlanOf(env, old(m), ioBitmapA.pa, ioBitmapB.pa);
        && Wrought(old(trace), old(m), FlowWrites(p), trace, m)
        && m == WithFields(old(m), FlowPart(p, old(m).vmx.fields))
    {
      hide Follows, OnOurs, Proper, PutAll, Ops, OpOf, Wrought, Writable, FlowPart, Allowed0, Allowed1,
        HostSelector, Wide, Wide32, AccessRights, FlatLimit, Limit16, TrBase, SysenterCs, ControlWord;
      ghost var p, t := PlanOf(env, m, ioBitmapA.pa, ioBitmapB.pa), trace;
      var rflags := m.core.rflags;
      Vmwrite(GUEST_DR7, Word(0x400));
      Vmwrite(GUEST_RSP, ZERO);
      Vmwrite(GUEST_RIP, env.guestCode);
      Vmwrite(HOST_RIP, env.code(VMX_EXIT));
      Vmwrite(GUEST_RFLAGS, rflags);
      Vmwrite(GUEST_PENDING_DBG_EXCEPTION, ZERO);
      OpsSix(t, FlowWrites(p));
      FlowProper(p);
      FlowPut(p, old(m).vmx.fields);
      Wrote(env, start, t, old(m), trace, m, FlowWrites(p));
    }

    /** Lines 349 to 355. */
    method WriteSysenter()
      requires Follows(env, start, trace, m) && Writable(m) && OnOurs(env, start, m)
      modifies this`m, this`trace
      ensures Follows(env, start, trace, m) && Writable(m) && OnOurs(env, start, m)
      ensures m.regs == old(m).regs && m.core == old(m).core
      ensures var p := PlanOf(env, old(m), ioBitmapA.pa, ioBitmapB.pa);
        && Wrought(old(trace), old(m), SysenterWrites(p), trace, m)
        && m == WithFields(old(m), SysenterPart(p, old(m).vmx.fields))
    {
      hide Follows, OnOurs, Proper, PutAll, Ops, OpOf, Wrought, Writable, SysenterPart, Allowed0, Allowed1,
        HostSelector, Wide, Wide32, AccessRights, FlatLimit, Limit16, TrBase, SysenterCs, ControlWord;
      ghost var p, t := PlanOf(env, m, ioBitmapA.pa, ioBitmapB.pa), trace;
      var esp, eip := m.regs.sysenterEsp, m.regs.sysenterEip;
      Vmwrite(GUEST_IA32_SYSENTER_ESP, esp);
      Vmwrite(HOST_IA32_SYSENTER_ESP, esp);
      Vmwrite(GUEST_IA32_SYSENTER_EIP, esp);
      Vmwrite(HOST_IA32_SYSENTER_EIP, eip);
      OpsFour(t, SysenterWrites(p));
      SysenterProper(p);
      SysenterPut(p, old(m).vmx.fields);
      Wrote(env, start, t, old(m), trace, m, SysenterWrites(p));
    }

    /** Lines 189 to 269. */
    method WriteHostMirror()
      requires Follows(env, start, trace, m) && Writable(m) && OnOurs(env, start, m)
      modifies this`m, this`trace
      ensures Follows(env, start, trace, m) && Writable(m) && OnOurs(env, start, m)
      ensures m.regs == old(m).regs && m.core == old(m).core
      ensures Wrought(old(trace), old(m), HostMirrorWrites(PlanOf(env, old(m), ioBitmapA.pa, ioBitmapB.pa)), trace, m)
    {
      hide *;
      ghost var p, t, o := PlanOf(env, m, ioBitmapA.pa, ioBitmapB.pa), trace, m;
      ghost var t1, m1, done;
      WriteEs();
      t1, m1, done := trace, m, EsWrites(p);
      SamePlan(env, o, m, ioBitmapA.pa, ioBitmapB.pa);
      WriteCs();
      WroughtThen(t, o, done, t1, m1, CsWrites(p), trace, m);
      t1, m1, done := trace, m, done + CsWrites(p);
      SamePlan(env, o, m, ioBitmapA.pa, ioBitmapB.pa);
      WriteSs();
      WroughtThen(t, o, done, t1, m1, SsWrites(p), trace, m);
      t1, m1, done := trace, m, done + SsWrites(p);
      SamePlan(env, o, m, ioBitmapA.pa, ioBitmapB.pa);
      WriteDs();
      WroughtThen(t, o, done, t1, m1, DsWrites(p), trace, m);
      t1, m1, done := trace, m, done + DsWrites(p);
      SamePlan(env, o, m, ioBitmapA.pa, ioBitmapB.pa);
      WriteFs();
      WroughtThen(t, o, done, t1, m1, FsWrites(p), trace, m);
      t1, m1, done := trace, m, done + FsWrites(p);
      SamePlan(env, o, m, ioBitmapA.pa, ioBitmapB.pa);
      WriteGs();
      WroughtThen(t, o, done, t1, m1, GsWrites(p), trace, m);
      t1, m1, done := trace, m, done + GsWrites(p);
      SamePlan(env, o, m, ioBitmapA.pa, ioBitmapB.pa);
      WriteLdtr();
      WroughtThen(t, o, done, t1, m1, LdtrWrites(p), trace, m);
      t1, m1, done := trace, m, done + LdtrWrites(p);
      SamePlan(env, o, m, ioBitmapA.pa, ioBitmapB.pa);
      WriteTables();
      WroughtThen(t, o, done, t1, m1, TableWrites(p), trace, m);
      t1, m1, done := trace, m, done + TableWrites(p);
      SamePlan(env, o, m, ioBitmapA.pa, ioBitmapB.pa);
      WriteTr();
      WroughtThen(t, o, done, t1, m1, TrWrites(p), trace, m);
      t1, m1, done := trace, m, done + TrWrites(p);
      HostMirrorWritesListed(p);
    }

    /** Lines 271 to 355. */
    method WriteRemaining()
      requires Follows(env, start, trace, m) && Writable(m) && OnOurs(env, start, m) && Cached()
      modifies this`m, this`trace
      ensures Follows(env, start, trace, m) && Writable(m) && OnOurs(env, start, m)
      ensures m.regs == old(m).regs && m.core == old(m).core
      ensures Wrought(old(trace), old(m), RemainingWrites(PlanOf(env, old(m), ioBitmapA.pa, ioBitmapB.pa)), trace, m)
    {
      hide *;
      ghost var p, t, o := PlanOf(env, m, ioBitmapA.pa, ioBitmapB.pa), trace, m;
      ghost var t1, m1, done;
      WriteWideControls();
      t1, m1, done := trace, m, WideControlWrites(p);
      SamePlan(env, o, m, ioBitmapA.pa, ioBitmapB.pa);
      WriteExecutionControls();
      WroughtThen(t, o, done, t1, m1, ExecutionControlWrites(p), trace, m);
      t1, m1, done := trace, m, done + ExecutionControlWrites(p);
      SamePlan(env, o, m, ioBitmapA.pa, ioBitmapB.pa);
      WriteExitControls();
      WroughtThen(t, o, done, t1, m1, ExitControlWrites(p), trace, m);
      t1, m1, done := trace, m, done + ExitControlWrites(p);
      SamePlan(env, o, m, ioBitmapA.pa, ioBitmapB.pa);
      WriteEntryControls();
      WroughtThen(t, o, done, t1, m1, EntryControlWrites(p), trace, m);
      t1, m1, done := trace, m, done + EntryControlWrites(p);
      SamePlan(env, o, m, ioBitmapA.pa, ioBitmapB.pa);
      WriteGuestState();
      WroughtThen(t, o, done, t1, m1, GuestStateWrites(p), trace, m);
      t1, m1, done := trace, m, done + GuestStateWrites(p);
      SamePlan(env, o, m, ioBitmapA.pa, ioBitmapB.pa);
      WriteCr0Cr4();
      WroughtThen(t, o, done, t1, m1, Cr0Cr4Writes(p), trace, m);
      t1, m1, done := trace, m, done + Cr0Cr4Writes(p);
      SamePlan(env, o, m, ioBitmapA.pa, ioBitmapB.pa);
      WriteCr3();
      WroughtThen(t, o, done, t1, m1, Cr3Writes(p), trace, m);
      t1, m1, done := trace, m, done + Cr3Writes(p);
      SamePlan(env, o, m, ioBitmapA.pa, ioBitmapB.pa);
      WriteFlow();
      WroughtThen(t, o, done, t1, m1, FlowWrites(p), trace, m);
      t1, m1, done := trace, m, done + FlowWrites(p);
      SamePlan(env, o, m, ioBitmapA.pa, ioBitmapB.pa);
      WriteSysenter();
      WroughtThen(t, o, done, t1, m1, SysenterWrites(p), trace, m);
      t1, m1, done := trace, m, done + SysenterWrites(p);
      RemainingWritesListed(p);
    }

    /** initialize_vmcs: it makes the 97 writes of Writes(p), in this order, and whatever the
        VMCS held before, it holds the image after. */
    method InitializeVmcs()
      requires Follows(env, start, trace, m) && Writable(m) && OnOurs(env, start, m) && Cached()
      modifies this`m, this`trace
      ensures Follows(env, start, trace, m)
      ensures var p := PlanOf(env, old(m), ioBitmapA.pa, ioBitmapB.pa);
        && trace == old(trace) + Ops(Writes(p))
        && m == WithFields(old(m), Image(p, old(m).vmx.fields))
      ensures var f := m.vmx.fields;
        && FieldNumbers.At(f, 0x2000) == ioBitmapA.pa && FieldNumbers.At(f, 0x2002) == ioBitmapB.pa
        && Literals.UnusableSet(f) && Literals.FlatLimitsSet(env, old(m).regs, f)
        && Literals.TrLimitSet(env.lsl(old(m).regs.tr).bits as u64, f)
        && Literals.PinProcSet(env.caps, f) && Literals.ExitSet(env.caps, f) && Literals.EntrySet(env.caps, f)
    {
      hide *;
      ghost var p, t, o := PlanOf(env, m, ioBitmapA.pa, ioBitmapB.pa), trace, m;
      WriteHostMirror();
      ghost var t1, m1 := trace, m;
      SamePlan(env, o, m, ioBitmapA.pa, ioBitmapB.pa);
      WriteRemaining();
      WroughtThen(t, o, HostMirrorWrites(p), t1, m1, RemainingWrites(p), trace, m);
      WritesListed(p);
      WroughtImage(t, o, p, trace, m);
      Literals.FieldsOf(o, Image(p, o.vmx.fields));
      Literals.ComputedFields(env, o, ioBitmapA.pa, ioBitmapB.pa, o.vmx.fields);
    }

    // ---------------------------------------------------- entering and leaving VMX

    /** vmxon_setup_revision_id: the processor will accept the page's identifier exactly if
        the mask of the driver keeps the identifier intact. */
    method VmxonSetupRevisionId()
      requires Follows(env, start, trace, m)
      modifies this`m, this`trace
      ensures Follows(env, start, trace, m)
      ensures m == WriteRevision(old(m), vmxonRegion.pa, WrittenRevision(env.caps.basic))
      ensures RevisionOk(env, m, vmxonRegion.pa) <==> RevisionMatches(env)
      ensures forall p :: p != vmxonRegion.pa ==> (RevisionOk(env, m, p) <==> RevisionOk(env, old(m), p))
    {
      hide Follows, WrittenRevision, RequiredRevision;
      Perform(Protocol.Op.WriteRevision(vmxonRegion.pa, WrittenRevision(env.caps.basic)));
    }

    /** vmcs_setup_revision_id: the processor will accept the page's identifier exactly if
        the mask of the driver keeps the identifier intact. */
    method VmcsSetupRevisionId()
      requires Follows(env, start, trace, m)
      modifies this`m, this`trace
      ensures Follows(env, start, trace, m) && m == WriteRevision(old(m), vmcs.pa, WrittenRevision(env.caps.basic))
      ensures RevisionOk(env, m, vmcs.pa) <==> RevisionMatches(env)
      ensures forall p :: p != vmcs.pa ==> (RevisionOk(env, m, p) <==> RevisionOk(env, old(m), p))
    {
      hide Follows, WrittenRevision, RequiredRevision;
      Perform(Protocol.Op.WriteRevision(vmcs.pa, WrittenRevision(env.caps.basic)));
    }

    /** do_vmxon. CR4.VMXE stays set when VMXON fails. */
    method DoVmxon() returns (ret: int)
      requires Follows(env, start, trace, m) && InterruptsOff(m) && (m.vmx.on ==> Has(m.regs.cr4, CR4_VMXE))
      modifies this`m, this`trace, this`oldVmxe, this`ourVmxon
      ensures Follows(env, start, trace, m)
      ensures var how := CaseAt(env, old(m), vmxonRegion.pa);
        && m == AfterVmxon(old(m), how, vmxonRegion.pa)
        && ret == (if how.Refused? then -1 else 0)
        && (ret == 0 ==> ourVmxon == (how.Fresh? || how.Mistaken?))
      ensures oldVmxe == Has(old(m).regs.cr4, CR4_VMXE)
    {
      hide *;
      var oldCr4 := m.regs.cr4;
      oldVmxe := Has(oldCr4, CR4_VMXE);
      VmxeSetAlready(m);
      if !oldVmxe {
        SetCr4Benign(env, start, m, With(oldCr4, CR4_VMXE));
        Perform(Protocol.Op.SetCr4(With(oldCr4, CR4_VMXE)));
      }
      TriesAt(env, old(m), vmxonRegion.pa);
      VmxonStep(env, start, m, vmxonRegion.pa);
      var flags := Cpu.Vmxon(env, m, vmxonRegion.pa).flags;
      Perform(Protocol.Op.Vmxon(vmxonRegion.pa));
      ret := DecodeVmxon(flags);
      if ret == -1 {
        return -1;
      }
      ourVmxon := ret == 0;
      return 0;
    }

    /** do_vmxoff. */
    method DoVmxoff()
      requires Follows(env, start, trace, m) && (oldVmxe || ourVmxon || !m.vmx.on)
      modifies this`m, this`trace
      ensures Follows(env, start, trace, m) && m == AfterVmxoff(old(m), ourVmxon, oldVmxe)
      ensures old(m).vmx.on && InterruptsOff(old(m)) && (oldVmxe || ourVmxon) ==>
        && m.vmx == (if ourVmxon then Suspend(old(m).vmx).(on := false) else old(m).vmx)
        && m.regs == old(m).regs.(cr4 := Cr4Restored(old(m).regs.cr4, oldVmxe))
        && VmxeClearedInVmx !in m.log - old(m).log
    {
      hide Has, Without, Suspend, Follows;
      if m.vmx.on && InterruptsOff(m) && (oldVmxe || ourVmxon) { TurnsOff(m, ourVmxon, oldVmxe); }
      if ourVmxon {
        Perform(Protocol.Op.Vmxoff);
      }
      if !oldVmxe {
        Perform(Protocol.Op.SetCr4(Without(m.regs.cr4, CR4_VMXE)));
      }
    }

    /** do_vmptrld. */
    method DoVmptrld() returns (ret: int)
      requires Follows(env, start, trace, m)
      modifies this`m, this`trace
      ensures Follows(env, start, trace, m) && m == Cpu.Vmptrld(env, old(m), vmcs.pa).m
      ensures ret == if Unsuccessful(Cpu.Vmptrld(env, old(m), vmcs.pa).flags) then -1 else 0
      ensures InVmx(old(m)) && BlankVmcs(env, old(m), vmcs.pa) ==>
        (ret == 0 <==> Loadable(env, vmcs.pa)) && Loaded(env, old(m), m, vmcs.pa)
    {
      hide *;
      if InVmx(m) && BlankVmcs(env, m, vmcs.pa) { Loads(env, m, vmcs.pa); }
      VmcsSteps(env, start, m, vmcs.pa);
      var flags := Cpu.Vmptrld(env, m, vmcs.pa).flags;
      Perform(Protocol.Op.Vmptrld(vmcs.pa));
      return if Unsuccessful(flags) then -1 else 0;
    }

    /** do_vmclear. */
    method DoVmclear() returns (ret: int)
      requires Follows(env, start, trace, m)
      modifies this`m, this`trace
      ensures Follows(env, start, trace, m) && m == Cpu.Vmclear(env, old(m), vmcs.pa).m
      ensures ret == if Unsuccessful(Cpu.Vmclear(env, old(m), vmcs.pa).flags) then -1 else 0
      ensures
        (InterruptsOff(old(m)) && old(m).vmx.on && old(m).vmx.current == Some(vmcs.pa)
         && AddressOk(env, vmcs.pa) && vmcs.pa != old(m).vmx.region)
        ==> ret == 0 && vmcs.pa !in m.vmx.active && m.vmx.current == None && OthersKept(old(m).vmx, m.vmx, vmcs.pa)
    {
      hide *;
      if InterruptsOff(m) && m.vmx.on && m.vmx.current == Some(vmcs.pa) && AddressOk(env, vmcs.pa)
        && vmcs.pa != m.vmx.region {
        ClearsCurrent(env, m, vmcs.pa);
      }
      VmcsSteps(env, start, m, vmcs.pa);
      var flags := Cpu.Vmclear(env, m, vmcs.pa).flags;
      Perform(Protocol.Op.Vmclear(vmcs.pa));
      return if Unsuccessful(flags) then -1 else 0;
    }

    // ------------------------------------------------------------ running the guest

    /** save_host_state: what it saves is what restore_host_state needs to give any later
        machine its descriptor tables back, and this one all of its state. */
    method SaveHostState() returns (hs: HostState)
      ensures forall a: Machine :: InterruptsOff(a) ==>
        Restored(a, hs.gdt, hs.idt) == a.(regs := a.regs.(gdtr := m.regs.gdtr, idtr := m.regs.idtr))
      ensures InterruptsOff(m) ==> Restored(m, hs.gdt, hs.idt) == m
      ensures hs == HostState(m.regs.gdtr, m.regs.idtr)
    {
      hs := HostState(m.regs.gdtr, m.regs.idtr);
      forall a: Machine | InterruptsOff(a)
        ensures Restored(a, hs.gdt, hs.idt) == a.(regs := a.regs.(gdtr := m.regs.gdtr, idtr := m.regs.idtr))
      {
        RestoresHost(a, hs.gdt, hs.idt);
      }
      hide Restored, InterruptsOff;
    }

    /** restore_host_state. */
    method RestoreHostState(hs: HostState)
      requires Follows(env, start, trace, m)
      modifies this`m, this`trace
      ensures Follows(env, start, trace, m) && m == Restored(old(m), hs.gdt, hs.idt)
      ensures InterruptsOff(old(m)) ==> m == old(m).(regs := old(m).regs.(gdtr := hs.gdt, idtr := hs.idt))
    {
      hide Follows, Has;
      Perform(Protocol.Op.SetGdt(hs.gdt));
      Perform(Protocol.Op.SetIdt(hs.idt));
    }

    method DoVmlaunch(ghost x: Regs) returns (ret: Word)
      requires OurVmcs(env, start) == Some(vmcs.pa)
      requires Follows(env, start, trace, m) && LayoutOk(env) && Session(env, m, vmcs.pa, x)
      modifies this`m, this`trace
      ensures Follows(env, start, trace, m) && m == Attempt(env, old(m), Launch) && ret == m.core.rax
    {
      hide *;
      ret := CallAsm(Launch, x);
    }

    method DoVmresume(ghost x: Regs) returns (ret: Word)
      requires OurVmcs(env, start) == Some(vmcs.pa)
      requires Follows(env, start, trace, m) && LayoutOk(env) && Session(env, m, vmcs.pa, x)
      modifies this`m, this`trace
      ensures Follows(env, start, trace, m) && m == Attempt(env, old(m), Resume) && ret == m.core.rax
    {
      hide *;
      ret := CallAsm(Resume, x);
    }

    /** A call of the assembly code; its instructions become part of the trace. */
    method CallAsm(op: EntryOp, ghost x: Regs) returns (ret: Word)
      requires OurVmcs(env, start) == Some(vmcs.pa)
      requires Follows(env, start, trace, m) && LayoutOk(env) && Session(env, m, vmcs.pa, x)
      modifies this`m, this`trace
      ensures Follows(env, start, trace, m) && m == Attempt(env, old(m), op) && ret == m.core.rax
    {
      hide *;
      ghost var ops;
      ghost var before := m;
      FollowsSafe(env, start, trace, m);
      AttemptIsHost(env, m, op, vmcs.pa, x);
      m, ret, ops := Call(env, m, op, start, vmcs.pa, x);
      FollowsOps(env, start, trace, before, ops);
      trace := trace + ops;
    }

    /** handle_early_exit: the error it reports, read without disturbing anything. */
    method HandleEarlyExit() returns (error: Word)
      requires Follows(env, start, trace, m) && Writable(m) && OnOurs(env, start, m)
      modifies this`m, this`trace
      ensures Follows(env, start, trace, m) && m == old(m) && error == m.vmx.fields.data32.vmInstructionError
    {
      hide Follows;
      error := Cpu.Vmread(m, VM_INSTRUCTION_ERROR).1;
      Perform(Protocol.Op.Vmread(VM_INSTRUCTION_ERROR));
    }

    /** handle_vmexit: 0 exactly if the exit was caused by CPUID. */
    method HandleVmexit() returns (ret: int)
      requires Follows(env, start, trace, m) && Writable(m) && OnOurs(env, start, m)
      modifies this`m, this`trace
      ensures Follows(env, start, trace, m) && m == old(m)
      ensures ret == if m.vmx.fields.data32.exitReason.bits & 0xffff == 10 then 0 else -1
    {
      hide Follows;
      var reason := Cpu.Vmread(m, EXIT_REASON).1;
      Perform(Protocol.Op.Vmread(EXIT_REASON));
      return if Masked(Masked(reason, 0xffff_ffff), 0xffff) != VMEXIT_CPUID then -1 else 0;
    }

    // -------------------------------------------------------------- the measurement

    /** Lines 532 to 534: 2^n resumes, counted without overflow by a 32-bit int. */
    method ResumeRound(n: nat, ghost o: Machine, ghost x: Regs, ghost done: nat)
      requires OurVmcs(env, start) == Some(vmcs.pa)
      requires Follows(env, start, trace, m) && LayoutOk(env) && Resumed(env, o, m, vmcs.pa, x, done) && n < 31
      modifies this`m, this`trace
      ensures Follows(env, start, trace, m) && Resumed(env, o, m, vmcs.pa, x, done + Bit(n))
      ensures m.tsc == old(m).tsc + CycleSum(env, o.entries + done, o.entries + done + Bit(n))
    {
      hide *;
      BitBound(n);
      ghost var first := o.entries + done;
      NoCycles(env, first);
      var i: int32 := 0;
      while i as nat < Bit(n)
        invariant i as nat <= Bit(n)
        invariant Follows(env, start, trace, m) && Resumed(env, o, m, vmcs.pa, x, done + i as nat)
        invariant m.tsc == old(m).tsc + CycleSum(env, first, first + i as nat)
      {
        ResumedSession(env, o, m, vmcs.pa, x, done + i as nat);
        ResumeOnce(env, o, m, vmcs.pa, x, done + i as nat);
        MoreCycles(env, first, i as nat);
        var _ := DoVmresume(x);
        i := i + 1;
      }
    }

    /** Lines 531 to 535: one round, the value stored for it, and how many of its resumes
        made the round trip to the guest. */
    method MeasureRound(stats: array<nat>, n: nat, ghost o: Machine, ghost x: Regs, ghost done: nat)
      requires OurVmcs(env, start) == Some(vmcs.pa)
      requires Follows(env, start, trace, m) && LayoutOk(env) && Resumed(env, o, m, vmcs.pa, x, done)
        && n < stats.Length <= 31
      modifies this`m, this`trace, stats
      ensures Follows(env, start, trace, m) && Resumed(env, o, m, vmcs.pa, x, done + Bit(n))
      ensures stats[..n + 1] == old(stats[..n]) + [Latency(env, o.entries + done, n)]
      ensures m.visits == old(m).visits + if o.vmx.launched then RunsIn(env, o.entries + done, Bit(n)) else 0
    {
      hide *;
      TscRead(m);
      var startTsc := ReadTsc(m);
      ghost var tsc := m.tsc;
      ResumeRound(n, o, x, done);
      RoundVisits(env, o, old(m), m, vmcs.pa, x, done, Bit(n));
      TimePasses(env, o, m, vmcs.pa, x, done + Bit(n), env.overhead(n));
      PassBenign(env, start, m, env.overhead(n));
      Perform(Protocol.Op.Pass(env.overhead(n)));
      TimeOfRound(env, o.entries + done, n);
      StoredLatency(env, o.entries + done, n, tsc, m.tsc);
      TscRead(m);
      stats[n] := Divide(Subtract(ReadTsc(m), startTsc), Bit(n));
    }

    /** Lines 530 to 536. */
    method MeasureRounds(stats: array<nat>, ghost x: Regs)
      requires OurVmcs(env, start) == Some(vmcs.pa)
      requires Follows(env, start, trace, m) && LayoutOk(env) && Session(env, m, vmcs.pa, x) && m.regs == x
        && stats.Length <= 31
      modifies this`m, this`trace, stats
      ensures Follows(env, start, trace, m) && Resumed(env, old(m), m, vmcs.pa, x, Bit(stats.Length) - 1)
      ensures stats[..] == Table(env, old(m).entries, stats.Length)
    {
      hide *;
      NoneResumed(env, m, vmcs.pa, x);
      EmptyTable(env, m.entries);
      ghost var o, done, first := m, 0, m.entries;
      var n := 0;
      while n < stats.Length
        invariant 0 <= n <= stats.Length
        invariant Follows(env, start, trace, m) && done == Bit(n) - 1 && Resumed(env, o, m, vmcs.pa, x, done)
        invariant first == o.entries && stats[..n] == Table(env, first, n)
      {
        TableGrows(env, first, n);
        BitDoubles(n);
        MeasureRound(stats, n, o, x, done);
        n, done := n + 1, done + Bit(n);
      }
      assert stats[..] == stats[..n];
    }

    /** Lines 521 to 536: the first entry and, if the processor did not refuse it, the rounds.
        The verdict of handle_vmexit, which the code ignores, is `verdict`. */
    method RunGuest(stats: array<nat>, ghost x: Regs) returns (vmlaunchHappened: bool, ghost verdict: int)
      requires OurVmcs(env, start) == Some(vmcs.pa)
      requires Follows(env, start, trace, m) && LayoutOk(env) && Session(env, m, vmcs.pa, x) && !m.vmx.launched
        && stats.Length <= 31
      modifies this`m, this`trace, stats
      ensures Follows(env, start, trace, m) && AtOut4(env, old(m), m, vmcs.pa, x, stats.Length)
      ensures vmlaunchHappened == !EntryRefused(env, old(m))
      ensures vmlaunchHappened ==> stats[..] == Table(env, old(m).entries + 1, stats.Length)
      ensures vmlaunchHappened ==> (verdict == 0 <==> ExitsByCpuid(env.outcome(old(m).entries)))
    {
      hide *;
      vmlaunchHappened, verdict := false, -1;
      Launches(env, m, vmcs.pa, x);
      var ret := DoVmlaunch(x);
      SessionWritable(env, old(m), m, vmcs.pa, x);
      OnOursAt(env, start, m, vmcs.pa);
      if ret != ZERO {
        var _ := HandleEarlyExit();
        RefusedToOut4(env, old(m), m, vmcs.pa, x, stats.Length);
      } else {
        vmlaunchHappened := true;
        var exit := HandleVmexit();
        verdict := exit;
        ghost var f := m;
        MeasureRounds(stats, x);
        ResumedToOut4(env, old(m), f, m, vmcs.pa, x, stats.Length);
      }
    }

    /** Lines 518 to 540: from the VMPTRLD that succeeded to the VMCLEAR. */
    method RunVmcs(stats: array<nat>) returns (vmlaunchHappened: bool)
      requires Follows(env, start, trace, m) && LayoutOk(env) && Cached() && stats.Length <= 31
      requires VmcsLoaded(env, m, vmcs.pa) && OurVmcs(env, start) == Some(vmcs.pa)
      modifies this`m, this`trace, stats
      ensures Follows(env, start, trace, m) && VmcsDone(env, old(m), m, vmcs.pa, stats.Length)
      ensures vmlaunchHappened == !EntryRefused(env, old(m))
      ensures vmlaunchHappened ==> stats[..] == Table(env, old(m).entries + 1, stats.Length)
    {
      hide *;
      ghost var x := HostView(env, m.regs);
      ghost var v := Image(PlanOf(env, m, ioBitmapA.pa, ioBitmapB.pa), m.vmx.fields);
      SessionBegins(env, m, vmcs.pa, ioBitmapA.pa, ioBitmapB.pa);
      OnOursAt(env, start, m, vmcs.pa);
      InitializeVmcs();
      var hs := SaveHostState();
      ghost var verdict;
      vmlaunchHappened, verdict := RunGuest(stats, x);
      Out4Done(env, old(m), v, m, vmcs.pa, stats.Length);
      RestoreHostState(hs);
      var _ := DoVmclear();
    }

    /** Lines 515 to 542: from the VMXON that succeeded to do_vmxoff. */
    method RunVmx(stats: array<nat>) returns (vmlaunchHappened: bool)
      requires Follows(env, start, trace, m) && LayoutOk(env) && Cached() && stats.Length <= 31
      requires InVmx(m) && BlankVmcs(env, m, vmcs.pa) && (oldVmxe || ourVmxon) && OurVmcs(env, start) == Some(vmcs.pa)
      modifies this`m, this`trace, stats
      ensures Follows(env, start, trace, m) && VmxDone(env, old(m), m, vmcs.pa, stats.Length, ourVmxon, oldVmxe)
      ensures vmlaunchHappened == (Loadable(env, vmcs.pa) && !EntryRefused(env, old(m)))
      ensures vmlaunchHappened ==> stats[..] == Table(env, old(m).entries + 1, stats.Length)
    {
      hide *;
      vmlaunchHappened := false;
      Loads(env, m, vmcs.pa);
      var ret := DoVmptrld();
      ghost var l := m;
      if ret != 0 {
        NotLoadedToOut3(env, old(m), l, vmcs.pa, stats.Length);
      } else {
        LoadedFresh(env, old(m), l, vmcs.pa);
        vmlaunchHappened := RunVmcs(stats);
        LoadedToOut3(env, old(m), l, m, vmcs.pa, stats.Length);
      }
      Out3Done(env, old(m), m, vmcs.pa, stats.Length, ourVmxon, oldVmxe);
      DoVmxoff();
    }

    lemma AddressesListed()
      ensures Addresses()[0] == vmxonRegion.pa && Addresses()[1] == vmcs.pa
    {
    }

    /** Line 512: do_vmxon in the setting of a run. */
    method EnterVmx(ghost b: Machine, ghost rounds: nat) returns (ret: int)
      requires Follows(env, start, trace, m) && Idle(b) && Addresses() == Granted(env, b)
        && Ready(env, b, m, Addresses())
      modifies this`m, this`trace, this`oldVmxe, this`ourVmxon
      ensures Follows(env, start, trace, m)
      ensures var how := RunVmxonCase(env, b);
        && m == AfterVmxon(old(m), how, Addresses()[0]) && m.entries == b.entries
        && ret == (if how.Refused? then -1 else 0)
        && oldVmxe == Has(b.regs.cr4, CR4_VMXE)
        && (ret == 0 ==> ourVmxon == (how.Fresh? || how.Mistaken?))
      ensures ret == 0 ==> InVmx(m) && BlankVmcs(env, m, vmcs.pa) && (oldVmxe || ourVmxon)
      ensures ret == 0 ==>
        (EndingOfRun(env, b).Measured? <==> Loadable(env, vmcs.pa) && !EntryRefused(env, m))
      ensures ret != 0 ==> AtOut2(env, b, m, rounds) && !EndingOfRun(env, b).Measured?
    {
      hide *;
      AddressesListed();
      TriesVmxon(env, b, m, Addresses(), rounds);
      ret := DoVmxon();
    }

    /** Lines 512 to 542, with interrupts off and the pages of the run at hand. */
    method RunLocked(stats: array<nat>, ghost b: Machine) returns (vmlaunchHappened: bool)
      requires Follows(env, start, trace, m) && LayoutOk(env) && Cached() && stats.Length <= 31
      requires Idle(b) && b == start && Addresses() == Granted(env, b) && Ready(env, b, m, Addresses())
      modifies this`m, this`trace, this`oldVmxe, this`ourVmxon, stats
      ensures Follows(env, start, trace, m) && AtOut2(env, b, m, stats.Length)
      ensures vmlaunchHappened == EndingOfRun(env, b).Measured?
      ensures vmlaunchHappened ==> stats[..] == Table(env, b.entries + 1, stats.Length)
    {
      hide Idle, Ready, Granted, Cached, AtOut2, VmxDone, Table, RunVmxonCase, EndingOfRun, Has, InVmx,
        BlankVmcs, Loadable, AfterVmxon, EntryRefused, LayoutOk, Follows, OurVmcs;
      vmlaunchHappened := false;
      OursGranted(env, start);
      var ret := EnterVmx(b, stats.Length);
      if ret == 0 {
        vmlaunchHappened := RunVmx(stats);
        RegionToOut2(env, b, old(m), m, Addresses(), RunVmxonCase(env, b), stats.Length);
      }
    }

    /** Lines 506 to 545, with all five pages held. */
    method RunWithPages(stats: array<nat>, ghost b: Machine) returns (vmlaunchHappened: bool)
      requires Follows(env, start, trace, m) && LayoutOk(env) && Cached() && stats.Length <= 31
      requires Idle(b) && m == Request(env, b, 5).0 && Addresses() == Granted(env, b)
      requires b == start
      modifies this`m, this`trace, this`oldVmxe, this`ourVmxon, stats
      ensures Follows(env, start, trace, m)
      ensures RunDone(env, b, FreeAll(m, AddressesIn(Addresses(), Freed(5))), stats.Length)
      ensures vmlaunchHappened == EndingOfRun(env, b).Measured?
      ensures vmlaunchHappened ==> stats[..] == Table(env, b.entries + 1, stats.Length)
    {
      hide RunDone, Idle, AtOut2, Ready, Table, Cached, Request, FreeAll, AddressesIn, Freed, EndingOfRun,
        LayoutOk, Follows;
      ghost var pages := Addresses();
      BecomesReady(env, b);
      VmxonSetupRevisionId();
      VmcsSetupRevisionId();
      var irqFlags := PreemptDisable();
      vmlaunchHappened := RunLocked(stats, b);
      Out2Done(env, b, m, pages, stats.Length);
      DepthAtOut2(env, b, m, stats.Length);
      PreemptEnable(irqFlags);
    }

    /** Lines 502 to 547, once the capabilities are known. */
    method RunCached(stats: array<nat>) returns (vmlaunchHappened: bool)
      requires Follows(env, start, trace, m) && LayoutOk(env) && Cached() && Idle(m) && m == start
        && HeldPages() == [] && stats.Length <= 31
      modifies this`m, this`trace, this`vmxonRegion, this`vmcs, this`ioBitmapA, this`ioBitmapB, this`msrBitmap,
        this`oldVmxe, this`ourVmxon, stats
      ensures Follows(env, start, trace, m) && RunDone(env, old(m), m, stats.Length)
      ensures vmlaunchHappened == EndingOfRun(env, old(m)).Measured?
      ensures vmlaunchHappened ==> stats[..] == Table(env, old(m).entries + 1, stats.Length)
    {
      hide RunDone, Idle, Table, Cached, Request, FreeAll, AddressesIn, Freed, LayoutOk, RunVmxonCase, Loadable,
        Follows;
      vmlaunchHappened := false;
      var cnt := AllocateMemory();
      if cnt > 0 {
        vmlaunchHappened := RunWithPages(stats, old(m));
      } else {
        OutOfMemoryDone(env, old(m), stats.Length);
        NothingFreed(m, Addresses(), cnt);
      }
      FreeMemory(cnt);
    }

    /** Lines 500 to 547: all of measure_vmlatency but its printing. */
    method Measure(stats: array<nat>) returns (vmlaunchHappened: bool)
      requires Follows(env, start, trace, m) && LayoutOk(env) && Idle(m) && m == start && HeldPages() == []
        && stats.Length <= 31
      modifies this, stats
      ensures Follows(env, start, trace, m) && RunDone(env, old(m), m, stats.Length)
      ensures vmlaunchHappened == EndingOfRun(env, old(m)).Measured?
      ensures vmlaunchHappened ==> stats[..] == Table(env, old(m).entries + 1, stats.Length)
    {
      hide RunDone, Idle, Table, Cached, EndingOfRun, LayoutOk, Follows;
      CacheVmxCapabilities();
      vmlaunchHappened := RunCached(stats);
    }
  }

  /** measure_vmlatency with `iterations` for VMX_ITERATIONS: what any run makes of the
      machine, what it prints, and what holds at every step on the way. */
  method MeasureVmlatency(env: Env, before: Machine, iterations: nat)
    returns (after: Machine, printed: seq<nat>, ghost trace: seq<Protocol.Op>)
    requires LayoutOk(env) && Idle(before) && iterations <= 31
    ensures RunDone(env, before, after, iterations)
    ensures Idle(after) <==> !RunMistaken(env, before)
    ensures printed == if EndingOfRun(env, before).Measured? then Table(env, before.entries + 1, iterations) else []
    ensures after == Protocol.Run(env, before, trace) && SafeFrom(env, before, before, trace)
    ensures EndingOfRun(env, before).Measured? ==>
      && after.regs.es.bits == before.regs.es.bits & 0xfff8 && after.regs.cs.bits == before.regs.cs.bits & 0xfff8
      && after.regs.ss.bits == before.regs.ss.bits & 0xfff8 && after.regs.ds.bits == before.regs.ds.bits & 0xfff8
      && after.regs.fs.bits == before.regs.fs.bits & 0xfff8 && after.regs.gs.bits == before.regs.gs.bits & 0xfff8
  {
    hide *;
    var stats := new nat[iterations];
    IdleSane(before);
    var vmm := new VmMonitor(env, before);
    var vmlaunchHappened := vmm.Measure(stats);
    after, trace := vmm.m, vmm.trace;
    FollowsRun(env, before, trace, after);
    IdleAgain(env, before, after, iterations);
    if EndingOfRun(env, before).Measured? { PlainRuns.RunSelectors(env, before, after, iterations); }
    printed := [];
    if vmlaunchHappened {
      var n := 0;
      while n < iterations
        invariant 0 <= n <= iterations && printed == stats[..n]
      {
        printed := printed + [stats[n]];
        n := n + 1;
      }
    }
  }
}
