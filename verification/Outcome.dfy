/** What a run of measure_vmlatency comes to, said in terms of the machine before
    it: the answers of the allocator, the addresses of the pages and the outcome of
    the first VM entry decide which of five ways it ends. */
module Outcome {
  import opened Words
  import opened CpuDefs
  import opened Processor
  import opened Segments
  import opened Controls
  import opened VmcsImage
  import opened Pages
  import opened Measurement

  /** A machine on which the driver may be started. */
  ghost predicate Idle(m: Machine) {
    && !m.guest && m.event.None?
    && (m.vmx.on ==> Has(m.regs.cr4, CR4_VMXE) && m.vmx.region in m.kernel.pages)
    && (!m.vmx.on ==> m.vmx.active == {})
    && (m.vmx.current.Some? ==> m.vmx.on && m.vmx.current.value in m.vmx.active)
    && m.vmx.active <= m.kernel.pages
  }

  /** __vmxon's reading of CF and ZF. */
  function DecodeVmxon(flags: u64): int {
    var f := flags & (RFLAGS_CF | RFLAGS_ZF);
    if f == RFLAGS_CF then -1 else if f == RFLAGS_CF | RFLAGS_ZF then 1 else 0
  }

  /** The reading of CF and ZF by __vmptrld and __vmclear. */
  predicate Unsuccessful(flags: u64) { flags & (RFLAGS_CF | RFLAGS_ZF) != 0 }

  /** How do_vmxon ends. `Mistaken` is a VMXON that failed with ZF alone, which
      the decoding takes for success. */
  datatype VmxonCase = Fresh | AlreadyOn | Mistaken | Refused

  function VmxonCaseOf(env: Env, vmx: Vmx, startable: bool): VmxonCase {
    if vmx.on then
      if env.bothFlags then AlreadyOn else if vmx.current.Some? then Mistaken else VmxonCase.Refused
    else if startable then Fresh
    else VmxonCase.Refused
  }

  /** ... with the VMXON region at `pa`. */
  function CaseAt(env: Env, m: Machine, pa: Address): VmxonCase {
    VmxonCaseOf(env, m.vmx, AddressOk(env, pa) && RevisionOk(env, m, pa))
  }

  predicate RevisionMatches(env: Env) {
    WrittenRevision(env.caps.basic) == RequiredRevision(env.caps.basic)
  }

  datatype Ending = NoMemory | NoVmx | NoVmcs | NoEntry | Measured

  function Granted(env: Env, m: Machine): seq<Address> { Request(env, m, 5).1 }

  function RunVmxonCase(env: Env, m: Machine): VmxonCase
    requires |Granted(env, m)| == 5
  {
    VmxonCaseOf(env, m.vmx, AddressOk(env, Granted(env, m)[0]) && RevisionMatches(env))
  }

  function EndingOfRun(env: Env, m: Machine): Ending {
    var pages := Granted(env, m);
    if |pages| != 5 then NoMemory
    else if RunVmxonCase(env, m).Refused? then NoVmx
    else if !(AddressOk(env, pages[1]) && RevisionMatches(env)) then NoVmcs
    else if env.outcome(m.entries).Refused? then NoEntry
    else Measured
  }

  predicate RunMistaken(env: Env, m: Machine) {
    |Granted(env, m)| == 5 && RunVmxonCase(env, m).Mistaken?
  }

  /** The registers after a run that entered the guest. */
  function Repaired(env: Env, r: Regs): Regs {
    HostView(env, r).(cr4 := r.cr4, gdtr := r.gdtr, idtr := r.idtr)
  }

  function FinalRegs(env: Env, m: Machine): Regs {
    match EndingOfRun(env, m)
    case NoMemory => m.regs
    case NoVmx => m.regs.(cr4 := With(m.regs.cr4, CR4_VMXE))
    case NoVmcs => m.regs
    case NoEntry => m.regs
    case Measured => Repaired(env, m.regs)
  }

  /** The violations a run adds to the log. */
  function FinalViolations(env: Env, m: Machine, iterations: nat): set<Violation> {
    (if RunMistaken(env, m) then {VmxoffWhileActive} else {})
    + (if EndingOfRun(env, m).Measured? && env.outcome(m.entries).Aborted? && iterations > 0
       then {ResumeNotLaunched} else {})
  }

  /** The latencies of all rounds, when `first` is the number of the first resume. */
  function Table(env: Env, first: nat, rounds: nat): seq<nat> {
    if rounds == 0 then []
    else Table(env, first, rounds - 1) + [Latency(env, first + (Bit(rounds - 1) - 1), rounds - 1)]
  }

  /** Every round has its entry: that of the 2^n resumes which follow the 2^n - 1
      resumes of the rounds before it. */
  lemma {:induction false} TableEntries(env: Env, first: nat, rounds: nat, n: nat)
    requires n < rounds
    ensures |Table(env, first, rounds)| == rounds
    ensures Table(env, first, rounds)[n] == Latency(env, first + Bit(n) - 1, n)
  {
    hide Latency;
    if n < rounds - 1 { TableEntries(env, first, rounds - 1, n); } else { TableLength(env, first, n); }
  }

  lemma {:induction false} TableLength(env: Env, first: nat, rounds: nat)
    ensures |Table(env, first, rounds)| == rounds
  {
    hide Latency;
    if rounds > 0 { TableLength(env, first, rounds - 1); }
  }

  lemma EmptyTable(env: Env, first: nat)
    ensures Table(env, first, 0) == [] && Bit(0) == 1
  {
  }

  /** The bound on what is printed: if every resume takes between lo and hi cycles
      and the rest of each window at most c, entry n lies between lo and
      hi + c / 2^n, hence between lo and hi once 2^n exceeds c. */
  lemma PrintedBounds(env: Env, first: nat, rounds: nat, n: nat, lo: nat, hi: nat, c: nat)
    requires n < rounds
    requires forall k: nat :: first <= k < first + (Bit(rounds) - 1) ==> lo <= env.cycles(k) <= hi
    requires env.overhead(n) <= c && Elapsed(env, first + Bit(n) - 1, n) < 0x1_0000_0000_0000_0000
    ensures |Table(env, first, rounds)| == rounds
    ensures lo <= Table(env, first, rounds)[n] <= hi + Divide(c, Bit(n))
    ensures c < Bit(n) ==> lo <= Table(env, first, rounds)[n] <= hi
  {
    hide Table, Latency, Divide, Elapsed;
    TableEntries(env, first, rounds, n);
    BitDoubles(n);
    BitMonotone(n + 1, rounds);
    LatencyBounds(env, first + Bit(n) - 1, n, lo, hi, c);
  }

  lemma TableGrows(env: Env, first: nat, rounds: nat)
    ensures Table(env, first, rounds + 1)
         == Table(env, first, rounds) + [Latency(env, first + (Bit(rounds) - 1), rounds)]
  {
    hide Latency;
  }

  /** A run that entered the guest restores CR0, CR3, CR4, the FS and GS bases, TR,
      GDTR, IDTR, SYSENTER_ESP and SYSENTER_EIP. The other registers come back
      exactly when they already had the values a VM exit loads. */
  lemma RepairedExactly(env: Env, r: Regs)
    ensures var a := Repaired(env, r);
      && a.cr0 == r.cr0 && a.cr3 == r.cr3 && a.cr4 == r.cr4 && a.fsBase == r.fsBase && a.gsBase == r.gsBase
      && a.tr == r.tr && a.gdtr == r.gdtr && a.idtr == r.idtr
      && a.sysenterEsp == r.sysenterEsp && a.sysenterEip == r.sysenterEip
    ensures Repaired(env, r) == r
        <==> && r.es.bits & 7 == 0 && r.cs.bits & 7 == 0 && r.ss.bits & 7 == 0
             && r.ds.bits & 7 == 0 && r.fs.bits & 7 == 0 && r.gs.bits & 7 == 0
             && r.ldtr == Half(0) && r.trBase == TrBase(env, r) && r.trLimit == Word(0x67)
             && r.sysenterCs == Masked(r.sysenterCs, 0xffff_ffff)
             && r.dr7 == Word(0x400) && r.debugctl == ZERO
  {
    HostSelectorKept(r.es);
    HostSelectorKept(r.cs);
    HostSelectorKept(r.ss);
    HostSelectorKept(r.ds);
    HostSelectorKept(r.fs);
    HostSelectorKept(r.gs);
    hide HostSelector, LowHalf, TrBase, Masked;
  }
}
