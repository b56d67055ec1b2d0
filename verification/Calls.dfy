/** Any number of calls of the trampoline, made from any stack depths. */
module Calls {
  import opened Words
  import opened CpuDefs
  import opened VmcsRegions
  import opened Processor
  import opened Trampoline

  /** A C call site: where the caller stands and how deep its stack is. */
  datatype Site = Site(returnAddress: Word, rsp: Word, op: EntryOp)

  function At(m: Machine, s: Site): Machine {
    m.(core := m.core.(rip := s.returnAddress, rsp := s.rsp))
  }

  function Run(env: Env, m: Machine, sites: seq<Site>): Machine {
    if sites == [] then m
    else
      var last := sites[|sites| - 1];
      Attempt(env, At(Run(env, m, sites[..|sites| - 1]), last), last.op)
  }

  lemma StaysArmed(env: Env, f: Vmcs, x: Regs, slot: Word, value: Word)
    requires Armed(env, f, x)
    ensures Armed(env, WithError(WithHostRsp(f, slot), value), x)
    ensures Armed(env, WithExitReason(WithHostRsp(f, slot), value), x)
  {
    HostRegsStable(f, slot);
    assert HostRegs(WithError(WithHostRsp(f, slot), value)) == HostRegs(WithHostRsp(f, slot));
    assert HostRegs(WithExitReason(WithHostRsp(f, slot), value)) == HostRegs(WithHostRsp(f, slot));
    hide HostRegs;
  }

  lemma AttemptStaysArmed(env: Env, m: Machine, op: EntryOp, x: Regs)
    requires Armed(env, m.vmx.fields, x)
    ensures Armed(env, Attempt(env, m, op).vmx.fields, x)
    ensures Attempt(env, m, op).vmx.fields.guestNatural.rsp == m.vmx.fields.guestNatural.rsp
  {
    hide EndingOf, GuestRan, Armed, HostRegs;
    var slot, f, ending := Minus(m.core.rsp, 8), m.vmx.fields, EndingOf(env, m, op);
    StaysArmed(env, f, x, slot, if ending.Exited? then ending.reason else ending.error);
  }

  /** A call leaves the session set up, so the guest stands at guest_code again
      with the stack pointer it never used, and an exit loads exactly `x`. */
  lemma AttemptKeepsSession(env: Env, m: Machine, op: EntryOp, pa: Address, x: Regs)
    requires Session(env, m, pa, x)
    ensures var a := Attempt(env, m, op);
      && Session(env, a, pa, x)
      && a.vmx.fields.guestNatural.rsp == m.vmx.fields.guestNatural.rsp
      && a.regs == (if EndingOf(env, m, op).Exited? then x else m.regs)
  {
    hide EndingOf, GuestRan, AddressOk, HostRegs;
    assert HostRegs(m.vmx.fields) == x;
    AttemptStaysArmed(env, m, op, x);
    hide Armed;
  }

  lemma AttemptIsHost(env: Env, m: Machine, op: EntryOp, pa: Address, x: Regs)
    requires Session(env, m, pa, x)
    ensures !Attempt(env, m, op).guest
  {
    AttemptKeepsSession(env, m, op, pa, x);
    hide Attempt, Armed, AddressOk;
  }

  /** The part of the machine that calls of the trampoline leave alone, wherever
      they are made from. */
  ghost predicate SameRest(m: Machine, a: Machine) {
    && a.core.saved == m.core.saved
    && a.vmx == m.vmx.(launched := a.vmx.launched, fields := a.vmx.fields)
    && a.vmx.fields.guestNatural.rsp == m.vmx.fields.guestNatural.rsp
    && a.kernel == m.kernel && a.revision == m.revision
    && a.log <= m.log + {LaunchNotClear, ResumeNotLaunched}
  }

  /** Calls made from one place return there and write only the slot below its stack. */
  ghost predicate SameSite(m: Machine, a: Machine) {
    && a.core == m.core.(rax := a.core.rax, rflags := a.core.rflags, mem := a.core.mem)
    && forall at :: at != Minus(m.core.rsp, 8) ==> Load(a.core.mem, at) == Load(m.core.mem, at)
  }

  lemma AttemptKeepsRest(env: Env, m: Machine, op: EntryOp, pa: Address, x: Regs)
    requires Session(env, m, pa, x)
    ensures SameRest(m, Attempt(env, m, op)) && SameSite(m, Attempt(env, m, op))
  {
    hide HostRegs, EndingOf, GuestRan, Session;
    AttemptKeepsSession(env, m, op, pa, x);
  }

  /** do_vmlaunch and do_vmresume refine a plain call, over any sequence of calls:
      each returns to its own call site with its own stack pointer, the callee-saved
      registers and all memory but the pushed return addresses are kept, and the
      guest never gets past its first instruction. */
  lemma {:induction false} CallsReturn(env: Env, m: Machine, sites: seq<Site>, pa: Address, x: Regs)
    requires Session(env, m, pa, x)
    ensures var a := Run(env, m, sites);
      && Session(env, a, pa, x)
      && (sites != [] ==> a.core.rip == sites[|sites| - 1].returnAddress && a.core.rsp == sites[|sites| - 1].rsp)
      && (a.regs == m.regs || a.regs == x)
      && SameRest(m, a)
      && a.entries == m.entries + |sites|
  {
    if sites != [] {
      var before, last := sites[..|sites| - 1], sites[|sites| - 1];
      CallsReturn(env, m, before, pa, x);
      var b := At(Run(env, m, before), last);
      hide HostRegs, Armed, AddressOk, InterruptsOff, EndingOf, GuestRan;
      assert Session(env, b, pa, x);
      AttemptKeepsSession(env, b, last.op, pa, x);
      AttemptKeepsRest(env, b, last.op, pa, x);
      hide Session;
    }
  }

  /** The only memory the calls write is the stack slot below each call site. */
  lemma {:induction false} CallsKeepMemory(env: Env, m: Machine, sites: seq<Site>, at: Word)
    requires forall s :: s in sites ==> Minus(s.rsp, 8) != at
    ensures Load(Run(env, m, sites).core.mem, at) == Load(m.core.mem, at)
  {
    if sites != [] {
      var before, last := sites[..|sites| - 1], sites[|sites| - 1];
      CallsKeepMemory(env, m, before, at);
      assert last in sites;
      hide EndingOf, GuestRan, HostRegs, EntryViolations;
    }
  }

  /** Once the first entry has launched the VMCS, resumes from it never see a
      wrong launch state, and a clear VMCS is never resumed successfully. */
  lemma {:induction false} ResumesFollowLaunch(env: Env, m: Machine, sites: seq<Site>)
    requires forall s :: s in sites ==> s.op == Resume
    ensures Run(env, m, sites).vmx.launched == m.vmx.launched
    ensures Run(env, m, sites).log
         == m.log + (if m.vmx.launched || sites == [] then {} else {ResumeNotLaunched})
    ensures !m.vmx.launched ==> Run(env, m, sites).regs == m.regs
    ensures !m.vmx.launched && sites != [] ==> Run(env, m, sites).vmx.fields.data32.vmInstructionError == Word(5)
  {
    if sites != [] {
      var before, last := sites[..|sites| - 1], sites[|sites| - 1];
      ResumesFollowLaunch(env, m, before);
      assert last in sites;
      hide HostRegs;
    }
  }

  // ------------------------------------------------------------- what the exits say

  /** How many of `count` entries, numbered from `first`, the processor lets reach the guest. */
  function RunsIn(env: Env, first: nat, count: nat): nat {
    if count == 0 then 0
    else RunsIn(env, first, count - 1) + (if env.outcome(first + count - 1).Runs? then 1 else 0)
  }

  /** All of them do exactly if no outcome is a refusal or an abort. */
  lemma {:induction false} AllRunIn(env: Env, first: nat, count: nat)
    ensures RunsIn(env, first, count) <= count
    ensures RunsIn(env, first, count) == count
      <==> forall k: nat :: first <= k < first + count ==> env.outcome(k).Runs?
  {
    if count > 0 {
      AllRunIn(env, first, count - 1);
      if forall k: nat :: first <= k < first + count ==> env.outcome(k).Runs? {
        assert env.outcome(first + count - 1).Runs?;
      }
    }
  }

  lemma {:induction false} RunsInSplit(env: Env, first: nat, a: nat, b: nat)
    ensures RunsIn(env, first, a + b) == RunsIn(env, first, a) + RunsIn(env, first + a, b)
  {
    if b > 0 {
      RunsInSplit(env, first, a, b - 1);
      assert first + (a + b) - 1 == first + a + b - 1;
    }
  }

  /** Resumes of a launched VMCS visit the guest as often as the processor lets them,
      resumes of a clear one never. */
  lemma {:induction false} ResumesVisit(env: Env, m: Machine, sites: seq<Site>)
    requires forall s :: s in sites ==> s.op == Resume
    ensures Run(env, m, sites).entries == m.entries + |sites|
    ensures Run(env, m, sites).visits
         == m.visits + (if m.vmx.launched then RunsIn(env, m.entries, |sites|) else 0)
  {
    if sites != [] {
      var before, last := sites[..|sites| - 1], sites[|sites| - 1];
      ResumesVisit(env, m, before);
      ResumesFollowLaunch(env, m, before);
      assert last in sites;
      hide HostRegs, EndingOf, EntryViolations;
    }
  }

  /** Whether an entry with this outcome ends in an exit whose basic reason is CPUID. */
  predicate ExitsByCpuid(o: Outcome) {
    match o
    case Refused(_) => false
    case Aborted(reason) => reason.bits & 0xffff == 10
    case Runs(event) => event.None? || event.value.bits & 0xffff == 10
  }

  lemma AbortReason(reason: Word)
    ensures Fit(EXIT_REASON, With(reason, 0x8000_0000)).bits & 0xffff == reason.bits & 0xffff
  {
  }

  lemma PlainReason(reason: Word)
    ensures Fit(EXIT_REASON, reason).bits & 0xffff == reason.bits & 0xffff
  {
  }

  lemma CpuidReason()
    ensures Fit(EXIT_REASON, VMEXIT_CPUID) == VMEXIT_CPUID == Word(10)
  {
  }

  lemma AbortedByCpuid(reason: Word)
    ensures Fit(EXIT_REASON, With(reason, 0x8000_0000)).bits & 0xffff == 10 <==> ExitsByCpuid(Aborted(reason))
  {
    AbortReason(reason);
    hide Fit, With;
  }

  lemma EventByCpuid(reason: Word)
    ensures Fit(EXIT_REASON, reason).bits & 0xffff == 10 <==> ExitsByCpuid(Runs(Some(reason)))
  {
    PlainReason(reason);
    hide Fit;
  }

  lemma NoEventByCpuid()
    ensures Fit(EXIT_REASON, VMEXIT_CPUID).bits & 0xffff == 10 && ExitsByCpuid(Runs(None))
  {
    CpuidReason();
  }

  lemma ReasonStored(env: Env, m: Machine, op: EntryOp)
    requires EndingOf(env, m, op).Exited?
    ensures !env.outcome(m.entries).Refused?
    ensures Attempt(env, m, op).vmx.fields.data32.exitReason == match env.outcome(m.entries)
      case Refused(error) => error
      case Aborted(reason) => Fit(EXIT_REASON, With(reason, 0x8000_0000))
      case Runs(event) => Fit(EXIT_REASON, if event.Some? then event.value else VMEXIT_CPUID)
  {
    hide Fit, With, HostRegs;
  }

  /** The reason an exit leaves in the VMCS has CPUID in its low 16 bits exactly when
      the outcome says so; without an event it is CPUID and nothing else. */
  lemma ReasonOfExit(env: Env, m: Machine, op: EntryOp)
    requires EndingOf(env, m, op).Exited?
    ensures var reason := Attempt(env, m, op).vmx.fields.data32.exitReason;
      && (reason.bits & 0xffff == 10 <==> ExitsByCpuid(env.outcome(m.entries)))
      && (env.outcome(m.entries) == Runs(None) ==> reason == Word(10))
  {
    hide *;
    CpuidReason();
    ReasonStored(env, m, op);
    match env.outcome(m.entries) {
      case Refused(_) =>
      case Aborted(reason) => AbortedByCpuid(reason);
      case Runs(event) => if event.Some? { EventByCpuid(event.value); } else { NoEventByCpuid(); }
    }
  }

  /** As long as no entry is refused, aborted or cut short by an event, a launch and any
      number of resumes after it, from any stack depths, each visit the guest and leave
      by its CPUID: that is the exit reason, the VMCS is launched, and no rule is broken. */
  lemma {:induction false} GuestLeavesByCpuid(env: Env, m: Machine, sites: seq<Site>)
    requires sites != [] && !m.vmx.launched && sites[0].op == Launch
    requires forall i :: 1 <= i < |sites| ==> sites[i].op == Resume
    requires forall k: nat :: m.entries <= k < m.entries + |sites| ==> env.outcome(k) == Runs(None)
    ensures var a := Run(env, m, sites);
      && a.vmx.fields.data32.exitReason == Word(10) && a.vmx.launched
      && a.entries == m.entries + |sites| && a.visits == m.visits + |sites|
      && a.core.rax == Word(0) && a.log == m.log
  {
    hide HostRegs, ExitsByCpuid;
    var n := |sites| - 1;
    var before, last := sites[..n], sites[n];
    if n > 0 {
      GuestLeavesByCpuid(env, m, before);
    }
    assert env.outcome(m.entries + n) == Runs(None);
    ReasonOfExit(env, At(Run(env, m, before), last), last.op);
  }
}
