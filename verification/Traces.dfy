/** What holds at every point of a run, and not only at its end. */
module Traces {
  import opened Words
  import opened CpuDefs
  import opened VmcsRegions
  import opened Processor
  import opened Trampoline
  import opened Protocol
  import opened Measurement
  import opened Pages
  import opened Outcome
  import opened VmcsImage
  import opened VmcsLaws
  import opened VmcsWrites
  import opened Widths

  /** What every point `s` of a run from `start` satisfies: VMX operation implies
      CR4.VMXE, a current VMCS implies VMX operation, and interrupts are off in the guest
      and, between preempt_disable and preempt_enable, in the host. */
  ghost predicate Safe(start: Machine, s: Machine) {
    Sane(s) && (s.guest || s.kernel.preemptDepth != start.kernel.preemptDepth ==> InterruptsOff(s))
  }

  /** The page that a run from `start` uses for its VMCS: the second it is granted. */
  function OurVmcs(env: Env, start: Machine): Option<Address> {
    if |Granted(env, start)| > 1 then Some(Granted(env, start)[1]) else None
  }

  predicate OnOurs(env: Env, start: Machine, m: Machine) {
    m.vmx.current.Some? && m.vmx.current == OurVmcs(env, start)
  }

  /** A step, or the privileged part of an instruction, that accesses the current VMCS or
      enters the guest finds the run's own VMCS current. */
  predicate Ours(env: Env, start: Machine, m: Machine, op: Op) {
    var act := if op.NextInstr? then Act(env, m) else Some(op);
    act.Some? && NeedsVmcs(act.value) ==> OnOurs(env, start, m)
  }

  predicate Fair(env: Env, start: Machine, m: Machine, op: Op) { InTurn(m, op) && Ours(env, start, m, op) }

  /** All points from `m`, to which a run from `start` has come, on. The guest runs only by its
      own instructions, and no VMCS but the run's own is read, written or entered. */
  ghost predicate SafeFrom(env: Env, start: Machine, m: Machine, ops: seq<Op>) {
    && (forall k: nat :: k <= |ops| ==> Safe(start, Run(env, m, ops[..k])))
    && (forall i :: 0 <= i < |ops| ==> Fair(env, start, Run(env, m, ops[..i]), ops[i]))
  }

  lemma SafeNested(env: Env, start: Machine, m: Machine, ops: seq<Op>)
    requires SafeFrom(env, start, m, ops)
    ensures WellNested(env, m, ops)
  {
    hide Run, Safe, InTurn, Ours;
  }

  // ------------------------------------------------------------- composition

  lemma {:induction false} RunAppended(env: Env, m: Machine, a: seq<Op>, b: seq<Op>)
    ensures Run(env, m, a + b) == Run(env, Run(env, m, a), b)
  {
    hide Apply;
    if b == [] {
      assert a + b == a;
    } else {
      var n := |b| - 1;
      RunAppended(env, m, a, b[..n]);
      assert (a + b)[..|a + b| - 1] == a + b[..n];
    }
  }

  lemma RunOne(env: Env, m: Machine, op: Op)
    ensures Run(env, m, [op]) == Apply(env, m, op) && Run(env, m, []) == m
  {
    hide Apply;
    assert [op][..0] == [];
  }

  lemma SafeOne(env: Env, start: Machine, m: Machine, op: Op)
    requires Safe(start, m) && Safe(start, Apply(env, m, op)) && Fair(env, start, m, op)
    ensures SafeFrom(env, start, m, [op]) && Run(env, m, [op]) == Apply(env, m, op)
  {
    hide Safe, Apply, Fair;
    RunOne(env, m, op);
    forall k: nat | k <= 1 ensures Safe(start, Run(env, m, [op][..k])) {
      if k == 0 { assert [op][..k] == []; } else { assert [op][..k] == [op]; }
    }
    assert [op][..0] == [];
  }

  lemma SafeJoined(env: Env, start: Machine, m: Machine, a: seq<Op>, b: seq<Op>)
    requires SafeFrom(env, start, m, a) && SafeFrom(env, start, Run(env, m, a), b)
    ensures SafeFrom(env, start, m, a + b) && Run(env, m, a + b) == Run(env, Run(env, m, a), b)
  {
    hide Safe, Run, Fair;
    RunAppended(env, m, a, b);
    forall k: nat | k <= |a + b| ensures Safe(start, Run(env, m, (a + b)[..k])) {
      PrefixOfJoined(env, m, a, b, k);
    }
    forall i | 0 <= i < |a + b| ensures Fair(env, start, Run(env, m, (a + b)[..i]), (a + b)[i]) {
      PrefixOfJoined(env, m, a, b, i);
    }
  }

  lemma PrefixOfJoined(env: Env, m: Machine, a: seq<Op>, b: seq<Op>, k: nat)
    requires k <= |a + b|
    ensures k <= |a| ==> (a + b)[..k] == a[..k]
    ensures k > |a| ==> Run(env, m, (a + b)[..k]) == Run(env, Run(env, m, a), b[..k - |a|])
    ensures k == |a| ==> a[..k] == a && Run(env, Run(env, m, a), b[..0]) == Run(env, m, a)
  {
    hide Apply;
    if k > |a| {
      assert (a + b)[..k] == a + b[..k - |a|];
      RunAppended(env, m, a, b[..k - |a|]);
    }
  }

  // ------------------------------------------------------------- single steps

  /** A step that host code may take at any safe point. */
  predicate Benign(env: Env, start: Machine, m: Machine, op: Op) {
    match op
    case Vmread(_) => OnOurs(env, start, m)
    case Vmwrite(_, _) => OnOurs(env, start, m)
    case SetCr4(value) => m.vmx.on ==> Has(value, CR4_VMXE)
    case Enter(_, _) => false
    case Exit(_) => false
    case EnableInterrupts(_) => false
    case NextInstr => false
    case _ => true
  }

  /** What privileged host steps leave alone. */
  ghost predicate Around(m: Machine, a: Machine) {
    && a.core.rflags == m.core.rflags && a.kernel.preemptDepth == m.kernel.preemptDepth
    && a.guest == m.guest && a.event == m.event
  }

  lemma VmFailAround(m: Machine, error: Word)
    ensures Around(m, VmFail(m, error).m)
  {
    hide WithError;
  }

  lemma SetCr4Around(env: Env, m: Machine, value: Word)
    ensures Around(m, Apply(env, m, Op.SetCr4(value)))
  {
    IsSetCr4(env, m, value);
    hide Apply, Has, InterruptsOff;
  }

  lemma VmxonAround(env: Env, m: Machine, pa: Address)
    ensures Around(m, Apply(env, m, Op.Vmxon(pa)))
  {
    IsVmxon(env, m, pa);
    VmFailAround(Flag(Observe(m), !Has(m.regs.cr4, CR4_VMXE), VmxonWithoutVmxe), Word(15));
    hide Apply, Has, InterruptsOff, AddressOk, RevisionOk, BLANK, VmFail;
  }

  lemma VmxoffAround(env: Env, m: Machine)
    ensures Around(m, Apply(env, m, Op.Vmxoff))
  {
    IsVmxoff(env, m);
    hide Apply, Suspend, InterruptsOff;
  }

  lemma VmptrldAround(env: Env, m: Machine, pa: Address)
    ensures Around(m, Apply(env, m, Op.Vmptrld(pa)))
  {
    IsVmptrld(env, m, pa);
    var m1 := Flag(Observe(m), !m.vmx.on, OutsideVmx);
    VmFailAround(m1, Word(9));
    VmFailAround(m1, Word(10));
    VmFailAround(m1, Word(11));
    hide Apply, Suspend, Region, AddressOk, RevisionOk, InterruptsOff, VmFail;
  }

  lemma VmclearAround(env: Env, m: Machine, pa: Address)
    ensures Around(m, Apply(env, m, Op.Vmclear(pa)))
  {
    IsVmclear(env, m, pa);
    var m1 := Flag(Observe(m), !m.vmx.on, OutsideVmx);
    VmFailAround(m1, Word(2));
    VmFailAround(m1, Word(3));
    hide Apply, Suspend, Region, AddressOk, InterruptsOff, VmFail;
  }

  lemma ObservedAround(m: Machine)
    ensures Around(m, ObserveVmcs(m))
  {
    hide InterruptsOff;
  }

  lemma VmreadAround(env: Env, m: Machine, field: Field)
    ensures Around(m, Apply(env, m, Op.Vmread(field)))
  {
    IsVmread(env, m, field);
    ObservedAround(m);
    hide Apply, ObserveVmcs, Around;
  }

  lemma VmwriteAround(env: Env, m: Machine, field: Field, value: Word)
    ensures Around(m, Apply(env, m, Op.Vmwrite(field, value)))
  {
    IsVmwrite(env, m, field, value);
    ObservedAround(m);
    VmFailAround(ObserveVmcs(m), Word(13));
    hide Apply, ObserveVmcs, VmFail, Put, Fit;
  }

  lemma OtherAround(env: Env, m: Machine, op: Op)
    requires op.SetGdt? || op.SetIdt? || op.Allocate? || op.Free? || op.WriteRevision? || op.CallAsm? || op.Pass?
    ensures Around(m, Apply(env, m, op))
  {
    hide Apply, Has, BLANK, Minus, InterruptsOff;
    match op {
      case SetGdt(table) => IsSetGdt(env, m, table);
      case SetIdt(table) => IsSetIdt(env, m, table);
      case Allocate => IsAllocate(env, m);
      case Free(pa) => IsFree(env, m, pa);
      case WriteRevision(pa, id) => IsWriteRevision(env, m, pa, id);
      case CallAsm(entry) => IsCallAsm(env, m, entry);
      case Pass(cycles) => IsPass(env, m, cycles);
    }
  }

  lemma DisableMasks(env: Env, m: Machine)
    ensures var a := Apply(env, m, DisableInterrupts);
      InterruptsOff(a) && a.guest == m.guest && a.event == m.event && a.vmx == m.vmx && a.regs == m.regs
  {
    IsDisableInterrupts(env, m);
    hide Apply;
  }

  lemma BenignKeeps(env: Env, start: Machine, m: Machine, op: Op)
    requires Benign(env, start, m, op) && !op.DisableInterrupts?
    ensures Around(m, Apply(env, m, op))
  {
    hide Apply, Has, Around, OnOurs;
    match op {
      case SetCr4(value) => SetCr4Around(env, m, value);
      case Vmxon(pa) => VmxonAround(env, m, pa);
      case Vmxoff => VmxoffAround(env, m);
      case Vmptrld(pa) => VmptrldAround(env, m, pa);
      case Vmclear(pa) => VmclearAround(env, m, pa);
      case Vmread(field) => VmreadAround(env, m, field);
      case Vmwrite(field, value) => VmwriteAround(env, m, field, value);
      case _ => OtherAround(env, m, op);
    }
  }

  lemma BenignSafe(env: Env, start: Machine, m: Machine, op: Op)
    requires Safe(start, m) && !m.guest && Benign(env, start, m, op)
    ensures Safe(start, Apply(env, m, op)) && !Apply(env, m, op).guest && Fair(env, start, m, op)
  {
    assert !Offends(env, m, op, VmxeClearedInVmx);
    StepSane(env, m, op);
    if op.DisableInterrupts? { DisableMasks(env, m); } else { BenignKeeps(env, start, m, op); }
    hide Apply, Sane, Offends, Has, OnOurs;
  }

  /** The step that gives interrupts back. */
  lemma EnableSafe(env: Env, start: Machine, m: Machine, saved: Word)
    requires Safe(start, m) && !m.guest && m.kernel.preemptDepth == start.kernel.preemptDepth + 1
    ensures Safe(start, Apply(env, m, EnableInterrupts(saved))) && !Apply(env, m, EnableInterrupts(saved)).guest
    ensures Fair(env, start, m, EnableInterrupts(saved))
  {
    IsEnableInterrupts(env, m, saved);
    hide Apply, Has;
  }

  // ------------------------------------------------------- within one call

  /** A point of a call made in `m` at which all is as it must be. */
  ghost predicate Calm(m: Machine, s: Machine) {
    && s.vmx.on && Has(s.regs.cr4, CR4_VMXE) && InterruptsOff(s)
    && s.vmx.current == m.vmx.current && s.vmx.active == m.vmx.active && s.kernel == m.kernel
  }

  lemma CalmSafe(env: Env, start: Machine, m: Machine, s: Machine, pa: Address, x: Regs)
    requires Session(env, m, pa, x) && Calm(m, s)
    ensures Safe(start, s)
  {
    hide Armed, AddressOk, Has, InterruptsOff;
  }

  lemma CalmHost(env: Env, m: Machine, op: EntryOp, pa: Address, x: Regs)
    requires LayoutOk(env) && Session(env, m, pa, x) && Sane(m)
    ensures Calm(m, m) && Calm(m, CallTo(env, m, op)) && Calm(m, Step(env, CallTo(env, m, op)))
    ensures Calm(m, Prepared(env, m, op))
  {
    hide Step, Fetch, Armed, AddressOk, HostRegs;
    PrepareSteps(env, m, op, pa, x);
    StepMov(env, CallTo(env, m, op), HOST_RSP_NUMBER);
  }

  lemma CalmAttempting(env: Env, m: Machine, op: EntryOp, slot: nat, rax: Word, pa: Address, x: Regs)
    requires Session(env, m, pa, x) && Sane(m)
    ensures Calm(m, Attempting(env, m, op, slot, rax)) && !Attempting(env, m, op, slot, rax).guest
  {
    hide HostRegs, EndingOf, GuestRan, EntryViolations, AddressOk;
  }

  lemma CalmRefusing(env: Env, m: Machine, op: EntryOp, pa: Address, x: Regs)
    requires LayoutOk(env) && Session(env, m, pa, x) && Sane(m) && EndingOf(env, m, op).Failed?
    ensures Calm(m, Step(env, Attempting(env, m, op, ENTRY_ERROR, HOST_RSP_NUMBER)))
  {
    hide Step, Fetch, Attempting, Session, EndingOf;
    var e := Attempting(env, m, op, ENTRY_ERROR, HOST_RSP_NUMBER);
    CalmAttempting(env, m, op, ENTRY_ERROR, HOST_RSP_NUMBER, pa, x);
    FailureSteps(env, m, op, pa, x);
    StepMov(env, e, Word(1));
  }

  lemma CalmLeaving(env: Env, m: Machine, op: EntryOp, pa: Address, x: Regs)
    requires Session(env, m, pa, x) && Sane(m)
    ensures Calm(m, Leaving(env, m, op))
  {
    hide HostRegs, EndingOf, AddressOk;
  }

  /** Interrupts are off and CR4.VMXE is set at every instruction of a call, in the guest
      as in the host. */
  lemma CallCalm(env: Env, m: Machine, op: EntryOp, j: nat, pa: Address, x: Regs)
    requires LayoutOk(env) && Session(env, m, pa, x) && Sane(m) && j <= PathLength(env, m, op)
    ensures Calm(m, Steps(env, CallTo(env, m, op), j))
  {
    hide Step, Steps, CallTo, Prepared, Attempting, Landed, Leaving, Calm, EndingOf, GuestRan, LayoutOk,
      Session, Sane, Attempt;
    CalmHost(env, m, op, pa, x);
    CalmAttempting(env, m, op, 3, HOST_RSP_NUMBER, pa, x);
    CalmAttempting(env, m, op, ENTRY_ERROR, HOST_RSP_NUMBER, pa, x);
    CalmAttempting(env, m, op, VMX_EXIT, HOST_RSP_NUMBER, pa, x);
    CalmLeaving(env, m, op, pa, x);
    PathStates(env, m, op, j, pa, x);
    if EndingOf(env, m, op).Failed? { CalmRefusing(env, m, op, pa, x); }
    CalmLanded(env, m, op, pa, x);
  }

  lemma CalmLanded(env: Env, m: Machine, op: EntryOp, pa: Address, x: Regs)
    requires Session(env, m, pa, x) && Sane(m)
    ensures Calm(m, Landed(env, m, op)) && Calm(m, Attempt(env, m, op))
  {
    hide HostRegs, EndingOf, GuestRan, EntryViolations, AddressOk;
  }

  /** The steps of a call: the CALL and `n` instructions. */
  function CallOps(op: EntryOp, n: nat): seq<Op> {
    if n == 0 then [CallAsm(op)] else CallOps(op, n - 1) + [NextInstr]
  }

  lemma CallSteps(env: Env, m: Machine, op: EntryOp)
    ensures Apply(env, m, CallAsm(op)) == CallTo(env, m, op) && Apply(env, m, NextInstr) == Step(env, m)
  {
    IsCallAsm(env, m, op);
    IsNextInstr(env, m);
    hide Apply, CallTo, Step;
  }

  lemma {:induction false} CallOpsRun(env: Env, m: Machine, op: EntryOp, n: nat)
    ensures |CallOps(op, n)| == n + 1
    ensures Run(env, m, CallOps(op, n)) == Steps(env, CallTo(env, m, op), n)
  {
    hide Apply, Step, CallTo;
    if n == 0 {
      RunOne(env, m, CallAsm(op));
      CallSteps(env, m, op);
    } else {
      CallOpsRun(env, m, op, n - 1);
      CallSteps(env, Run(env, m, CallOps(op, n - 1)), op);
      assert CallOps(op, n)[..n] == CallOps(op, n - 1);
    }
  }

  lemma {:induction false} CallSafe(env: Env, start: Machine, m: Machine, op: EntryOp, n: nat, pa: Address, x: Regs)
    requires LayoutOk(env) && Session(env, m, pa, x) && Sane(m) && n <= PathLength(env, m, op) + 1
    requires OurVmcs(env, start) == Some(pa)
    ensures SafeFrom(env, start, m, CallOps(op, n))
    decreases n
  {
    hide Safe, Fair, OurVmcs, SafeFrom, Run, Steps, Calm, Sane, Session, Attempt, CallTo, Step, PathLength,
      LayoutOk;
    CallHost(env, start, m, op, pa, x);
    if n == 0 {
      SafeOne(env, start, m, CallAsm(op));
    } else {
      CallSafe(env, start, m, op, n - 1, pa, x);
      CallOpsRun(env, m, op, n - 1);
      var s := Steps(env, CallTo(env, m, op), n - 1);
      InstrSafe(env, start, m, op, n, pa, x);
      SafeOne(env, start, s, NextInstr);
      SafeJoined(env, start, m, CallOps(op, n - 1), [NextInstr]);
    }
  }

  lemma CallHost(env: Env, start: Machine, m: Machine, op: EntryOp, pa: Address, x: Regs)
    requires LayoutOk(env) && Session(env, m, pa, x) && Sane(m)
    ensures Safe(start, m) && Safe(start, Apply(env, m, CallAsm(op))) && Fair(env, start, m, CallAsm(op))
    ensures Apply(env, m, CallAsm(op)) == CallTo(env, m, op)
  {
    hide Apply, Safe, Calm, CallTo, Sane;
    CallSteps(env, m, op);
    CalmHost(env, m, op, pa, x);
    CalmSafe(env, start, m, m, pa, x);
    CalmSafe(env, start, m, CallTo(env, m, op), pa, x);
  }

  lemma PointSafe(env: Env, start: Machine, m: Machine, op: EntryOp, n: nat, pa: Address, x: Regs)
    requires LayoutOk(env) && Session(env, m, pa, x) && Sane(m) && n <= PathLength(env, m, op) + 1
    ensures Safe(start, Steps(env, CallTo(env, m, op), n))
  {
    hide *;
    var s := Steps(env, CallTo(env, m, op), n);
    if n <= PathLength(env, m, op) {
      CallCalm(env, m, op, n, pa, x);
    } else {
      CalmLanded(env, m, op, pa, x);
      Path(env, m, op, pa, x);
      StepsMore(env, CallTo(env, m, op), n - 1);
    }
    CalmSafe(env, start, m, s, pa, x);
  }

  /** The run's own VMCS is current at every instruction of a call. */
  lemma CallOnOurs(env: Env, start: Machine, m: Machine, op: EntryOp, j: nat, pa: Address, x: Regs)
    requires LayoutOk(env) && Session(env, m, pa, x) && Sane(m) && j <= PathLength(env, m, op)
    requires OurVmcs(env, start) == Some(pa)
    ensures OnOurs(env, start, Steps(env, CallTo(env, m, op), j))
  {
    hide LayoutOk, PathLength, CallTo, Steps, OurVmcs, Armed, AddressOk, InterruptsOff, Has;
    CallCalm(env, m, op, j, pa, x);
  }

  lemma InstrFair(env: Env, start: Machine, m: Machine)
    requires OnOurs(env, start, m)
    ensures Fair(env, start, m, NextInstr)
  {
    hide OnOurs, Act;
  }

  lemma InstrSafe(env: Env, start: Machine, m: Machine, op: EntryOp, n: nat, pa: Address, x: Regs)
    requires LayoutOk(env) && Session(env, m, pa, x) && Sane(m) && 1 <= n <= PathLength(env, m, op) + 1
    requires OurVmcs(env, start) == Some(pa)
    ensures var s := Steps(env, CallTo(env, m, op), n - 1);
      Safe(start, s) && Safe(start, Apply(env, s, NextInstr)) && Fair(env, start, s, NextInstr)
  {
    hide *;
    CallOnOurs(env, start, m, op, n - 1, pa, x);
    InstrFair(env, start, Steps(env, CallTo(env, m, op), n - 1));
    PointSafe(env, start, m, op, n - 1, pa, x);
    PointSafe(env, start, m, op, n, pa, x);
    StepsMore(env, CallTo(env, m, op), n - 1);
    CallSteps(env, Steps(env, CallTo(env, m, op), n - 1), op);
  }

  /** do_vmlaunch and do_vmresume, instruction by instruction, from the CALL of the C
      caller to the instruction after it. Every point on the way is safe. */
  method Call(env: Env, before: Machine, op: EntryOp, ghost start: Machine, ghost pa: Address, ghost x: Regs)
    returns (after: Machine, rax: Word, ghost ops: seq<Op>)
    requires LayoutOk(env) && Session(env, before, pa, x) && Sane(before) && OurVmcs(env, start) == Some(pa)
    ensures after == Attempt(env, before, op)
    ensures rax == after.core.rax
    ensures after == Run(env, before, ops) && SafeFrom(env, start, before, ops)
  {
    hide *;
    after := CallTo(env, before, op);
    ghost var c, k := after, 0;
    Path(env, before, op, pa, x);
    StepsMore(env, c, k);
    while !AtReturn(env, after)
      invariant k <= PathLength(env, before, op) && after == Steps(env, c, k)
      decreases PathLength(env, before, op) - k
    {
      StepsMore(env, c, k);
      after, k := Step(env, after), k + 1;
    }
    after := Step(env, after);
    rax := after.core.rax;
    ops := CallOps(op, k + 1);
    StepsMore(env, c, k);
    CallOpsRun(env, before, op, k + 1);
    CallSafe(env, start, before, op, k + 1, pa, x);
  }

  lemma StepsMore(env: Env, c: Machine, k: nat)
    ensures Steps(env, c, 0) == c && Steps(env, c, k + 1) == Step(env, Steps(env, c, k))
  {
  }

  // ------------------------------------------------------ a run as it is recorded

  /** `trace` is a safe run from `start` that has come to the host state `m`. */
  ghost predicate Follows(env: Env, start: Machine, trace: seq<Op>, m: Machine) {
    m == Run(env, start, trace) && SafeFrom(env, start, start, trace) && !m.guest
  }

  lemma {:induction false} FollowsNothing(env: Env, start: Machine)
    requires Sane(start) && !start.guest
    ensures Follows(env, start, [], start)
  {
    hide Sane;
  }

  lemma FollowsSafe(env: Env, start: Machine, trace: seq<Op>, m: Machine)
    requires Follows(env, start, trace, m)
    ensures Safe(start, m) && Sane(m)
  {
    hide Sane, Run, Fair;
    assert trace[..|trace|] == trace;
  }

  lemma FollowsOps(env: Env, start: Machine, trace: seq<Op>, m: Machine, ops: seq<Op>)
    requires Follows(env, start, trace, m) && SafeFrom(env, start, m, ops) && !Run(env, m, ops).guest
    ensures Follows(env, start, trace + ops, Run(env, m, ops))
  {
    hide Run, SafeFrom;
    SafeJoined(env, start, start, trace, ops);
  }

  lemma FollowsOp(env: Env, start: Machine, trace: seq<Op>, m: Machine, op: Op)
    requires Follows(env, start, trace, m) && Benign(env, start, m, op)
    ensures Follows(env, start, trace + [op], Apply(env, m, op))
  {
    hide Run, Apply, SafeFrom, Safe, Benign, Fair;
    FollowsSafe(env, start, trace, m);
    BenignSafe(env, start, m, op);
    SafeOne(env, start, m, op);
    FollowsOps(env, start, trace, m, [op]);
  }

  lemma FollowsEnable(env: Env, start: Machine, trace: seq<Op>, m: Machine, saved: Word)
    requires Follows(env, start, trace, m) && m.kernel.preemptDepth == start.kernel.preemptDepth + 1
    ensures Follows(env, start, trace + [EnableInterrupts(saved)], Apply(env, m, EnableInterrupts(saved)))
  {
    hide Run, Apply, SafeFrom, Safe, Fair;
    FollowsSafe(env, start, trace, m);
    EnableSafe(env, start, m, saved);
    SafeOne(env, start, m, EnableInterrupts(saved));
    FollowsOps(env, start, trace, m, [EnableInterrupts(saved)]);
  }

  // ------------------------------------------------------------- series of writes

  function OpOf(w: Write): Op { Op.Vmwrite(w.field, w.value) }

  function Ops(ws: seq<Write>): seq<Op> {
    if ws == [] then [] else Ops(ws[..|ws| - 1]) + [OpOf(ws[|ws| - 1])]
  }

  lemma OpsMore(t: seq<Op>, ws: seq<Write>, w: Write)
    ensures t + Ops(ws + [w]) == (t + Ops(ws)) + [OpOf(w)]
  {
    assert (ws + [w])[..|ws|] == ws;
  }

  lemma {:induction false} OpsAppended(t: seq<Op>, a: seq<Write>, b: seq<Write>)
    ensures t + Ops(a + b) == (t + Ops(a)) + Ops(b)
  {
    hide OpOf;
    if b == [] {
      assert a + b == a;
    } else {
      var n := |b| - 1;
      OpsAppended(t, a, b[..n]);
      OpsMore(t, a + b[..n], b[n]);
      assert a + b == (a + b[..n]) + [b[n]];
    }
  }

  lemma OpsOne(t: seq<Op>, ws: seq<Write>)
    requires |ws| == 1
    ensures t + Ops(ws) == t + [OpOf(ws[0])]
  {
    assert ws[..0] == [] && t + Ops([]) == t;
    OpsMore(t, ws[..0], ws[0]);
    assert ws == ws[..0] + [ws[0]];
  }

  lemma OpsTwo(t: seq<Op>, ws: seq<Write>)
    requires |ws| == 2
    ensures t + Ops(ws) == t + [OpOf(ws[0])] + [OpOf(ws[1])]
  {
    OpsOne(t, ws[..1]);
    OpsMore(t, ws[..1], ws[1]);
    assert ws == ws[..1] + [ws[1]];
  }

  lemma OpsThree(t: seq<Op>, ws: seq<Write>)
    requires |ws| == 3
    ensures t + Ops(ws) == t + [OpOf(ws[0])] + [OpOf(ws[1])] + [OpOf(ws[2])]
  {
    OpsTwo(t, ws[..2]);
    OpsMore(t, ws[..2], ws[2]);
    assert ws == ws[..2] + [ws[2]];
  }

  lemma OpsFour(t: seq<Op>, ws: seq<Write>)
    requires |ws| == 4
    ensures t + Ops(ws) == t + [OpOf(ws[0])] + [OpOf(ws[1])] + [OpOf(ws[2])] + [OpOf(ws[3])]
  {
    OpsThree(t, ws[..3]);
    OpsMore(t, ws[..3], ws[3]);
    assert ws == ws[..3] + [ws[3]];
  }

  lemma OpsFive(t: seq<Op>, ws: seq<Write>)
    requires |ws| == 5
    ensures t + Ops(ws) == t + [OpOf(ws[0])] + [OpOf(ws[1])] + [OpOf(ws[2])] + [OpOf(ws[3])] + [OpOf(ws[4])]
  {
    OpsFour(t, ws[..4]);
    OpsMore(t, ws[..4], ws[4]);
    assert ws == ws[..4] + [ws[4]];
  }

  lemma OpsSix(t: seq<Op>, ws: seq<Write>)
    requires |ws| == 6
    ensures t + Ops(ws) == t + [OpOf(ws[0])] + [OpOf(ws[1])] + [OpOf(ws[2])] + [OpOf(ws[3])] + [OpOf(ws[4])]
      + [OpOf(ws[5])]
  {
    OpsFive(t, ws[..5]);
    OpsMore(t, ws[..5], ws[5]);
    assert ws == ws[..5] + [ws[5]];
  }

  lemma OpsSeven(t: seq<Op>, ws: seq<Write>)
    requires |ws| == 7
    ensures t + Ops(ws) == t + [OpOf(ws[0])] + [OpOf(ws[1])] + [OpOf(ws[2])] + [OpOf(ws[3])] + [OpOf(ws[4])]
      + [OpOf(ws[5])] + [OpOf(ws[6])]
  {
    OpsSix(t, ws[..6]);
    OpsMore(t, ws[..6], ws[6]);
    assert ws == ws[..6] + [ws[6]];
  }

  lemma OpsEight(t: seq<Op>, ws: seq<Write>)
    requires |ws| == 8
    ensures t + Ops(ws) == t + [OpOf(ws[0])] + [OpOf(ws[1])] + [OpOf(ws[2])] + [OpOf(ws[3])] + [OpOf(ws[4])]
      + [OpOf(ws[5])] + [OpOf(ws[6])] + [OpOf(ws[7])]
  {
    OpsSeven(t, ws[..7]);
    OpsMore(t, ws[..7], ws[7]);
    assert ws == ws[..7] + [ws[7]];
  }

  lemma WriteDone(env: Env, m: Machine, w: Write)
    requires Writable(m) && Proper(w)
    ensures Apply(env, m, OpOf(w)) == WithFields(m, PutOne(m.vmx.fields, w))
    ensures Writable(Apply(env, m, OpOf(w)))
  {
    hide Apply, Put, Fits, Has, Processor.Vmwrite;
    WriteFits(m, w.field, w.value);
    IsVmwrite(env, m, w.field, w.value);
  }

  /** A series of proper writes to a current VMCS changes the VMCS as PutAll says, and
      nothing else. */
  lemma {:induction false} WritesRun(env: Env, m: Machine, ws: seq<Write>)
    requires Writable(m) && AllProper(ws)
    ensures Run(env, m, Ops(ws)) == WithFields(m, PutAll(m.vmx.fields, ws))
    ensures Writable(Run(env, m, Ops(ws)))
  {
    hide Apply, OpOf, Put, Proper, Has;
    if ws != [] {
      var n := |ws| - 1;
      WritesRun(env, m, ws[..n]);
      WriteDone(env, Run(env, m, Ops(ws[..n])), ws[n]);
      assert Ops(ws)[..|Ops(ws)| - 1] == Ops(ws[..n]);
    }
  }

  /** A VMWRITE changes which VMCS is current as little as it changes anything but fields. */
  lemma WriteStays(env: Env, start: Machine, m: Machine, f: Field, v: Word)
    requires OnOurs(env, start, m)
    ensures Benign(env, start, m, Op.Vmwrite(f, v)) && OnOurs(env, start, Apply(env, m, Op.Vmwrite(f, v)))
  {
    hide Apply, OurVmcs, Put, Fit, WithError, InterruptsOff;
    IsVmwrite(env, m, f, v);
  }

  lemma OnOursAt(env: Env, start: Machine, m: Machine, pa: Address)
    requires OurVmcs(env, start) == Some(pa) && m.vmx.current == Some(pa)
    ensures OnOurs(env, start, m)
  {
    hide OurVmcs;
  }

  lemma OursGranted(env: Env, start: Machine)
    requires |Granted(env, start)| == 5
    ensures OurVmcs(env, start) == Some(Granted(env, start)[1])
  {
    hide Granted;
  }

  /** From the trace `t` and the machine `o`, the writes `ws` have led to `trace` and `m`. */
  ghost predicate Wrought(t: seq<Op>, o: Machine, ws: seq<Write>, trace: seq<Op>, m: Machine) {
    trace == t + Ops(ws) && m == WithFields(o, PutAll(o.vmx.fields, ws))
  }

  /** Proper writes to a current VMCS, as they are recorded. */
  lemma Wrote(env: Env, start: Machine, t: seq<Op>, o: Machine, trace: seq<Op>, m: Machine, ws: seq<Write>)
    requires Follows(env, start, t, o) && Follows(env, start, trace, m) && trace == t + Ops(ws)
    requires Writable(o) && AllProper(ws)
    ensures Wrought(t, o, ws, trace, m) && m == WithFields(o, PutAll(o.vmx.fields, ws))
    ensures Writable(m) && m.regs == o.regs && m.core == o.core
  {
    hide Run, Ops, PutAll, Proper, Writable, SafeFrom;
    RunAppended(env, start, t, Ops(ws));
    WritesRun(env, o, ws);
  }

  lemma SamePlan(env: Env, o: Machine, m: Machine, ioA: Word, ioB: Word)
    requires m.regs == o.regs && m.core == o.core
    ensures PlanOf(env, m, ioA, ioB) == PlanOf(env, o, ioA, ioB)
  {
  }

  lemma WroughtThen(t: seq<Op>, o: Machine, a: seq<Write>, t1: seq<Op>, m1: Machine, b: seq<Write>, t2: seq<Op>,
      m2: Machine)
    requires Wrought(t, o, a, t1, m1) && Wrought(t1, m1, b, t2, m2)
    ensures Wrought(t, o, a + b, t2, m2)
  {
    OpsAppended(t, a, b);
    PutAppended(o.vmx.fields, a, b);
    hide Ops, PutAll;
  }

  lemma WroughtImage(t: seq<Op>, o: Machine, p: Plan, trace: seq<Op>, m: Machine)
    requires Wrought(t, o, Writes(p), trace, m)
    ensures trace == t + Ops(Writes(p)) && m == WithFields(o, Image(p, o.vmx.fields))
  {
    hide Ops, PutAll, Writes, Image;
    WritesGiveImage(p, o.vmx.fields, Writes(p));
  }

  // -------------------------------------------------------- steps of the driver

  lemma FollowsRun(env: Env, start: Machine, trace: seq<Op>, m: Machine)
    requires Follows(env, start, trace, m)
    ensures m == Run(env, start, trace) && SafeFrom(env, start, start, trace)
  {
    hide Run, SafeFrom;
  }

  lemma VmcsSteps(env: Env, start: Machine, m: Machine, pa: Address)
    ensures Benign(env, start, m, Op.Vmptrld(pa)) && Apply(env, m, Op.Vmptrld(pa)) == Processor.Vmptrld(env, m, pa).m
    ensures Benign(env, start, m, Op.Vmclear(pa)) && Apply(env, m, Op.Vmclear(pa)) == Processor.Vmclear(env, m, pa).m
  {
    IsVmptrld(env, m, pa);
    IsVmclear(env, m, pa);
    hide Apply, Processor.Vmptrld, Processor.Vmclear;
  }

  lemma PassBenign(env: Env, start: Machine, m: Machine, cycles: nat)
    ensures Benign(env, start, m, Pass(cycles)) && Apply(env, m, Pass(cycles)) == Spend(m, cycles)
    ensures Spend(m, cycles).tsc == m.tsc + cycles && Spend(m, cycles).visits == m.visits
  {
  }

  lemma SetCr4Benign(env: Env, start: Machine, m: Machine, value: Word)
    requires InterruptsOff(m) && (m.vmx.on ==> Has(value, CR4_VMXE))
    ensures Benign(env, start, m, Op.SetCr4(value))
    ensures Apply(env, m, Op.SetCr4(value)) == m.(regs := m.regs.(cr4 := value))
  {
    IsSetCr4(env, m, value);
    hide Apply, Has;
  }

  lemma VmxonStep(env: Env, start: Machine, m: Machine, pa: Address)
    ensures Benign(env, start, m, Op.Vmxon(pa)) && Apply(env, m, Op.Vmxon(pa)) == Processor.Vmxon(env, m, pa).m
  {
    IsVmxon(env, m, pa);
    hide Apply, Processor.Vmxon;
  }
}
